/** The task and submission services, as methods over the rows of one task. */
module TaskService {
  import opened Common
  import opened TaskStatus
  import V = Validator
  import L = TaskLifecycle

  class TaskRows {
    var active: bool
    var openings: int
    var claimsClosed: bool
    var statusCache: Status
    var slots: map<Id, bool>
    var submissions: map<Id, L.Submission>
    var template: seq<V.Question>
    var owners: map<Id, L.Owner>

    ghost function Snapshot(): L.State
      reads this
    {
      L.State(active, openings, claimsClosed, statusCache, slots, submissions, template, owners)
    }

    /** The database keeps submission numbers unique per claimant. */
    ghost predicate Valid()
      reads this
    {
      L.UniqueNumbers(submissions)
    }

    /** A fresh task: its division's openings and a copy of the division's template. */
    constructor (defaultOpenings: int, questions: seq<V.Question>)
      ensures Valid()
      ensures Snapshot() == L.Recomputed(L.State(true, defaultOpenings, false, Claimed, map[], map[], questions, map[]))
    {
      active, openings, claimsClosed := true, defaultOpenings, false;
      statusCache := ComputeStatusCache(0, defaultOpenings, false);
      slots, submissions, template, owners := map[], map[], questions, map[];
      CreationRuleAgrees(defaultOpenings, false, []);
      assert L.ActiveUsers(map[]) == {};
      assert (set u | u in L.ActiveUsers(map[]) :: L.SlotState(map[], u)) == set s | s in [];
    }

    /** `findFirst … orderBy submission_no desc`. */
    method FindLatest(claimant: Id, activeOnly: bool) returns (latest: Option<Id>)
      requires Valid()
      ensures latest == L.Latest(submissions, claimant, activeOnly)
    {
      latest := None;
      var rows := submissions.Keys;
      while rows != {}
        invariant rows <= submissions.Keys
        invariant latest.None? ==>
                    forall r :: r in submissions.Keys - rows ==> !L.Candidate(submissions, claimant, activeOnly, r)
        invariant latest.Some? ==>
                    && L.Candidate(submissions, claimant, activeOnly, latest.value)
                    && forall r | r in submissions.Keys - rows ::
                         L.Candidate(submissions, claimant, activeOnly, r) ==>
                             submissions[r].no <= submissions[latest.value].no
        decreases |rows|
      {
        var r :| r in rows;
        rows := rows - {r};
        var row := submissions[r];
        if row.claimant == claimant && (activeOnly ==> row.active) {
          if latest.None? || submissions[latest.value].no < row.no {
            latest := Some(r);
          }
        }
      }
      if latest.Some? {
        assert L.IsLatest(submissions, claimant, activeOnly, latest.value);
        L.LatestUnique(submissions, claimant, activeOnly, latest.value);
      }
    }

    /** Rewrites `status_cache` from the slots and their latest active submissions. */
    method Recompute()
      requires Valid()
      modifies this`statusCache
      ensures Snapshot() == L.Recomputed(old(Snapshot()))
    {
      var users := set u | u in slots && slots[u];
      assert users == L.ActiveUsers(slots);
      ghost var all := users;
      var states: seq<Option<SubmissionState>> := [];
      while users != {}
        invariant users <= all && |states| + |users| == |all|
        invariant forall s :: s in states <==> exists u :: u in all - users && L.SlotState(submissions, u) == s
        decreases |users|
      {
        var u :| u in users;
        users := users - {u};
        var latest := FindLatest(u, true);
        states := states + [if latest.Some? then Some(submissions[latest.value].state) else None];
        assert states[|states| - 1] == L.SlotState(submissions, u);
      }
      assert (set s | s in states) == set u | u in all :: L.SlotState(submissions, u);
      statusCache := ComputeMinRuleStatus(openings, claimsClosed, states);
    }

    method ReadClaim() returns (openingsRead: Option<int>, error: Option<L.Error>)
      ensures (openingsRead, error) == L.ReadClaim(Snapshot())
    {
      if !active { return None, Some(L.TaskRetired); }
      if claimsClosed { return None, Some(L.ClaimsClosed); }
      return Some(openings), None;
    }

    /** The locked half of a claim; re-claiming reactivates the user's slot row. */
    method CommitClaim(userId: Id, openingsRead: int) returns (error: Option<L.Error>)
      requires Valid()
      modifies this
      ensures Valid()
      ensures Reports(error, old(Snapshot()), L.CommitClaim(old(Snapshot()), userId, openingsRead))
    {
      if userId in slots && slots[userId] { return Some(L.AlreadyClaimed); }
      var activeCount := |set u | u in slots && slots[u]|;
      assert activeCount == |L.ActiveUsers(slots)|;
      if activeCount >= openingsRead { return Some(L.NoOpenings); }
      slots := slots[userId := true];
      Recompute();
      return None;
    }

    /** The answer a request gets, and the state it leaves: a refusal changes nothing. */
    ghost predicate Reports(error: Option<L.Error>, before: L.State, reply: L.Reply)
      reads this
    {
      match reply
      case Done(s) => error == None && Snapshot() == s
      case Refused(e) => error == Some(e) && Snapshot() == before
    }

    method Leave(userId: Id) returns (error: Option<L.Error>)
      requires Valid()
      modifies this
      ensures Valid()
      ensures Reports(error, old(Snapshot()), L.Leave(old(Snapshot()), userId))
    {
      if !active { return Some(L.TaskRetired); }
      if userId !in slots || !slots[userId] { return Some(L.NotClaimed); }
      slots := slots[userId := false];
      Recompute();
      return None;
    }

    /** Eviction by the requester: the same change, to a named user's slot. */
    method RemoveClaimant(targetUserId: Id) returns (error: Option<L.Error>)
      requires Valid()
      modifies this
      ensures Valid()
      ensures Reports(error, old(Snapshot()), L.Leave(old(Snapshot()), targetUserId))
    {
      if !active { return Some(L.TaskRetired); }
      if targetUserId !in slots || !slots[targetUserId] { return Some(L.NotClaimed); }
      slots := slots[targetUserId := false];
      Recompute();
      return None;
    }

    method ManageClaims(delta: Option<int>, closed: Option<bool>, openingsLocked: bool) returns (error: Option<L.Error>)
      requires Valid()
      modifies this
      ensures Valid()
      ensures Reports(error, old(Snapshot()), L.ManageClaims(old(Snapshot()), delta, closed, openingsLocked))
    {
      if !active { return Some(L.TaskRetired); }
      var newOpenings := openings;
      if delta.Some? && delta.value != 0 {
        if openingsLocked { return Some(L.OpeningsLocked); }
        var activeCount := |set u | u in slots && slots[u]|;
        assert activeCount == |L.ActiveUsers(slots)|;
        newOpenings := openings + delta.value;
        if newOpenings < 0 { return Some(L.InvalidOpenings); }
        if newOpenings < activeCount { return Some(L.InvalidOpenings); }
      }
      openings := newOpenings;
      if closed.Some? {
        claimsClosed := closed.value;
      }
      Recompute();
      return None;
    }

    /** Manual completion forces the cached status. */
    method Complete() returns (error: Option<L.Error>)
      modifies this
      ensures Reports(error, old(Snapshot()), L.Complete(old(Snapshot())))
      ensures old(Valid()) ==> Valid()
    {
      if !active { return Some(L.TaskRetired); }
      statusCache := Status.Approved;
      return None;
    }

    /** Validates the answers, then creates the next version of the claimant's submission. */
    method Submit(w: L.World, userId: Id, answers: seq<V.DtoAnswer>, id: Id)
      returns (error: Option<L.Error>, entries: seq<V.Entry>)
      requires Valid() && id !in submissions
      modifies this
      ensures Valid()
      ensures Reports(error, old(Snapshot()), L.Submit(w, old(Snapshot()), userId, answers, id))
      ensures error == Some(L.InvalidSubmission) <==> entries != []
      ensures entries != [] ==>
                var typed := V.ToValidatorAnswers(w.coercions, old(template), answers);
                forall e :: e in entries <==> V.Genuine(old(template), typed, L.Lookup(w), e)
    {
      hide V.Valid, V.Genuine, V.ToValidatorAnswers, L.Derived, L.Latest, L.UniqueNumbers, L.Reowned, L.Lookup;
      entries := [];
      if !active { return Some(L.TaskRetired), []; }
      if userId !in slots || !slots[userId] { return Some(L.NotClaimed), []; }
      var typed := V.ToValidatorAnswers(w.coercions, template, answers);
      var ok;
      ok, entries := V.ValidateSubmission(template, typed, L.Lookup(w));
      if !ok { return Some(L.InvalidSubmission), entries; }
      var latest := FindLatest(userId, false);
      if latest.Some? && submissions[latest.value].active
          && submissions[latest.value].state != SubmissionState.Revising {
        return Some(L.AlreadySubmitted), [];
      }
      var no := if latest.Some? then submissions[latest.value].no + 1 else 1;
      var prev := if latest.Some? && submissions[latest.value].active then latest else None;
      var row := L.Submission(userId, no, prev, SubmissionState.Review, true, 0, answers);
      L.NextNumberIsUnique(submissions, userId, id, row);
      submissions := submissions[id := row];
      OwnAttachments(w.files.Keys + w.retiredFiles, id, answers);
      Recompute();
      return None, [];
    }

    /** Each answer in turn takes over the attachments it references. */
    method OwnAttachments(known: set<Id>, id: Id, answers: seq<V.DtoAnswer>)
      modifies this`owners
      ensures owners == L.Reowned(known, old(owners), id, answers, |answers|)
    {
      for i := 0 to |answers|
        invariant owners == L.Reowned(known, old(owners), id, answers, i)
      {
        var files := answers[i].attachmentIds;
        if files.Some? && |files.value| > 0 {
          owners := owners + map f | f in files.value && f in known :: L.Owner(id, i);
        }
      }
    }

    method ReadReview(id: Id) returns (version: Option<nat>, error: Option<L.Error>)
      ensures (version, error) == L.ReadReview(Snapshot(), id)
    {
      if id !in submissions { return None, Some(L.SubmissionNotFound); }
      if !submissions[id].active { return None, Some(L.SubmissionRetired); }
      if submissions[id].state != SubmissionState.Review { return None, Some(L.InvalidTransition); }
      return Some(submissions[id].version), None;
    }

    /** The version-guarded half of a review. */
    method CommitReview(id: Id, version: nat, decision: L.Decision) returns (error: Option<L.Error>)
      requires Valid()
      modifies this
      ensures Valid()
      ensures Reports(error, old(Snapshot()), L.CommitReview(old(Snapshot()), id, version, decision))
    {
      if id !in submissions || submissions[id].version != version { return Some(L.StaleSubmission); }
      submissions := submissions[id :=
          submissions[id].(state := decision.Outcome(), version := submissions[id].version + 1)];
      Recompute();
      return None;
    }

    method RetireSubmission(id: Id) returns (error: Option<L.Error>)
      requires Valid()
      modifies this
      ensures Valid()
      ensures Reports(error, old(Snapshot()), L.RetireSubmission(old(Snapshot()), id))
    {
      if id !in submissions { return Some(L.SubmissionNotFound); }
      if !submissions[id].active { return Some(L.AlreadyRetired); }
      submissions := submissions[id := submissions[id].(active := false, version := submissions[id].version + 1)];
      Recompute();
      return None;
    }

    /** Deletes the question rows and writes new ones. */
    method PutTemplate(questions: seq<V.Question>) returns (error: Option<L.Error>)
      modifies this
      ensures Reports(error, old(Snapshot()), L.PutTemplate(old(Snapshot()), questions))
      ensures old(Valid()) ==> Valid()
    {
      var live := set id | id in submissions && submissions[id].active;
      if |live| > 0 {
        var id :| id in live;
        return Some(L.TemplateLocked);
      }
      assert forall id <- submissions :: id !in live;
      if exists id <- submissions :: L.NamesQuestion(submissions[id].answers, template) {
        return Some(L.AnswersRemain);
      }
      template := questions;
      return None;
    }

    method Retire() returns (error: Option<L.Error>)
      modifies this`active
      ensures Reports(error, old(Snapshot()), L.RetireTask(old(Snapshot())))
    {
      if !active { return Some(L.AlreadyRetired); }
      active := false;
      return None;
    }

    /** `inWindow`: the grace period since the retirement has not elapsed. */
    method Revive(inWindow: bool) returns (error: Option<L.Error>)
      modifies this`active
      ensures Reports(error, old(Snapshot()), L.ReviveTask(old(Snapshot()), inWindow))
    {
      if active || !inWindow { return Some(L.NotRevivable); }
      active := true;
      return None;
    }
  }
}
