/** A task's rows told from the accepted steps of its run alone. */
module TaskHistory {
  import opened Common
  import opened TaskStatus
  import opened TaskLifecycle
  import opened TaskRuns
  import opened TaskResults
  import V = Validator

  /* ---------- What a list of accepted steps says ---------- */

  /** A review commit in the list carried this decision for the submission. */
  predicate Carried(steps: seq<Step>, id: Id, decision: Decision) {
    steps != [] &&
    ((Last(steps).DoReview? && Last(steps).id == id && Last(steps).decision == decision)
     || Carried(Init(steps), id, decision))
  }

  predicate RetiredIn(steps: seq<Step>, id: Id) {
    steps != [] && ((Last(steps).DoRetireSubmission? && Last(steps).id == id) || RetiredIn(Init(steps), id))
  }

  /** How many versions the user has submitted, and which one last. */
  function SubmitsBy(steps: seq<Step>, user: Id): nat {
    if steps == [] then 0
    else SubmitsBy(Init(steps), user) + if Last(steps).DoSubmit? && Last(steps).user == user then 1 else 0
  }

  function LastSubmit(steps: seq<Step>, user: Id): Option<Id> {
    if steps == [] then None
    else if Last(steps).DoSubmit? && Last(steps).user == user then Some(Last(steps).id)
    else LastSubmit(Init(steps), user)
  }

  /** What a version was submitted as: its author, number, content, and the version it follows. */
  datatype Sent = Sent(user: Id, no: int, prev: Option<Id>, answers: seq<V.DtoAnswer>)

  function SentAs(steps: seq<Step>, id: Id): Option<Sent> {
    if steps == [] then None
    else if Last(steps).DoSubmit? && Last(steps).id == id
    then
      var earlier, user := Init(steps), Last(steps).user;
      var before := LastSubmit(earlier, user);
      Some(Sent(user, SubmitsBy(earlier, user) + 1,
                if before.Some? && !RetiredIn(earlier, before.value) then before else None,
                Last(steps).answers))
    else SentAs(Init(steps), id)
  }

  /* ---------- The rows ---------- */

  ghost predicate StateFollows(steps: seq<Step>, id: Id, row: Submission) {
    && (row.state == SubmissionState.Approved <==> Carried(steps, id, Approve))
    && (row.state == SubmissionState.Revising <==> Carried(steps, id, Return))
    && (row.state == SubmissionState.Rejected <==> Carried(steps, id, Reject))
    && (row.state == SubmissionState.Review <==>
          !Carried(steps, id, Approve) && !Carried(steps, id, Return) && !Carried(steps, id, Reject))
  }

  ghost predicate RowFollows(steps: seq<Step>, id: Id, row: Submission) {
    && StateFollows(steps, id, row)
    && (row.active <==> !RetiredIn(steps, id))
    && row.version == (if row.state == SubmissionState.Review then 0 else 1) + (if row.active then 0 else 1)
    && SentAs(steps, id) == Some(Sent(row.claimant, row.no, row.prev, row.answers))
  }

  /** The latest version of a user, and how many there are. */
  ghost predicate AuthorFollows(subs: map<Id, Submission>, steps: seq<Step>, user: Id) {
    var last := LastSubmit(steps, user);
    && (last.None? <==> SubmitsBy(steps, user) == 0)
    && (last.Some? ==> last.value in subs && subs[last.value].claimant == user
                       && subs[last.value].no == SubmitsBy(steps, user))
    && forall id | id in subs && subs[id].claimant == user :: last.Some? && subs[id].no <= SubmitsBy(steps, user)
  }

  ghost predicate Follows(subs: map<Id, Submission>, steps: seq<Step>) {
    && (forall id | id in subs :: RowFollows(steps, id, subs[id]))
    && (forall id | id !in subs :: Unheard(steps, id))
    && forall user :: AuthorFollows(subs, steps, user)
  }

  ghost predicate Unheard(steps: seq<Step>, id: Id) {
    SentAs(steps, id) == None && !RetiredIn(steps, id) && forall d :: !Carried(steps, id, d)
  }

  /* ---------- One step more ---------- */

  lemma Snoc(steps: seq<Step>, step: Step)
    ensures Init(steps + [step]) == steps && Last(steps + [step]) == step
  {
  }

  /** The row a submit inserts: numbered and linked by what was submitted before. */
  lemma InsertedFollows(s: State, steps: seq<Step>, user: Id, answers: seq<V.DtoAnswer>, id: Id)
    requires Follows(s.submissions, steps) && UniqueNumbers(s.submissions) && id !in s.submissions
    ensures RowFollows(steps + [DoSubmit(user, answers, id)], id, NewSubmission(s, user, answers))
  {
    var latest, last := Latest(s.submissions, user, false), LastSubmit(steps, user);
    Snoc(steps, DoSubmit(user, answers, id));
    assert Unheard(steps, id);
    assert AuthorFollows(s.submissions, steps, user);
    if last.Some? {
      assert IsLatest(s.submissions, user, false, last.value);
      LatestUnique(s.submissions, user, false, last.value);
      assert RowFollows(steps, last.value, s.submissions[last.value]);
    }
    assert latest.Some? ==> last.Some?;
  }

  lemma AuthorAfterSubmit(s: State, steps: seq<Step>, user: Id, answers: seq<V.DtoAnswer>, id: Id, other: Id)
    requires Follows(s.submissions, steps) && UniqueNumbers(s.submissions) && id !in s.submissions
    ensures AuthorFollows(s.submissions[id := NewSubmission(s, user, answers)],
                          steps + [DoSubmit(user, answers, id)], other)
  {
    InsertedFollows(s, steps, user, answers, id);
    Snoc(steps, DoSubmit(user, answers, id));
    assert AuthorFollows(s.submissions, steps, other);
    hide NewSubmission, Follows, RowFollows, StateFollows;
    RowSent(steps + [DoSubmit(user, answers, id)], id, NewSubmission(s, user, answers));
  }

  lemma RowSent(steps: seq<Step>, id: Id, row: Submission)
    requires RowFollows(steps, id, row)
    ensures SentAs(steps, id) == Some(Sent(row.claimant, row.no, row.prev, row.answers))
  {
  }

  /** A row that a step does not name keeps following the list. */
  lemma OtherRow(steps: seq<Step>, step: Step, id: Id, row: Submission)
    requires !(step.DoSubmit? && step.id == id) && !(step.DoReview? && step.id == id)
    requires !(step.DoRetireSubmission? && step.id == id)
    ensures RowFollows(steps, id, row) ==> RowFollows(steps + [step], id, row)
    ensures Unheard(steps, id) ==> Unheard(steps + [step], id)
  {
    Snoc(steps, step);
  }

  lemma ReviewedRow(steps: seq<Step>, id: Id, version: nat, decision: Decision, row: Submission)
    requires RowFollows(steps, id, row) && row.active && row.state == SubmissionState.Review
    ensures RowFollows(steps + [DoReview(id, version, decision)], id,
                       row.(state := decision.Outcome(), version := row.version + 1))
  {
    Snoc(steps, DoReview(id, version, decision));
    assert decision.Approve? || decision.Return? || decision.Reject?;
  }

  lemma RetiredRow(steps: seq<Step>, id: Id, row: Submission)
    requires RowFollows(steps, id, row) && row.active
    ensures RowFollows(steps + [DoRetireSubmission(id)], id, row.(active := false, version := row.version + 1))
  {
    Snoc(steps, DoRetireSubmission(id));
  }

  /** Nobody's authorship changes but by a submit. */
  lemma SameAuthors(subs: map<Id, Submission>, after: map<Id, Submission>, steps: seq<Step>, step: Step, user: Id)
    requires !step.DoSubmit? && subs.Keys == after.Keys
    requires forall id | id in subs :: after[id].claimant == subs[id].claimant && after[id].no == subs[id].no
    requires AuthorFollows(subs, steps, user)
    ensures AuthorFollows(after, steps + [step], user)
  {
    Snoc(steps, step);
  }

  lemma FollowsSubmit(s: State, steps: seq<Step>, user: Id, answers: seq<V.DtoAnswer>, id: Id)
    requires Follows(s.submissions, steps) && UniqueNumbers(s.submissions) && id !in s.submissions
    ensures Follows(s.submissions[id := NewSubmission(s, user, answers)], steps + [DoSubmit(user, answers, id)])
  {
    var step, subs := DoSubmit(user, answers, id), s.submissions;
    var after := subs[id := NewSubmission(s, user, answers)];
    InsertedFollows(s, steps, user, answers, id);
    hide NewSubmission, RowFollows, AuthorFollows, Unheard;
    forall other | other != id
      ensures other in subs ==> RowFollows(steps + [step], other, after[other])
      ensures other !in subs ==> Unheard(steps + [step], other)
    {
      if other in subs {
        OtherRow(steps, step, other, subs[other]);
      } else {
        OtherUnheard(steps, step, other);
      }
    }
    forall other ensures AuthorFollows(after, steps + [step], other) {
      AuthorAfterSubmit(s, steps, user, answers, id, other);
    }
  }

  lemma OtherUnheard(steps: seq<Step>, step: Step, id: Id)
    requires !(step.DoSubmit? && step.id == id) && !(step.DoReview? && step.id == id)
    requires !(step.DoRetireSubmission? && step.id == id)
    requires Unheard(steps, id)
    ensures Unheard(steps + [step], id)
  {
    Snoc(steps, step);
  }

  /** A step that amends at most one known row, and submits nothing. */
  lemma FollowsAmend(subs: map<Id, Submission>, after: map<Id, Submission>, steps: seq<Step>, step: Step, id: Id)
    requires Follows(subs, steps) && !step.DoSubmit? && subs.Keys == after.Keys
    requires forall r | r in subs :: after[r].claimant == subs[r].claimant && after[r].no == subs[r].no
    requires (step.DoReview? ==> step.id == id) && (step.DoRetireSubmission? ==> step.id == id)
    requires id in subs && RowFollows(steps + [step], id, after[id])
    requires forall r | r in subs && r != id :: after[r] == subs[r]
    ensures Follows(after, steps + [step])
  {
    hide RowFollows, AuthorFollows, Unheard;
    forall other | other != id
      ensures other in subs ==> RowFollows(steps + [step], other, after[other])
      ensures other !in subs ==> Unheard(steps + [step], other)
    {
      if other in subs {
        OtherRow(steps, step, other, subs[other]);
      } else {
        OtherUnheard(steps, step, other);
      }
    }
    forall user ensures AuthorFollows(after, steps + [step], user) {
      SameAuthors(subs, after, steps, step, user);
    }
  }

  /** A step that leaves the rows alone. */
  lemma FollowsStill(subs: map<Id, Submission>, steps: seq<Step>, step: Step)
    requires Follows(subs, steps) && !step.DoSubmit? && !step.DoReview? && !step.DoRetireSubmission?
    ensures Follows(subs, steps + [step])
  {
    hide RowFollows, AuthorFollows, Unheard;
    forall id
      ensures id in subs ==> RowFollows(steps + [step], id, subs[id])
      ensures id !in subs ==> Unheard(steps + [step], id)
    {
      if id in subs {
        OtherRow(steps, step, id, subs[id]);
      } else {
        OtherUnheard(steps, step, id);
      }
    }
    forall user ensures AuthorFollows(subs, steps + [step], user) {
      SameAuthors(subs, subs, steps, step, user);
    }
  }

  lemma FollowsReview(subs: map<Id, Submission>, steps: seq<Step>, id: Id, version: nat, decision: Decision)
    requires Follows(subs, steps) && id in subs
    requires subs[id].active && subs[id].state == SubmissionState.Review && subs[id].version == version
    ensures Follows(subs[id := subs[id].(state := decision.Outcome(), version := version + 1)],
                    steps + [DoReview(id, version, decision)])
  {
    var after := subs[id := subs[id].(state := decision.Outcome(), version := version + 1)];
    assert RowFollows(steps, id, subs[id]);
    ReviewedRow(steps, id, version, decision, subs[id]);
    hide RowFollows, Follows;
    FollowsAmend(subs, after, steps, DoReview(id, version, decision), id);
  }

  lemma FollowsRetire(subs: map<Id, Submission>, steps: seq<Step>, id: Id)
    requires Follows(subs, steps) && id in subs && subs[id].active
    ensures Follows(subs[id := subs[id].(active := false, version := subs[id].version + 1)],
                    steps + [DoRetireSubmission(id)])
  {
    var after := subs[id := subs[id].(active := false, version := subs[id].version + 1)];
    assert RowFollows(steps, id, subs[id]);
    RetiredRow(steps, id, subs[id]);
    hide RowFollows, Follows;
    FollowsAmend(subs, after, steps, DoRetireSubmission(id), id);
  }

  /** The ticket of an accepted review is of a row that can still be decided. */
  lemma TicketOfReview(w: World, t: Track, step: Step)
    requires Invariant(t) && Enabled(t, Does(step)) && Respond(w, t.s, step).Done? && step.DoReview?
    ensures step.id in t.s.submissions
    ensures var row := t.s.submissions[step.id];
            row.active && row.state == SubmissionState.Review && row.version == step.version
  {
    StepConditions(w, t.s, step);
    InvariantHas(t);
    hide Respond, Invariant, Chain, DecidedOnce, StatusCurrent;
    assert (step.id, step.version) in t.reviews;
  }

  /** The rows after an accepted step, by kind of step. */
  lemma RowsByKind(w: World, s: State, step: Step)
    requires Respond(w, s, step).Done?
    ensures var after := Next(w, s, step).submissions;
            && (step.DoSubmit? ==> after == s.submissions[step.id := NewSubmission(s, step.user, step.answers)])
            && (step.DoReview? && step.id in s.submissions ==>
                  after == s.submissions[step.id :=
                    s.submissions[step.id].(state := step.decision.Outcome(), version := step.version + 1)])
            && (step.DoRetireSubmission? && step.id in s.submissions ==>
                  after == s.submissions[step.id :=
                    s.submissions[step.id].(active := false, version := s.submissions[step.id].version + 1)])
            && (!step.DoSubmit? && !step.DoReview? && !step.DoRetireSubmission? ==> after == s.submissions)
  {
    RowsAre(w, s, step);
    hide Respond, Next, NewSubmission;
  }

  lemma FreshSubmission(t: Track, step: Step)
    requires Enabled(t, Does(step)) && step.DoSubmit?
    ensures step.id !in t.s.submissions
  {
  }

  lemma FollowsStep(w: World, t: Track, step: Step, steps: seq<Step>)
    requires Invariant(t) && Enabled(t, Does(step)) && Respond(w, t.s, step).Done?
    requires Follows(t.s.submissions, steps)
    ensures Follows(Next(w, t.s, step).submissions, steps + [step])
  {
    hide *;
    var subs := t.s.submissions;
    RowsByKind(w, t.s, step);
    if step.DoSubmit? {
      InvariantHas(t);
      ChainNumbers(subs);
      FreshSubmission(t, step);
      FollowsSubmit(t.s, steps, step.user, step.answers, step.id);
    } else if step.DoReview? {
      TicketOfReview(w, t, step);
      FollowsReview(subs, steps, step.id, step.version, step.decision);
    } else if step.DoRetireSubmission? {
      StepConditions(w, t.s, step);
      FollowsRetire(subs, steps, step.id);
    } else {
      FollowsStill(subs, steps, step);
    }
  }

  lemma ChainNumbers(subs: map<Id, Submission>)
    requires Chain(subs)
    ensures UniqueNumbers(subs)
  {
  }

  lemma NothingFollows()
    ensures Follows(map[], [])
  {
  }

  /**
   * In every run the submission rows are what the accepted steps say: approved, returned or
   * rejected exactly as the accepted review carried, in review while none was accepted, retired
   * exactly if a retirement was, with the author, number, answers and predecessor submitted.
   */
  lemma {:induction false} SubmissionsFollowHistory(w: World, t: Track, es: seq<Event>)
    requires Created(t) && Legal(w, t, es)
    ensures Follows(After(w, t, es).s.submissions, Accepted(w, t, es))
  {
    hide Respond, Next, Follows, Invariant;
    if es == [] {
      NothingFollows();
    } else {
      SubmissionsFollowHistory(w, t, Init(es));
      AlwaysInvariant(w, t, Init(es));
      var before, e := After(w, t, Init(es)), Last(es);
      if e.Does? && Respond(w, before.s, e.step).Done? {
        FollowsStep(w, before, e.step, Accepted(w, t, Init(es)));
      } else {
        assert Accepted(w, t, Init(es)) + [] == Accepted(w, t, Init(es));
        if e.Does? {
          RefusedChangesNothing(w, before.s, e.step);
        }
      }
    }
  }

  /* ---------- Template and attachments ---------- */

  function TemplateBy(created: seq<V.Question>, steps: seq<Step>): seq<V.Question> {
    if steps == [] then created
    else if Last(steps).DoPutTemplate? then Last(steps).questions
    else TemplateBy(created, Init(steps))
  }

  /** The last of the answers that brings this file. */
  function LastBringing(answers: seq<V.DtoAnswer>, file: Id): Option<nat> {
    if answers == [] then None
    else if Last(answers).attachmentIds.Some? && file in Last(answers).attachmentIds.value then Some(|answers| - 1)
    else LastBringing(Init(answers), file)
  }

  /** A known attachment belongs to the answer that last brought it, in the last version that did. */
  function OwnerBy(w: World, steps: seq<Step>, file: Id): Option<Owner> {
    if steps == [] || (file !in w.files && file !in w.retiredFiles) then None
    else if Last(steps).DoSubmit? && LastBringing(Last(steps).answers, file).Some?
    then Some(Owner(Last(steps).id, LastBringing(Last(steps).answers, file).value))
    else OwnerBy(w, Init(steps), file)
  }

  function OwnerOf(owners: map<Id, Owner>, file: Id): Option<Owner> {
    if file in owners then Some(owners[file]) else None
  }

  lemma {:induction false} ReownedIs(
    known: set<Id>, owners: map<Id, Owner>, id: Id, answers: seq<V.DtoAnswer>, k: nat, file: Id)
    requires k <= |answers|
    ensures var last := LastBringing(answers[..k], file);
            OwnerOf(Reowned(known, owners, id, answers, k), file) ==
            if file in known && last.Some? then Some(Owner(id, last.value)) else OwnerOf(owners, file)
  {
    if k > 0 {
      ReownedIs(known, owners, id, answers, k - 1, file);
      assert Init(answers[..k]) == answers[..k - 1] && Last(answers[..k]) == answers[k - 1];
    }
  }

  ghost predicate ContentFollows(w: World, s: State, created: seq<V.Question>, steps: seq<Step>) {
    && s.template == TemplateBy(created, steps)
    && forall file :: OwnerOf(s.owners, file) == OwnerBy(w, steps, file)
  }

  lemma ContentStep(w: World, s: State, step: Step, created: seq<V.Question>, steps: seq<Step>)
    requires ContentFollows(w, s, created, steps) && Respond(w, s, step).Done?
    ensures ContentFollows(w, Next(w, s, step), created, steps + [step])
  {
    Snoc(steps, step);
    ContentByKind(w, s, step);
    hide Respond, Next;
    var after := Next(w, s, step);
    forall file ensures OwnerOf(after.owners, file) == OwnerBy(w, steps + [step], file) {
      if step.DoSubmit? {
        ReownedIs(w.files.Keys + w.retiredFiles, s.owners, step.id, step.answers, |step.answers|, file);
        assert step.answers[..|step.answers|] == step.answers;
      }
    }
  }

  /** What an accepted step does to template and owners. */
  lemma ContentByKind(w: World, s: State, step: Step)
    requires Respond(w, s, step).Done?
    ensures var after := Next(w, s, step);
            && after.template == (if step.DoPutTemplate? then step.questions else s.template)
            && after.owners ==
               if step.DoSubmit?
               then Reowned(w.files.Keys + w.retiredFiles, s.owners, step.id, step.answers, |step.answers|)
               else s.owners
  {
    hide Derived, NewSubmission, Reowned, Accepts, ActiveUsers;
  }

  /** In every run template and attachments are what the accepted edits and submissions say. */
  lemma {:induction false} ContentFollowsHistory(w: World, t: Track, es: seq<Event>)
    requires Created(t) && Legal(w, t, es)
    ensures ContentFollows(w, After(w, t, es).s, t.s.template, Accepted(w, t, es))
  {
    hide Respond, Next, ContentFollows;
    if es == [] {
      assert ContentFollows(w, t.s, t.s.template, []) by { NoContentYet(w, t); }
    } else {
      ContentFollowsHistory(w, t, Init(es));
      var before, e := After(w, t, Init(es)), Last(es);
      if e.Does? && Respond(w, before.s, e.step).Done? {
        ContentStep(w, before.s, e.step, t.s.template, Accepted(w, t, Init(es)));
      } else {
        assert Accepted(w, t, Init(es)) + [] == Accepted(w, t, Init(es));
        if e.Does? {
          RefusedChangesNothing(w, before.s, e.step);
        }
      }
    }
  }

  lemma NoContentYet(w: World, t: Track)
    requires Created(t)
    ensures ContentFollows(w, t.s, t.s.template, [])
  {
  }

  /* ---------- The cached status ---------- */

  predicate HoldsSlot(s: State, user: Id) { user in s.slots && s.slots[user] }

  /** The user's highest-numbered active submission, and its state. */
  ghost predicate ShowsState(s: State, user: Id, state: SubmissionState) {
    exists id :: id in s.submissions && s.submissions[id].claimant == user && s.submissions[id].active
                 && s.submissions[id].state == state
                 && forall other | other in s.submissions ::
                      s.submissions[other].claimant == user && s.submissions[other].active ==>
                        s.submissions[other].no <= s.submissions[id].no
  }

  ghost predicate ShowsNothing(s: State, user: Id) {
    forall id | id in s.submissions :: s.submissions[id].claimant == user ==> !s.submissions[id].active
  }

  ghost predicate SomeSlot(s: State, state: SubmissionState) {
    exists u :: HoldsSlot(s, u) && ShowsState(s, u, state)
  }

  ghost predicate EverySlotSent(s: State) { forall u :: HoldsSlot(s, u) ==> !ShowsNothing(s, u) }

  lemma SlotShows(s: State, user: Id)
    requires UniqueNumbers(s.submissions)
    ensures SlotState(s.submissions, user) == None <==> ShowsNothing(s, user)
    ensures forall x :: SlotState(s.submissions, user) == Some(x) <==> ShowsState(s, user, x)
  {
    var latest := Latest(s.submissions, user, true);
    forall id | id in s.submissions && s.submissions[id].claimant == user && s.submissions[id].active
      ensures latest.Some?
    {
      assert Candidate(s.submissions, user, true, id);
      HighestExists(s.submissions, user, true, id, s.submissions.Keys);
    }
    forall x | ShowsState(s, user, x) ensures SlotState(s.submissions, user) == Some(x) {
      var id :| id in s.submissions && s.submissions[id].claimant == user && s.submissions[id].active
                && s.submissions[id].state == x
                && forall other | other in s.submissions ::
                     s.submissions[other].claimant == user && s.submissions[other].active ==>
                       s.submissions[other].no <= s.submissions[id].no;
      assert IsLatest(s.submissions, user, true, id);
      LatestUnique(s.submissions, user, true, id);
    }
  }

  /**
   * The derived status in words: open while a spot is free and claims are not closed; else claimed
   * while a held slot has no active submission; else the least advanced of revising, review and
   * approved that a slot shows, and claimed when all slots show rejected ones.
   */
  lemma DerivedMeans(s: State)
    requires UniqueNumbers(s.submissions)
    ensures var free := !s.closed && |set u | u in s.slots && s.slots[u]| < s.openings;
            var sent, revising := EverySlotSent(s), SomeSlot(s, SubmissionState.Revising);
            var review, approved := SomeSlot(s, SubmissionState.Review), SomeSlot(s, SubmissionState.Approved);
            && (Derived(s) == Open <==> free)
            && (Derived(s) == Status.Revising <==> !free && sent && revising)
            && (Derived(s) == Status.Review <==> !free && sent && !revising && review)
            && (Derived(s) == Status.Approved <==> !free && sent && !revising && !review && approved)
            && (Derived(s) == Claimed <==> !free && (!sent || (!revising && !review && !approved)))
  {
    var users := ActiveUsers(s.slots);
    var states := set u | u in users :: SlotState(s.submissions, u);
    assert users == set u | u in s.slots && s.slots[u];
    MinRuleCases(s.openings, s.closed, |users|, states);
    hide SlotState, ShowsState, ShowsNothing, MinRule, UniqueNumbers;
    forall u
      ensures SlotState(s.submissions, u) == None <==> ShowsNothing(s, u)
      ensures forall x :: SlotState(s.submissions, u) == Some(x) <==> ShowsState(s, u, x)
    {
      SlotShows(s, u);
    }
    StatesShown(s, users, states);
  }

  lemma MinRuleCases(openings: int, closed: bool, slots: nat, states: set<Option<SubmissionState>>)
    ensures var r, free, sent := MinRule(openings, closed, slots, states), !closed && slots < openings, None !in states;
            var revising := Some(SubmissionState.Revising) in states;
            var review := Some(SubmissionState.Review) in states;
            var approved := Some(SubmissionState.Approved) in states;
            && (r == Open <==> free)
            && (r == Status.Revising <==> !free && sent && revising)
            && (r == Status.Review <==> !free && sent && !revising && review)
            && (r == Status.Approved <==> !free && sent && !revising && !review && approved)
            && (r == Claimed <==> !free && (!sent || (!revising && !review && !approved)))
  {
  }

  lemma StatesShown(s: State, users: set<Id>, states: set<Option<SubmissionState>>)
    requires users == ActiveUsers(s.slots) && states == set u | u in users :: SlotState(s.submissions, u)
    requires forall u :: SlotState(s.submissions, u) == None <==> ShowsNothing(s, u)
    requires forall u, x :: SlotState(s.submissions, u) == Some(x) <==> ShowsState(s, u, x)
    ensures None in states <==> !EverySlotSent(s)
    ensures forall x :: Some(x) in states <==> SomeSlot(s, x)
  {
    hide SlotState, ShowsState, ShowsNothing;
    assert forall u :: u in users <==> HoldsSlot(s, u);
    forall x ensures Some(x) in states <==> SomeSlot(s, x) {
      if SomeSlot(s, x) {
        var u :| HoldsSlot(s, u) && ShowsState(s, u, x);
        assert SlotState(s.submissions, u) == Some(x);
      }
    }
  }

  /** In every run: the cached status is approved after a completion, and else what the rows show. */
  lemma StatusShowsSlots(w: World, t: Track, es: seq<Event>)
    requires Created(t) && Legal(w, t, es)
    ensures var s := After(w, t, es).s;
            && (ForcedAfter(w, t, es) ==> s.status == Status.Approved)
            && (!ForcedAfter(w, t, es) ==> s.status == Derived(s))
            && UniqueNumbers(s.submissions)
  {
    AlwaysInvariant(w, t, es);
    InvariantHas(After(w, t, es));
    ChainNumbers(After(w, t, es).s.submissions);
    StatusAgrees(w, t, es);
    hide Invariant, Derived, Chain;
    ForcedIsApproved(w, t, es);
    ForcedIsHistory(w, t, es);
  }

  lemma {:induction false} ForcedIsApproved(w: World, t: Track, es: seq<Event>)
    requires !t.forced && Legal(w, t, es)
    ensures After(w, t, es).forced ==> After(w, t, es).s.status == Status.Approved
  {
    if es != [] {
      ForcedIsApproved(w, t, Init(es));
      hide After;
      ForcedStep(w, After(w, t, Init(es)), Last(es));
    }
  }

  lemma CompleteApproves(w: World, s: State, step: Step)
    requires Respond(w, s, step).Done?
    ensures step.DoComplete? ==> Next(w, s, step).status == Status.Approved
    ensures !step.DoComplete? && !Recomputes(step) ==> Next(w, s, step).status == s.status
  {
    hide Submit, CommitReview, CommitClaim, Leave, ManageClaims, RetireSubmission;
  }

  lemma ForcedStep(w: World, t: Track, e: Event)
    requires Enabled(t, e) && (t.forced ==> t.s.status == Status.Approved)
    ensures Happen(w, t, e).forced ==> Happen(w, t, e).s.status == Status.Approved
  {
    hide Respond, Next;
    if e.Does? {
      if Respond(w, t.s, e.step).Done? {
        CompleteApproves(w, t.s, e.step);
      } else {
        RefusedChangesNothing(w, t.s, e.step);
      }
    }
  }

  /* ---------- What is refused, error by error ---------- */

  ghost predicate AwaitsReview(s: State, user: Id) {
    exists id :: id in s.submissions && s.submissions[id].claimant == user
                 && s.submissions[id].active && s.submissions[id].state != SubmissionState.Revising
                 && forall other | other in s.submissions ::
                      s.submissions[other].claimant == user ==> s.submissions[other].no <= s.submissions[id].no
  }

  /** Each error is answered in exactly these situations; everything else is accepted. */
  ghost predicate Answers(w: World, s: State, step: Step, error: Error) {
    match error
    case TaskRetired => !s.active && (step.DoLeave? || step.DoManage? || step.DoComplete? || step.DoSubmit?)
    case AlreadyClaimed => step.DoClaim? && HoldsSlot(s, step.user)
    case NoOpenings =>
      step.DoClaim? && !HoldsSlot(s, step.user) && |set u | u in s.slots && s.slots[u]| >= step.openingsRead
    case NotClaimed => s.active && (step.DoLeave? || step.DoSubmit?) && !HoldsSlot(s, step.user)
    case OpeningsLocked => s.active && step.DoManage? && step.delta.Some? && step.delta.value != 0 && step.locked
    case InvalidOpenings =>
      && s.active && step.DoManage? && step.delta.Some? && step.delta.value != 0 && !step.locked
      && (s.openings + step.delta.value < 0 || s.openings + step.delta.value < |set u | u in s.slots && s.slots[u]|)
    case InvalidSubmission => s.active && step.DoSubmit? && HoldsSlot(s, step.user) && !Accepts(w, s, step.answers)
    case AlreadySubmitted =>
      s.active && step.DoSubmit? && HoldsSlot(s, step.user) && Accepts(w, s, step.answers) && AwaitsReview(s, step.user)
    case StaleSubmission =>
      step.DoReview? && (step.id !in s.submissions || s.submissions[step.id].version != step.version)
    case SubmissionNotFound => step.DoRetireSubmission? && step.id !in s.submissions
    case AlreadyRetired =>
      || (step.DoRetireSubmission? && step.id in s.submissions && !s.submissions[step.id].active)
      || (step.DoRetireTask? && !s.active)
    case NotRevivable => step.DoReviveTask? && (s.active || !step.inWindow)
    case TemplateLocked => step.DoPutTemplate? && exists id <- s.submissions :: s.submissions[id].active
    case AnswersRemain =>
      && step.DoPutTemplate? && (forall id <- s.submissions :: !s.submissions[id].active)
      && exists id <- s.submissions :: exists a <- s.submissions[id].answers :: exists q <- s.template ::
           q.id == a.questionId
    case _ => false
  }

  lemma AwaitsIs(s: State, user: Id)
    requires UniqueNumbers(s.submissions)
    ensures var latest := Latest(s.submissions, user, false);
            AwaitsReview(s, user) <==>
            latest.Some? && s.submissions[latest.value].active
            && s.submissions[latest.value].state != SubmissionState.Revising
  {
    var latest := Latest(s.submissions, user, false);
    if AwaitsReview(s, user) {
      var id :| id in s.submissions && s.submissions[id].claimant == user
                && s.submissions[id].active && s.submissions[id].state != SubmissionState.Revising
                && forall other | other in s.submissions ::
                     s.submissions[other].claimant == user ==> s.submissions[other].no <= s.submissions[id].no;
      assert IsLatest(s.submissions, user, false, id);
      LatestUnique(s.submissions, user, false, id);
    }
  }

  lemma SlotRefusals(w: World, s: State, step: Step, error: Error)
    requires step.DoClaim? || step.DoLeave? || step.DoManage?
    ensures Respond(w, s, step) == Refused(error) <==> Answers(w, s, step, error)
  {
    hide Derived, Submit, CommitReview, RetireSubmission, PutTemplate;
    assert ActiveUsers(s.slots) == set u | u in s.slots && s.slots[u];
  }

  lemma SubmitRefusals(w: World, s: State, step: Step, error: Error)
    requires step.DoSubmit? && UniqueNumbers(s.submissions)
    ensures Respond(w, s, step) == Refused(error) <==> Answers(w, s, step, error)
  {
    AwaitsIs(s, step.user);
    hide Derived, NewSubmission, Reowned, Accepts, AwaitsReview, UniqueNumbers, Latest;
  }

  lemma RowRefusals(w: World, s: State, step: Step, error: Error)
    requires step.DoReview? || step.DoRetireSubmission? || step.DoPutTemplate?
    ensures Respond(w, s, step) == Refused(error) <==> Answers(w, s, step, error)
  {
    hide Derived, Submit, CommitClaim, Leave, ManageClaims;
  }

  lemma TaskRefusals(w: World, s: State, step: Step, error: Error)
    requires step.DoComplete? || step.DoRetireTask? || step.DoReviveTask?
    ensures Respond(w, s, step) == Refused(error) <==> Answers(w, s, step, error)
  {
  }

  lemma RefusedExactly(w: World, s: State, step: Step, error: Error)
    requires UniqueNumbers(s.submissions)
    ensures Respond(w, s, step) == Refused(error) <==> Answers(w, s, step, error)
  {
    hide *;
    if step.DoClaim? || step.DoLeave? || step.DoManage? {
      SlotRefusals(w, s, step, error);
    } else if step.DoSubmit? {
      SubmitRefusals(w, s, step, error);
    } else if step.DoReview? || step.DoRetireSubmission? || step.DoPutTemplate? {
      RowRefusals(w, s, step, error);
    } else {
      TaskRefusals(w, s, step, error);
    }
  }

  /** The unlocked reads: what a claim needs of the task, and a review of its submission. */
  lemma ReadsRefusedExactly(s: State, id: Id)
    ensures ReadClaim(s).0 == (if s.active && !s.closed then Some(s.openings) else None)
    ensures ReadClaim(s).1 == Some(TaskRetired) <==> !s.active
    ensures ReadClaim(s).1 == Some(ClaimsClosed) <==> s.active && s.closed
    ensures ReadReview(s, id).1 == Some(SubmissionNotFound) <==> id !in s.submissions
    ensures ReadReview(s, id).1 == Some(SubmissionRetired) <==> id in s.submissions && !s.submissions[id].active
    ensures ReadReview(s, id).1 == Some(InvalidTransition) <==>
              id in s.submissions && s.submissions[id].active && s.submissions[id].state != SubmissionState.Review
    ensures ReadReview(s, id).0 ==
            if id in s.submissions && s.submissions[id].active && s.submissions[id].state == SubmissionState.Review
            then Some(s.submissions[id].version) else None
  {
  }
}
