/** What every run of a task guarantees. */
module TaskResults {
  import opened Common
  import opened TaskStatus
  import opened TaskLifecycle
  import opened TaskRuns
  import V = Validator

  /* ---------- Submission numbers and the chain ---------- */

  ghost predicate HasNumber(subs: map<Id, Submission>, claimant: Id, n: int) {
    exists id :: id in subs && subs[id].claimant == claimant && subs[id].no == n
  }

  lemma {:induction false} LowerNumbers(subs: map<Id, Submission>, claimant: Id, n: int, m: int)
    requires Chain(subs) && HasNumber(subs, claimant, n) && 1 <= m <= n
    ensures HasNumber(subs, claimant, m)
    decreases n - m
  {
    if m < n {
      LowerNumbers(subs, claimant, n, m + 1);
      var id :| id in subs && subs[id].claimant == claimant && subs[id].no == m + 1;
      assert HasPredecessor(subs, id);
    }
  }

  /**
   * In every reachable task, for every claimant with a submission: the numbers in use are exactly
   * 1..k, each used once; at most one active version is undecided, approved or rejected, and it is
   * number k; a version names as its predecessor only the returned version numbered one lower.
   */
  lemma SubmissionChain(w: World, t: Track, es: seq<Event>, claimant: Id, some: Id) returns (k: int)
    requires Created(t) && Legal(w, t, es)
    requires var subs := After(w, t, es).s.submissions; some in subs && subs[some].claimant == claimant
    ensures var subs := After(w, t, es).s.submissions;
            && (forall n :: HasNumber(subs, claimant, n) <==> 1 <= n <= k)
            && (forall a, b | Same(subs, a, b) :: subs[a].no == subs[b].no ==> a == b)
            && (forall a | a in subs && subs[a].claimant == claimant ::
                  subs[a].active && subs[a].state != SubmissionState.Revising ==> subs[a].no == k)
            && (forall a | a in subs && subs[a].prev.Some? ::
                  var p := subs[a].prev.value;
                  Same(subs, a, p) && subs[p].no == subs[a].no - 1 && subs[p].state == SubmissionState.Revising)
  {
    AlwaysInvariant(w, t, es);
    var subs := After(w, t, es).s.submissions;
    assert Candidate(subs, claimant, false, some);
    NoneHasNoCandidate(subs, claimant, some);
    var top := Latest(subs, claimant, false).value;
    k := subs[top].no;
    forall n ensures HasNumber(subs, claimant, n) <==> 1 <= n <= k {
      if HasNumber(subs, claimant, n) {
        var id :| id in subs && subs[id].claimant == claimant && subs[id].no == n;
        assert Candidate(subs, claimant, false, id);
      }
      if 1 <= n <= k {
        LowerNumbers(subs, claimant, k, n);
      }
    }
    forall a | a in subs && subs[a].claimant == claimant && subs[a].active && subs[a].state != SubmissionState.Revising
      ensures subs[a].no == k
    {
      assert Candidate(subs, claimant, false, a);
      assert Same(subs, a, top);
    }
    forall a | a in subs ensures PrevReturned(subs, a) {}
  }

  /** What a row never loses: its identity, and its decision once it has one. */
  ghost predicate Settled(before: map<Id, Submission>, after: map<Id, Submission>) {
    forall id | id in before ::
      && id in after
      && after[id] == before[id].(state := after[id].state, active := after[id].active, version := after[id].version)
      && after[id].version >= before[id].version
      && (before[id].state != SubmissionState.Review ==> after[id].state == before[id].state)
      && (!before[id].active ==> !after[id].active)
  }

  lemma StepSettles(w: World, t: Track, e: Event)
    requires TicketsHonest(t) && Enabled(t, e)
    ensures Settled(t.s.submissions, Happen(w, t, e).s.submissions)
  {
    hide Respond, Next, NewSubmission;
    if e.Does? {
      RowsAre(w, t.s, e.step);
      if Respond(w, t.s, e.step).Done? {
        StepConditions(w, t.s, e.step);
        if e.step.DoReview? {
          assert (e.step.id, e.step.version) in t.reviews;
        }
      }
    }
  }

  /**
   * A decision is for ever, and so is a retirement: over any continuation of a run no row is
   * deleted or renumbered, no decided row changes state and no retired row comes back.
   */
  lemma {:induction false} DecisionsAreFinal(w: World, t: Track, es: seq<Event>, more: seq<Event>)
    requires Created(t) && Legal(w, t, es + more)
    ensures Legal(w, t, es)
    ensures Settled(After(w, t, es).s.submissions, After(w, t, es + more).s.submissions)
  {
    hide Happen, Enabled, Settled, Invariant;
    if more == [] {
      assert es + more == es;
      assert Settled(After(w, t, es).s.submissions, After(w, t, es).s.submissions)
             by { SettledReflexive(After(w, t, es).s.submissions); }
    } else {
      assert Init(es + more) == es + Init(more) && Last(es + more) == Last(more);
      DecisionsAreFinal(w, t, es, Init(more));
      var before := After(w, t, es + Init(more));
      AlwaysInvariant(w, t, es + Init(more));
      assert TicketsHonest(before) by { InvariantHas(before); }
      StepSettles(w, before, Last(more));
      SettledTransitive(After(w, t, es).s.submissions, before.s.submissions, After(w, t, es + more).s.submissions);
    }
  }

  lemma InvariantHas(t: Track)
    requires Invariant(t)
    ensures TicketsHonest(t) && Chain(t.s.submissions) && DecidedOnce(t) && StatusCurrent(t)
  {
  }

  lemma SettledReflexive(a: map<Id, Submission>)
    ensures Settled(a, a)
  {
  }

  lemma SettledTransitive(a: map<Id, Submission>, b: map<Id, Submission>, c: map<Id, Submission>)
    requires Settled(a, b) && Settled(b, c)
    ensures Settled(a, c)
  {
  }

  /* ---------- Exactly one decision ---------- */

  /** The submissions that the accepted review commits of a run decided, in order. */
  ghost function Decisions(w: World, t: Track, es: seq<Event>): seq<Id>
    requires Legal(w, t, es)
  {
    if es == [] then []
    else
      var before, e := After(w, t, Init(es)), Last(es);
      Decisions(w, t, Init(es))
      + if e.Does? && e.step.DoReview? && Respond(w, before.s, e.step).Done? then [e.step.id] else []
  }

  lemma {:induction false} DecidedIsHistory(w: World, t: Track, es: seq<Event>)
    requires t.decided == [] && Legal(w, t, es)
    ensures After(w, t, es).decided == Decisions(w, t, es)
  {
    hide Respond, Next;
    if es != [] {
      DecidedIsHistory(w, t, Init(es));
    }
  }

  /**
   * However reviews, retirements and submits interleave, no submission is decided twice, and a
   * review that is accepted finds its submission active and in review at that very moment.
   */
  lemma ExactlyOneDecision(w: World, t: Track, es: seq<Event>)
    requires Created(t) && Legal(w, t, es)
    ensures var ds := Decisions(w, t, es); forall i, j :: 0 <= i < j < |ds| ==> ds[i] != ds[j]
    ensures forall e: Event | e.Does? && e.step.DoReview? && Enabled(After(w, t, es), e) ::
              var s := After(w, t, es).s;
              Respond(w, s, e.step).Done? ==>
                && e.step.id in s.submissions && s.submissions[e.step.id].active
                && s.submissions[e.step.id].state == SubmissionState.Review
                && e.step.id !in Decisions(w, t, es)
  {
    AlwaysInvariant(w, t, es);
    DecidedIsHistory(w, t, es);
    var now := After(w, t, es);
    forall e: Event | e.Does? && e.step.DoReview? && Enabled(now, e) && Respond(w, now.s, e.step).Done?
      ensures && e.step.id in now.s.submissions && now.s.submissions[e.step.id].active
              && now.s.submissions[e.step.id].state == SubmissionState.Review
              && e.step.id !in now.decided
    {
      assert (e.step.id, e.step.version) in now.reviews;
      StepConditions(w, now.s, e.step);
    }
  }

  /* ---------- The derived status ---------- */

  /** `complete` was accepted in the run, and no recompute has happened since. */
  ghost predicate ForcedAfter(w: World, t: Track, es: seq<Event>)
    requires Legal(w, t, es)
  {
    es != [] &&
    var before, e := After(w, t, Init(es)), Last(es);
    if e.Does? && Respond(w, before.s, e.step).Done? && (e.step.DoComplete? || Recomputes(e.step))
    then e.step.DoComplete?
    else ForcedAfter(w, t, Init(es))
  }

  lemma {:induction false} ForcedIsHistory(w: World, t: Track, es: seq<Event>)
    requires !t.forced && Legal(w, t, es)
    ensures After(w, t, es).forced == ForcedAfter(w, t, es)
  {
    hide Respond, Next;
    if es != [] {
      ForcedIsHistory(w, t, Init(es));
    }
  }

  /**
   * In every reachable task the cached status is the min-rule over the current slots, unless the
   * last thing to write it was a manual completion.
   */
  lemma StatusAgrees(w: World, t: Track, es: seq<Event>)
    requires Created(t) && Legal(w, t, es)
    ensures ForcedAfter(w, t, es) || After(w, t, es).s.status == Derived(After(w, t, es).s)
  {
    AlwaysInvariant(w, t, es);
    ForcedIsHistory(w, t, es);
  }

  /* ---------- The ledger of a run ---------- */

  /** The steps of a run that were accepted, in order. */
  ghost function Accepted(w: World, t: Track, es: seq<Event>): seq<Step>
    requires Legal(w, t, es)
  {
    if es == [] then []
    else
      var before, e := After(w, t, Init(es)), Last(es);
      Accepted(w, t, Init(es)) + if e.Does? && Respond(w, before.s, e.step).Done? then [e.step] else []
  }

  /** The opening count: what the task was created with and every accepted change. */
  function OpeningsBy(created: int, steps: seq<Step>): int {
    if steps == [] then created
    else
      OpeningsBy(created, Init(steps))
      + if Last(steps).DoManage? && Last(steps).delta.Some? then Last(steps).delta.value else 0
  }

  /** Closed, as the last accepted request about it said. */
  function ClosedBy(steps: seq<Step>): bool {
    if steps == [] then false
    else if Last(steps).DoManage? && Last(steps).closed.Some? then Last(steps).closed.value
    else ClosedBy(Init(steps))
  }

  /** A slot is held if the user's last accepted claim came after the last accepted departure. */
  predicate HeldBy(steps: seq<Step>, user: Id) {
    steps != [] &&
    if Last(steps).DoClaim? && Last(steps).user == user then true
    else if Last(steps).DoLeave? && Last(steps).user == user then false
    else HeldBy(Init(steps), user)
  }

  predicate ActiveBy(steps: seq<Step>) {
    steps == [] ||
    if Last(steps).DoRetireTask? then false else if Last(steps).DoReviveTask? then true else ActiveBy(Init(steps))
  }

  ghost predicate Tallied(s: State, created: int, steps: seq<Step>) {
    && s.openings == OpeningsBy(created, steps)
    && s.closed == ClosedBy(steps)
    && s.active == ActiveBy(steps)
    && forall u :: u in ActiveUsers(s.slots) <==> HeldBy(steps, u)
  }

  lemma StepTallied(w: World, s: State, step: Step, created: int, steps: seq<Step>)
    requires Tallied(s, created, steps) && Respond(w, s, step).Done?
    ensures Tallied(Next(w, s, step), created, steps + [step])
  {
    hide Derived, NewSubmission, Accepts, Reowned, Latest;
    assert Init(steps + [step]) == steps && Last(steps + [step]) == step;
    forall u ensures u in ActiveUsers(Next(w, s, step).slots) <==> HeldBy(steps + [step], u) {
      if step.DoClaim? {
        SlotsAfter(s.slots, step.user, true);
      } else if step.DoLeave? {
        SlotsAfter(s.slots, step.user, false);
      }
    }
  }

  /**
   * In every run the openings, the closed flag, the held slots and the task's own lifecycle are
   * exactly what the accepted steps add up to.
   */
  lemma {:induction false} RowsFollowHistory(w: World, t: Track, es: seq<Event>)
    requires Created(t) && Legal(w, t, es)
    ensures Tallied(After(w, t, es).s, t.s.openings, Accepted(w, t, es))
  {
    hide Respond, Next, Tallied;
    if es == [] {
      assert Tallied(t.s, t.s.openings, []) by { NothingTallied(t); }
    } else {
      RowsFollowHistory(w, t, Init(es));
      var before, e := After(w, t, Init(es)), Last(es);
      if e.Does? && Respond(w, before.s, e.step).Done? {
        StepTallied(w, before.s, e.step, t.s.openings, Accepted(w, t, Init(es)));
      } else {
        assert Accepted(w, t, Init(es)) + [] == Accepted(w, t, Init(es));
        if e.Does? {
          RefusedChangesNothing(w, before.s, e.step);
        }
      }
    }
  }

  lemma NothingTallied(t: Track)
    requires Created(t)
    ensures Tallied(t.s, t.s.openings, [])
  {
    assert ActiveUsers(map[]) == {};
  }

  lemma RefusedChangesNothing(w: World, s: State, step: Step)
    requires !Respond(w, s, step).Done?
    ensures Next(w, s, step) == s
  {
    hide Respond;
  }

  /* ---------- Capacity ---------- */

  ghost predicate WithinCapacity(s: State) { |ActiveUsers(s.slots)| <= s.openings }

  /** No claim that has read, but not yet committed, read more openings than there are. */
  ghost predicate NoStaleClaim(t: Track) { forall r | r in t.claims :: r <= t.s.openings }

  /** Along the run the openings are never lowered below what an uncommitted claim has read. */
  ghost predicate Unraced(w: World, t: Track, es: seq<Event>)
    requires Legal(w, t, es)
  {
    es != [] ==> Unraced(w, t, Init(es)) && NoStaleClaim(After(w, t, es))
  }

  lemma SlotsAfter(slots: map<Id, bool>, user: Id, held: bool)
    ensures ActiveUsers(slots[user := held]) ==
            if held then ActiveUsers(slots) + {user} else ActiveUsers(slots) - {user}
  {
  }

  lemma CapacityStep(w: World, t: Track, e: Event)
    requires Enabled(t, e) && WithinCapacity(t.s) && NoStaleClaim(t)
    ensures WithinCapacity(Happen(w, t, e).s)
  {
    hide Derived, NewSubmission, Accepts, Reowned, Latest, ActiveUsers;
    if e.Does? {
      var after := Next(w, t.s, e.step);
      match e.step
      case DoClaim(user, r) => SlotsAfter(t.s.slots, user, true);
      case DoLeave(user) => SlotsAfter(t.s.slots, user, false);
      case DoManage(_, _, _) =>
      case _ => assert after.slots == t.s.slots && after.openings == t.s.openings;
    }
  }

  /** Capacity holds throughout a run in which no claim races a lowering of the openings. */
  lemma {:induction false} Capacity(w: World, t: Track, es: seq<Event>)
    requires Created(t) && Legal(w, t, es) && Unraced(w, t, es)
    ensures WithinCapacity(After(w, t, es).s)
  {
    hide Happen, Enabled;
    if es == [] {
      assert ActiveUsers(map[]) == {};
    } else {
      Capacity(w, t, Init(es));
      assert NoStaleClaim(After(w, t, Init(es))) by {
        if Init(es) == [] {
        }
      }
      CapacityStep(w, After(w, t, Init(es)), Last(es));
    }
  }

  /**
   * One commit, exactly: a claim by a user without a slot keeps the task within its openings
   * unless the slots are all taken now and the openings it read were more than there are now.
   */
  lemma ClaimKeepsCapacityIff(w: World, s: State, user: Id, openingsRead: int)
    requires WithinCapacity(s) && user !in ActiveUsers(s.slots)
    ensures WithinCapacity(Next(w, s, DoClaim(user, openingsRead))) <==>
            !(|ActiveUsers(s.slots)| == s.openings < openingsRead)
  {
    hide Derived;
    SlotsAfter(s.slots, user, true);
  }

  lemma Extended(w: World, t: Track, es: seq<Event>, e: Event)
    requires Legal(w, t, es) && Enabled(After(w, t, es), e)
    ensures Legal(w, t, es + [e]) && After(w, t, es + [e]) == Happen(w, After(w, t, es), e)
  {
  }

  lemma LoweringOpenings(s: State)
    requires s.active && s.openings == 1 && s.slots == map[]
    ensures var after := ManageClaims(s, Some(-1), None, false);
            after.Done? && after.state.openings == 0 && after.state.slots == map[]
  {
  }

  lemma FirstClaim(s: State, user: Id)
    requires s.slots == map[] && s.openings == 0
    ensures var after := CommitClaim(s, user, 1);
            after.Done? && !WithinCapacity(after.state)
  {
  }

  /** The race is reachable: a claim reads one opening, the requester lowers it to none, the claim commits. */
  lemma CapacityCanBreak(w: World, user: Id) returns (t: Track, es: seq<Event>)
    ensures Created(t) && Legal(w, t, es)
    ensures !WithinCapacity(After(w, t, es).s)
  {
    t := Track(State(true, 1, false, Open, map[], map[], [], map[]), false, multiset{}, {}, []);
    var look, lower, claim := ReadsClaim, Does(DoManage(Some(-1), None, false)), Does(DoClaim(user, 1));
    es := [look, lower, claim];
    hide CommitClaim, ManageClaims, WithinCapacity, Legal, After;
    assert Legal(w, t, []) && After(w, t, []) == t by { NoEvents(w, t); }
    Extended(w, t, [], look);
    var t1 := After(w, t, [] + [look]);
    Extended(w, t, [] + [look], lower);
    LoweringOpenings(t1.s);
    var t2 := After(w, t, [] + [look] + [lower]);
    Extended(w, t, [] + [look] + [lower], claim);
    FirstClaim(t2.s, user);
    assert [] + [look] + [lower] + [claim] == es;
  }

  lemma NoEvents(w: World, t: Track)
    ensures Legal(w, t, []) && After(w, t, []) == t
  {
  }
}
