/**
 * Runs of a task: every interleaving of the services' transactions, with the unlocked reads of
 * claims and reviews as events of their own.
 */
module TaskRuns {
  import opened Common
  import opened TaskStatus
  import opened TaskLifecycle
  import V = Validator

  /**
   * A task together with what the run has seen: whether `complete` ran since the last recompute,
   * the claims and reviews that have read but not committed, and the submissions decided so far.
   */
  datatype Track = Track(
    s: State, forced: bool, claims: multiset<int>, reviews: set<(Id, nat)>, decided: seq<Id>)

  datatype Event = ReadsClaim | ReadsReview(id: Id) | Does(step: Step)

  /** What the services guarantee about the steps they take. */
  ghost predicate Enabled(t: Track, e: Event) {
    match e
    case ReadsClaim => true
    case ReadsReview(_) => true
    case Does(DoClaim(_, openingsRead)) => openingsRead in t.claims
    case Does(DoReview(id, version, _)) => (id, version) in t.reviews
    case Does(DoSubmit(_, _, id)) => id !in t.s.submissions
    case Does(DoPutTemplate(questions)) => V.DistinctQuestions(questions)
    case Does(_) => true
  }

  predicate Recomputes(step: Step) {
    step.DoClaim? || step.DoLeave? || step.DoManage? || step.DoSubmit? || step.DoReview? || step.DoRetireSubmission?
  }

  ghost function Happen(w: World, t: Track, e: Event): Track
    requires Enabled(t, e)
  {
    match e
    case ReadsClaim =>
      var (openings, _) := ReadClaim(t.s);
      if openings.Some? then t.(claims := t.claims + multiset{openings.value}) else t
    case ReadsReview(id) =>
      var (version, _) := ReadReview(t.s, id);
      if version.Some? then t.(reviews := t.reviews + {(id, version.value)}) else t
    case Does(step) =>
      var done := Respond(w, t.s, step).Done?;
      Track(
        Next(w, t.s, step),
        if done && step.DoComplete? then true else if done && Recomputes(step) then false else t.forced,
        if step.DoClaim? then t.claims - multiset{step.openingsRead} else t.claims,
        t.reviews,
        if done && step.DoReview? then t.decided + [step.id] else t.decided)
  }

  ghost predicate Legal(w: World, t: Track, es: seq<Event>)
    decreases |es|, 0
  {
    es == [] || (Legal(w, t, Init(es)) && Enabled(After(w, t, Init(es)), Last(es)))
  }

  ghost function After(w: World, t: Track, es: seq<Event>): Track
    requires Legal(w, t, es)
    decreases |es|, 1
  {
    if es == [] then t else Happen(w, After(w, t, Init(es)), Last(es))
  }

  /** A task as `create` leaves it. */
  ghost predicate Created(t: Track) {
    && t.s.openings >= 0 && V.DistinctQuestions(t.s.template)
    && t == Track(
         State(true, t.s.openings, false, ComputeStatusCache(0, t.s.openings, false), map[], map[], t.s.template,
             map[]),
         false, multiset{}, {}, [])
  }

  /* ---------- The submission chain ---------- */

  ghost predicate Same(subs: map<Id, Submission>, a: Id, b: Id) {
    a in subs && b in subs && subs[a].claimant == subs[b].claimant
  }

  ghost predicate HasPredecessor(subs: map<Id, Submission>, id: Id)
    requires id in subs
  {
    subs[id].no > 1 ==> exists b :: Same(subs, id, b) && subs[b].no == subs[id].no - 1
  }

  ghost predicate PrevReturned(subs: map<Id, Submission>, id: Id)
    requires id in subs
  {
    subs[id].prev.Some? ==>
      var p := subs[id].prev.value;
      Same(subs, id, p) && subs[p].no == subs[id].no - 1 && subs[p].state == SubmissionState.Revising
  }

  /** Numbers are dense and unique per claimant, and only the newest version may be undecided. */
  ghost predicate Chain(subs: map<Id, Submission>) {
    && UniqueNumbers(subs)
    && (forall id | id in subs :: subs[id].no >= 1 && HasPredecessor(subs, id) && PrevReturned(subs, id))
    && (forall a, b | Same(subs, a, b) ::
          subs[a].active && subs[a].no < subs[b].no ==> subs[a].state == SubmissionState.Revising)
  }

  /** The claimant's rows lie below the new one, and the latest of them is directly below it. */
  ghost predicate Tops(subs: map<Id, Submission>, row: Submission) {
    && (forall b | b in subs && subs[b].claimant == row.claimant :: subs[b].no < row.no)
    && (row.no == 1 || exists b :: b in subs && subs[b].claimant == row.claimant && subs[b].no == row.no - 1)
    && row.no >= 1
  }

  lemma NewSubmissionTops(s: State, user: Id, answers: seq<V.DtoAnswer>)
    requires forall b | b in s.submissions :: s.submissions[b].no >= 1
    ensures Tops(s.submissions, NewSubmission(s, user, answers))
  {
    var subs, latest := s.submissions, Latest(s.submissions, user, false);
    forall b | b in subs && subs[b].claimant == user
      ensures latest.Some? && subs[b].no <= subs[latest.value].no
    {
      assert Candidate(subs, user, false, b);
      NoneHasNoCandidate(subs, user, b);
    }
    if latest.Some? {
      assert subs[latest.value].claimant == user;
    }
  }

  /** A new row may follow the rows below it once the active ones have been returned. */
  ghost predicate Follows(subs: map<Id, Submission>, row: Submission) {
    && Tops(subs, row)
    && (forall a | a in subs && subs[a].claimant == row.claimant && subs[a].active ::
       subs[a].state == SubmissionState.Revising)
    && (row.prev.Some? ==>
          && row.prev.value in subs && subs[row.prev.value].claimant == row.claimant
          && subs[row.prev.value].no == row.no - 1 && subs[row.prev.value].state == SubmissionState.Revising)
  }

  lemma InsertKeepsRow(subs: map<Id, Submission>, id: Id, row: Submission, r: Id)
    requires id !in subs && r in subs && HasPredecessor(subs, r) && PrevReturned(subs, r)
    ensures HasPredecessor(subs[id := row], r) && PrevReturned(subs[id := row], r)
  {
    var after := subs[id := row];
    if subs[r].no > 1 {
      var b :| Same(subs, r, b) && subs[b].no == subs[r].no - 1;
      assert Same(after, r, b);
    }
  }

  lemma InsertedRow(subs: map<Id, Submission>, id: Id, row: Submission)
    requires id !in subs && Follows(subs, row)
    ensures HasPredecessor(subs[id := row], id) && PrevReturned(subs[id := row], id)
  {
    if row.no > 1 {
      var b :| b in subs && subs[b].claimant == row.claimant && subs[b].no == row.no - 1;
      assert Same(subs[id := row], id, b);
    }
  }

  lemma ChainInsert(subs: map<Id, Submission>, id: Id, row: Submission)
    requires Chain(subs) && id !in subs && Follows(subs, row)
    ensures Chain(subs[id := row])
  {
    hide HasPredecessor, PrevReturned;
    var after := subs[id := row];
    forall r | r in after ensures after[r].no >= 1 && HasPredecessor(after, r) && PrevReturned(after, r) {
      if r == id {
        InsertedRow(subs, id, row);
      } else {
        InsertKeepsRow(subs, id, row, r);
      }
    }
    forall a, b | Same(after, a, b) && after[a].active && after[a].no < after[b].no
      ensures after[a].state == SubmissionState.Revising
    {
      if a != id && b != id {
        assert Same(subs, a, b);
      }
    }
  }

  /** When a submit is accepted every active version of the claimant has been returned. */
  lemma LatestReturned(s: State, user: Id)
    requires Chain(s.submissions)
    requires var latest := Latest(s.submissions, user, false);
             latest.Some? && s.submissions[latest.value].active ==>
               s.submissions[latest.value].state == SubmissionState.Revising
    ensures forall a | a in s.submissions && s.submissions[a].claimant == user && s.submissions[a].active ::
              s.submissions[a].state == SubmissionState.Revising
  {
    var subs, latest := s.submissions, Latest(s.submissions, user, false);
    forall a | a in subs && subs[a].claimant == user && subs[a].active
      ensures subs[a].state == SubmissionState.Revising
    {
      assert Candidate(subs, user, false, a);
      NoneHasNoCandidate(subs, user, a);
      assert Same(subs, a, latest.value);
    }
  }

  lemma ChainSubmit(s: State, user: Id, answers: seq<V.DtoAnswer>, id: Id)
    requires Chain(s.submissions) && id !in s.submissions
    requires var latest := Latest(s.submissions, user, false);
             latest.Some? && s.submissions[latest.value].active ==>
               s.submissions[latest.value].state == SubmissionState.Revising
    ensures Chain(s.submissions[id := NewSubmission(s, user, answers)])
  {
    var latest := Latest(s.submissions, user, false);
    NewSubmissionTops(s, user, answers);
    LatestReturned(s, user);
    assert latest.Some? ==> Candidate(s.submissions, user, false, latest.value);
    hide Chain, Tops;
    ChainInsert(s.submissions, id, NewSubmission(s, user, answers));
  }

  /** A row that is decided out of review, or retired, with its identity unchanged. */
  ghost predicate Amends(before: Submission, row: Submission) {
    && row == before.(state := row.state, active := row.active, version := row.version)
    && ((row.state == before.state && !row.active)
       || (before.active && row.active && before.state == SubmissionState.Review))
  }

  lemma UpdateKeepsRow(subs: map<Id, Submission>, id: Id, row: Submission, r: Id)
    requires id in subs && Amends(subs[id], row) && r in subs && HasPredecessor(subs, r) && PrevReturned(subs, r)
    ensures HasPredecessor(subs[id := row], r) && PrevReturned(subs[id := row], r)
  {
    var after := subs[id := row];
    if subs[r].no > 1 {
      var b :| Same(subs, r, b) && subs[b].no == subs[r].no - 1;
      assert Same(after, r, b);
    }
  }

  lemma ChainUpdate(subs: map<Id, Submission>, id: Id, row: Submission)
    requires Chain(subs) && id in subs && Amends(subs[id], row)
    ensures Chain(subs[id := row])
  {
    hide HasPredecessor, PrevReturned;
    var after := subs[id := row];
    forall r | r in after ensures after[r].no >= 1 && HasPredecessor(after, r) && PrevReturned(after, r) {
      UpdateKeepsRow(subs, id, row, r);
    }
    forall a, b | Same(after, a, b) && after[a].active && after[a].no < after[b].no
      ensures after[a].state == SubmissionState.Revising
    {
      assert Same(subs, a, b);
    }
  }

  /* ---------- The invariant of every run ---------- */

  /** A reviewer's ticket is of a current version only while its row can still be decided. */
  ghost predicate TicketsHonest(t: Track) {
    forall ticket | ticket in t.reviews ::
      && ticket.0 in t.s.submissions
      && var row := t.s.submissions[ticket.0];
      ticket.1 <= row.version && (ticket.1 == row.version ==> row.active && row.state == SubmissionState.Review)
  }

  ghost predicate DecidedOnce(t: Track) {
    && (forall i, j :: 0 <= i < j < |t.decided| ==> t.decided[i] != t.decided[j])
    && (forall id <- t.decided :: id in t.s.submissions && t.s.submissions[id].state != SubmissionState.Review)
  }

  ghost predicate StatusCurrent(t: Track) { t.forced || t.s.status == Derived(t.s) }

  ghost predicate Invariant(t: Track) {
    Chain(t.s.submissions) && TicketsHonest(t) && DecidedOnce(t) && StatusCurrent(t)
  }

  lemma CreatedInvariant(t: Track)
    requires Created(t)
    ensures Invariant(t)
  {
  }

  /** The submission rows after an accepted step. */
  ghost function Rows(w: World, s: State, step: Step): map<Id, Submission> {
    if !Respond(w, s, step).Done? then s.submissions
    else
      match step
      case DoSubmit(user, answers, id) => s.submissions[id := NewSubmission(s, user, answers)]
      case DoReview(id, version, decision) =>
        if id in s.submissions
        then s.submissions[id := s.submissions[id].(state := decision.Outcome(), version := version + 1)]
        else s.submissions
      case DoRetireSubmission(id) =>
        if id in s.submissions
        then s.submissions[id := s.submissions[id].(active := false, version := s.submissions[id].version + 1)]
        else s.submissions
      case _ => s.submissions
  }

  lemma RowsAre(w: World, s: State, step: Step)
    ensures Next(w, s, step).submissions == Rows(w, s, step)
  {
  }

  /** What lets a step change the rows. */
  lemma StepConditions(w: World, s: State, step: Step)
    requires Respond(w, s, step).Done?
    ensures step.DoReview? ==> step.id in s.submissions && s.submissions[step.id].version == step.version
    ensures step.DoRetireSubmission? ==> step.id in s.submissions && s.submissions[step.id].active
    ensures step.DoSubmit? ==>
              var latest := Latest(s.submissions, step.user, false);
              latest.Some? && s.submissions[latest.value].active ==>
                s.submissions[latest.value].state == SubmissionState.Revising
  {
  }

  lemma KeepsChain(w: World, t: Track, e: Event)
    requires Chain(t.s.submissions) && TicketsHonest(t) && Enabled(t, e)
    ensures Chain(Happen(w, t, e).s.submissions)
  {
    hide Chain, Respond, Next;
    if e.Does? {
      var step := e.step;
      RowsAre(w, t.s, step);
      if Respond(w, t.s, step).Done? {
        StepConditions(w, t.s, step);
        if step.DoSubmit? {
          ChainSubmit(t.s, step.user, step.answers, step.id);
        } else if step.DoReview? {
          assert (step.id, step.version) in t.reviews;
          ChainUpdate(t.s.submissions, step.id, Rows(w, t.s, step)[step.id]);
        } else if step.DoRetireSubmission? {
          ChainUpdate(t.s.submissions, step.id, Rows(w, t.s, step)[step.id]);
        }
      }
    }
  }

  /** Rows persist, and a row that changes moves to a higher version. */
  ghost predicate Moves(before: map<Id, Submission>, after: map<Id, Submission>) {
    forall id | id in before ::
      && id in after
      && (after[id] == before[id] || after[id].version > before[id].version)
      && (before[id].state != SubmissionState.Review ==> after[id].state == before[id].state)
  }

  lemma StepMoves(w: World, t: Track, e: Event)
    requires TicketsHonest(t) && Enabled(t, e)
    ensures Moves(t.s.submissions, Happen(w, t, e).s.submissions)
  {
    hide Respond, Next, NewSubmission;
    if e.Does? {
      RowsAre(w, t.s, e.step);
      if Respond(w, t.s, e.step).Done? {
        StepConditions(w, t.s, e.step);
        if e.step.DoReview? {
          assert (e.step.id, e.step.version) in t.reviews;
        }
      }
    }
  }

  lemma KeepsTickets(w: World, t: Track, e: Event)
    requires TicketsHonest(t) && Enabled(t, e)
    ensures TicketsHonest(Happen(w, t, e))
  {
    StepMoves(w, t, e);
    hide Respond, Next;
    var after := Happen(w, t, e);
    forall ticket | ticket in after.reviews
      ensures && ticket.0 in after.s.submissions
              && var row := after.s.submissions[ticket.0];
              ticket.1 <= row.version && (ticket.1 == row.version ==> row.active && row.state == SubmissionState.Review)
    {
      if ticket in t.reviews {
        assert ticket.0 in t.s.submissions;
      }
    }
  }

  lemma KeepsDecided(w: World, t: Track, e: Event)
    requires TicketsHonest(t) && DecidedOnce(t) && Enabled(t, e)
    ensures DecidedOnce(Happen(w, t, e))
  {
    StepMoves(w, t, e);
    hide Respond, Next;
    if e.Does? && e.step.DoReview? && Respond(w, t.s, e.step).Done? {
      StepConditions(w, t.s, e.step);
      assert (e.step.id, e.step.version) in t.reviews;
      assert t.s.submissions[e.step.id].state == SubmissionState.Review;
      RowsAre(w, t.s, e.step);
    }
  }

  lemma KeepsStatus(w: World, t: Track, e: Event)
    requires StatusCurrent(t) && Enabled(t, e)
    ensures StatusCurrent(Happen(w, t, e))
  {
  }

  /** Every event keeps the invariant, so every reachable task satisfies it. */
  lemma {:induction false} AlwaysInvariant(w: World, t: Track, es: seq<Event>)
    requires Created(t) && Legal(w, t, es)
    ensures Invariant(After(w, t, es))
  {
    hide Invariant, Happen, Enabled;
    if es == [] {
      CreatedInvariant(t);
    } else {
      AlwaysInvariant(w, t, Init(es));
      var before := After(w, t, Init(es));
      assert Invariant(Happen(w, before, Last(es))) by { InvariantStep(w, before, Last(es)); }
    }
  }

  lemma InvariantStep(w: World, t: Track, e: Event)
    requires Invariant(t) && Enabled(t, e)
    ensures Invariant(Happen(w, t, e))
  {
    KeepsChain(w, t, e);
    KeepsTickets(w, t, e);
    KeepsDecided(w, t, e);
    KeepsStatus(w, t, e);
    hide *;
    assert Invariant(Happen(w, t, e)) by { InvariantParts(Happen(w, t, e)); }
  }

  lemma InvariantParts(t: Track)
    requires Chain(t.s.submissions) && TicketsHonest(t) && DecidedOnce(t) && StatusCurrent(t)
    ensures Invariant(t)
  {
  }
}
