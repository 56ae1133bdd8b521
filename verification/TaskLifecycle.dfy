/** One task's claims, submissions and template, as the services change them. */
module TaskLifecycle {
  import opened Common
  import opened TaskStatus
  import V = Validator

  datatype Submission = Submission(
    claimant: Id, no: int, prev: Option<Id>, state: SubmissionState, active: bool, version: nat,
    answers: seq<V.DtoAnswer>)

  /** The answer an attachment belongs to. */
  datatype Owner = Owner(submission: Id, answer: nat)

  /** What stays fixed during a run: the organization's attachments and the JavaScript coercions. */
  datatype World = World(files: map<Id, V.Meta>, retiredFiles: set<Id>, coercions: V.Coercions)

  function Lookup(w: World): Id -> Option<V.Meta> {
    (id: Id) => if id in w.files then Some(w.files[id]) else None
  }

  /** The rows of one task: `slots` maps a user to whether the slot is held (`left_at` is null). */
  datatype State = State(
    active: bool, openings: int, closed: bool, status: Status, slots: map<Id, bool>,
    submissions: map<Id, Submission>, template: seq<V.Question>, owners: map<Id, Owner>)

  datatype Decision = Approve | Return | Reject {
    function Outcome(): SubmissionState {
      match this
      case Approve => SubmissionState.Approved
      case Return => SubmissionState.Revising
      case Reject => Rejected
    }
  }

  datatype Error =
    | TaskRetired | ClaimsClosed | AlreadyClaimed | NoOpenings | NotClaimed | OpeningsLocked | InvalidOpenings
    | InvalidSubmission | AlreadySubmitted | SubmissionNotFound | SubmissionRetired | InvalidTransition
    | StaleSubmission | AlreadyRetired | NotRevivable | TemplateLocked | AnswersRemain

  datatype Reply = Done(state: State) | Refused(error: Error)

  /* ---------- Queries ---------- */

  function ActiveUsers(slots: map<Id, bool>): set<Id> { set u | u in slots && slots[u] }

  ghost predicate Candidate(subs: map<Id, Submission>, claimant: Id, activeOnly: bool, id: Id) {
    id in subs && subs[id].claimant == claimant && (activeOnly ==> subs[id].active)
  }

  /** `id` is the candidate with the highest number. */
  ghost predicate IsLatest(subs: map<Id, Submission>, claimant: Id, activeOnly: bool, id: Id) {
    && Candidate(subs, claimant, activeOnly, id)
    && forall other :: Candidate(subs, claimant, activeOnly, other) ==> subs[other].no <= subs[id].no
  }

  ghost function Latest(subs: map<Id, Submission>, claimant: Id, activeOnly: bool): (r: Option<Id>)
    ensures r.Some? ==> IsLatest(subs, claimant, activeOnly, r.value)
  {
    if id :| IsLatest(subs, claimant, activeOnly, id) then Some(id) else None
  }

  /** The unique key on (task, claimant, submission number). */
  ghost predicate UniqueNumbers(subs: map<Id, Submission>) {
    forall a, b | a in subs && b in subs :: subs[a].claimant == subs[b].claimant && subs[a].no == subs[b].no ==> a == b
  }

  /** The state of a claimant's latest active submission, if there is one. */
  ghost function SlotState(subs: map<Id, Submission>, user: Id): Option<SubmissionState> {
    var latest := Latest(subs, user, true);
    if latest.Some? then Some(subs[latest.value].state) else None
  }

  ghost function Derived(s: State): Status {
    var users := ActiveUsers(s.slots);
    MinRule(s.openings, s.closed, |users|, set u | u in users :: SlotState(s.submissions, u))
  }

  ghost function Recomputed(s: State): State { s.(status := Derived(s)) }

  /* ---------- The operations, each one transaction ---------- */

  /** The unlocked read of a claim: the openings that its commit will compare against. */
  function ReadClaim(s: State): (Option<int>, Option<Error>) {
    if !s.active then (None, Some(TaskRetired))
    else if s.closed then (None, Some(ClaimsClosed))
    else (Some(s.openings), None)
  }

  ghost function CommitClaim(s: State, user: Id, openingsRead: int): Reply {
    if user in ActiveUsers(s.slots) then Refused(AlreadyClaimed)
    else if |ActiveUsers(s.slots)| >= openingsRead then Refused(NoOpenings)
    else Done(Recomputed(s.(slots := s.slots[user := true])))
  }

  ghost function Leave(s: State, user: Id): Reply {
    if !s.active then Refused(TaskRetired)
    else if user !in ActiveUsers(s.slots) then Refused(NotClaimed)
    else Done(Recomputed(s.(slots := s.slots[user := false])))
  }

  ghost function ManageClaims(s: State, delta: Option<int>, closed: Option<bool>, locked: bool): Reply {
    var changes := delta.Some? && delta.value != 0;
    var openings := if changes then s.openings + delta.value else s.openings;
    if !s.active then Refused(TaskRetired)
    else if changes && locked then Refused(OpeningsLocked)
    else if changes && (openings < 0 || openings < |ActiveUsers(s.slots)|) then Refused(InvalidOpenings)
    else Done(Recomputed(s.(openings := openings, closed := if closed.Some? then closed.value else s.closed)))
  }

  ghost function Complete(s: State): Reply {
    if !s.active then Refused(TaskRetired) else Done(s.(status := Status.Approved))
  }

  /** The owners after the first `k` answers of a submission have claimed their attachments. */
  function Reowned(known: set<Id>, owners: map<Id, Owner>, id: Id, answers: seq<V.DtoAnswer>, k: nat): map<Id, Owner>
    requires k <= |answers|
  {
    if k == 0 then owners
    else
      var files := answers[k - 1].attachmentIds;
      Reowned(known, owners, id, answers, k - 1)
      + (map f | files.Some? && f in files.value && f in known :: Owner(id, k - 1))
  }

  predicate Accepts(w: World, s: State, answers: seq<V.DtoAnswer>) {
    V.Valid(s.template, V.ToValidatorAnswers(w.coercions, s.template, answers), Lookup(w))
  }

  /** The row that a submit creates after the claimant's latest one. */
  ghost function NewSubmission(s: State, user: Id, answers: seq<V.DtoAnswer>): Submission {
    var latest := Latest(s.submissions, user, false);
    Submission(
      user,
      if latest.Some? then s.submissions[latest.value].no + 1 else 1,
      if latest.Some? && s.submissions[latest.value].active then latest else None,
      SubmissionState.Review, true, 0, answers)
  }

  ghost function Submit(w: World, s: State, user: Id, answers: seq<V.DtoAnswer>, id: Id): Reply {
    var latest := Latest(s.submissions, user, false);
    if !s.active then Refused(TaskRetired)
    else if user !in ActiveUsers(s.slots) then Refused(NotClaimed)
    else if !Accepts(w, s, answers) then Refused(InvalidSubmission)
    else if latest.Some? && s.submissions[latest.value].active
        && s.submissions[latest.value].state != SubmissionState.Revising
    then Refused(AlreadySubmitted)
    else Done(Recomputed(s.(
      submissions := s.submissions[id := NewSubmission(s, user, answers)],
      owners := Reowned(w.files.Keys + w.retiredFiles, s.owners, id, answers, |answers|))))
  }

  /** The unlocked read of a review: the version that its commit will insist on. */
  function ReadReview(s: State, id: Id): (Option<nat>, Option<Error>) {
    if id !in s.submissions then (None, Some(SubmissionNotFound))
    else if !s.submissions[id].active then (None, Some(SubmissionRetired))
    else if s.submissions[id].state != SubmissionState.Review then (None, Some(InvalidTransition))
    else (Some(s.submissions[id].version), None)
  }

  ghost function CommitReview(s: State, id: Id, version: nat, decision: Decision): Reply {
    if id !in s.submissions || s.submissions[id].version != version then Refused(StaleSubmission)
    else
      var sub := s.submissions[id];
      Done(Recomputed(s.(submissions :=
          s.submissions[id := sub.(state := decision.Outcome(), version := version + 1)])))
  }

  ghost function RetireSubmission(s: State, id: Id): Reply {
    if id !in s.submissions then Refused(SubmissionNotFound)
    else if !s.submissions[id].active then Refused(AlreadyRetired)
    else
      var sub := s.submissions[id];
      Done(Recomputed(s.(submissions := s.submissions[id := sub.(active := false, version := sub.version + 1)])))
  }

  predicate NamesQuestion(answers: seq<V.DtoAnswer>, template: seq<V.Question>) {
    exists a <- answers :: exists q <- template :: q.id == a.questionId
  }

  /**
   * Replacing the template: refused while a submission is active, and by the foreign key of
   * `answer.question_id` while any answer row still names a question of the current template.
   */
  function PutTemplate(s: State, questions: seq<V.Question>): Reply {
    if exists id <- s.submissions :: s.submissions[id].active then Refused(TemplateLocked)
    else if exists id <- s.submissions :: NamesQuestion(s.submissions[id].answers, s.template)
        then Refused(AnswersRemain)
    else Done(s.(template := questions))
  }

  function RetireTask(s: State): Reply {
    if !s.active then Refused(AlreadyRetired) else Done(s.(active := false))
  }

  function ReviveTask(s: State, inWindow: bool): Reply {
    if s.active || !inWindow then Refused(NotRevivable) else Done(s.(active := true))
  }

  datatype Step =
    | DoClaim(user: Id, openingsRead: int)
    | DoLeave(user: Id)
    | DoManage(delta: Option<int>, closed: Option<bool>, locked: bool)
    | DoComplete
    | DoSubmit(user: Id, answers: seq<V.DtoAnswer>, id: Id)
    | DoReview(id: Id, version: nat, decision: Decision)
    | DoRetireSubmission(id: Id)
    | DoPutTemplate(questions: seq<V.Question>)
    | DoRetireTask
    | DoReviveTask(inWindow: bool)

  ghost function Respond(w: World, s: State, step: Step): Reply {
    match step
    case DoClaim(user, openingsRead) => CommitClaim(s, user, openingsRead)
    case DoLeave(user) => Leave(s, user)
    case DoManage(delta, closed, locked) => ManageClaims(s, delta, closed, locked)
    case DoComplete => Complete(s)
    case DoSubmit(user, answers, id) => Submit(w, s, user, answers, id)
    case DoReview(id, version, decision) => CommitReview(s, id, version, decision)
    case DoRetireSubmission(id) => RetireSubmission(s, id)
    case DoPutTemplate(questions) => PutTemplate(s, questions)
    case DoRetireTask => RetireTask(s)
    case DoReviveTask(inWindow) => ReviveTask(s, inWindow)
  }

  /** A refused request rolls back and leaves the state as it was. */
  ghost function Next(w: World, s: State, step: Step): State {
    var reply := Respond(w, s, step);
    if reply.Done? then reply.state else s
  }

  lemma LatestUnique(subs: map<Id, Submission>, claimant: Id, activeOnly: bool, id: Id)
    requires UniqueNumbers(subs) && IsLatest(subs, claimant, activeOnly, id)
    ensures Latest(subs, claimant, activeOnly) == Some(id)
  {
  }

  lemma NextNumberIsUnique(subs: map<Id, Submission>, user: Id, id: Id, row: Submission)
    requires UniqueNumbers(subs) && id !in subs && row.claimant == user
    requires var latest := Latest(subs, user, false);
             row.no == if latest.Some? then subs[latest.value].no + 1 else 1
    ensures UniqueNumbers(subs[id := row])
  {
    var latest := Latest(subs, user, false);
    forall other | other in subs && subs[other].claimant == user ensures subs[other].no < row.no {
      assert Candidate(subs, user, false, other);
      if latest.None? {
        NoneHasNoCandidate(subs, user, other);
      }
    }
  }

  /** A claimant with a submission has a latest one. */
  lemma {:induction false} NoneHasNoCandidate(subs: map<Id, Submission>, user: Id, some: Id)
    requires Candidate(subs, user, false, some)
    ensures Latest(subs, user, false).Some?
  {
    HighestExists(subs, user, false, some, subs.Keys);
  }

  /** Among a finite set of rows there is a candidate that none outranks. */
  lemma {:induction false} HighestExists(subs: map<Id, Submission>, user: Id, activeOnly: bool, some: Id, rows: set<Id>)
    requires Candidate(subs, user, activeOnly, some) && some in rows && rows <= subs.Keys
    requires forall other :: Candidate(subs, user, activeOnly, other) && other !in rows ==>
             subs[other].no <= subs[some].no
    ensures exists id :: IsLatest(subs, user, activeOnly, id)
    decreases |rows|
  {
    if better :| Candidate(subs, user, activeOnly, better) && subs[better].no > subs[some].no {
      HighestExists(subs, user, activeOnly, better, rows - {some});
    } else {
      assert IsLatest(subs, user, activeOnly, some);
    }
  }
}
