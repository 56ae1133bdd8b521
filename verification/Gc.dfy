/**
 * The rows and foreign keys that collection works on. A row keeps the set of rows its foreign keys
 * name; the column is told by the table of the target, which is unambiguous in the schema.
 */
module Gc {
  import opened Common

  datatype Table =
    | Task | Division | Team | Role | User | Connection
    | Membership | Grant | Mapping | Link | Baseline
    | Message | Submission | Answer | Attachment | Claim | Template | Question
    | Personal | InvitationUse

  datatype Ref = Ref(table: Table, id: Id)

  datatype Life = Life(state: Lifecycle, retiredAt: Option<int>)

  /**
   * `key` is the one further column that collection reads: the e-mail of a user, the external user
   * of a link or baseline, the storage key of an attachment.
   */
  datatype Row = Row(life: Life, refs: set<Ref>, key: string)

  type Db = map<Ref, Row>

  /** The foreign keys of the schema; `Personal` stands for identities, sessions, tokens and notifications. */
  function Targets(t: Table): set<Table> {
    match t
    case Task => {Division, Team, User}
    case Role => {Division, Team}
    case Membership => {User, Role}
    case Grant => {Role}
    case Mapping => {Role, Connection}
    case Link => {User, Connection}
    case Baseline => {Connection, Mapping}
    case Message => {Task, User, Message, Submission}
    case Submission => {Task, User, Submission}
    case Answer => {Submission, Question}
    case Attachment => {Message, Answer, User}
    case Claim => {Task, User}
    case Template => {Division, Task}
    case Question => {Template}
    case Personal => {User}
    case InvitationUse => {User}
    case _ => {}
  }

  /** The keys that are ON DELETE CASCADE; all others are RESTRICT. */
  predicate Cascades(child: Table, parent: Table) {
    || (child == Answer && parent == Submission)
    || (child == Question && parent == Template)
    || (child == Baseline && (parent == Connection || parent == Mapping))
  }

  predicate Refers(db: Db, r: Ref, target: Ref) { r in db && target in db[r].refs }

  /** Every foreign key names a row of a table it may name: nothing dangles. */
  ghost predicate Intact(db: Db) {
    forall r, t :: Refers(db, r, t) ==> t in db && t.table in Targets(r.table)
  }

  predicate InThread(t: Table) { t.Message? || t.Submission? }

  ghost predicate SameTasks(db: Db, r: Ref, s: Ref) {
    forall t: Ref | t.table.Task? :: Refers(db, r, t) <==> Refers(db, s, t)
  }

  /** A message or submission names only messages and submissions of its own task. */
  ghost predicate ThreadsStay(db: Db) {
    forall r, s | Refers(db, r, s) :: InThread(r.table) && InThread(s.table) ==> SameTasks(db, r, s)
  }

  ghost predicate HasOne(db: Db, r: Ref, table: Table) { exists t: Ref :: Refers(db, r, t) && t.table == table }

  /** Answers belong to a submission, submissions to a task. */
  ghost predicate Owned(db: Db) {
    forall r: Ref | r in db ::
      (r.table.Answer? ==> HasOne(db, r, Submission)) && (r.table.Submission? ==> HasOne(db, r, Task))
  }

  ghost predicate AskedIn(db: Db, s: Ref, q: Ref) {
    forall p: Ref, t: Ref | Refers(db, q, p) && Refers(db, s, t) :: t.table.Task? ==> Refers(db, p, t)
  }

  /** An answer's question is asked by the template of its submission's task. */
  ghost predicate AnswersFit(db: Db) {
    forall a: Ref, s: Ref, q: Ref | Refers(db, a, s) && Refers(db, a, q) ::
      a.table.Answer? && s.table.Submission? && q.table.Question? ==> AskedIn(db, s, q)
  }

  /** A template is a division's or a task's, not both. */
  ghost predicate OneOwner(db: Db) {
    forall p: Ref, a: Ref, b: Ref | Refers(db, p, a) && Refers(db, p, b) :: p.table.Template? ==> a == b
  }

  /** An inherent role shares the lifecycle of its division or team. */
  ghost predicate LockStep(db: Db) {
    forall r: Ref, g: Ref | Refers(db, r, g) && g in db :: r.table.Role? ==> db[r].life == db[g].life
  }

  /** What the services keep true of a task's aggregate and of a group's inherent role. */
  ghost predicate Coherent(db: Db) {
    ThreadsStay(db) && Owned(db) && AnswersFit(db) && OneOwner(db) && LockStep(db)
  }

  function Without(db: Db, gone: set<Ref>): Db { map r | r in db && r !in gone :: db[r] }

  /** No surviving row names a removed one. */
  ghost predicate Unreferred(db: Db, gone: set<Ref>) {
    forall r, t :: Refers(db, r, t) && t in gone ==> r in gone
  }

  lemma RefersAfter(db: Db, gone: set<Ref>)
    requires Unreferred(db, gone)
    ensures forall r, t :: Refers(Without(db, gone), r, t) <==> Refers(db, r, t) && r !in gone
    ensures forall r, t :: Refers(Without(db, gone), r, t) ==> t !in gone
  {
  }

  lemma RemovalKeeps(db: Db, gone: set<Ref>)
    requires Intact(db) && Coherent(db) && Unreferred(db, gone)
    ensures Intact(Without(db, gone)) && Coherent(Without(db, gone))
  {
    RefersAfter(db, gone);
    RemovalKeepsOwned(db, gone);
    RemovalKeepsThreads(db, gone);
    RemovalKeepsAnswers(db, gone);
    hide Unreferred, ThreadsStay, Owned, AnswersFit;
  }

  lemma RemovalKeepsOwned(db: Db, gone: set<Ref>)
    requires Owned(db) && Unreferred(db, gone)
    ensures Owned(Without(db, gone))
  {
  }

  lemma RemovalKeepsThreads(db: Db, gone: set<Ref>)
    requires ThreadsStay(db) && Unreferred(db, gone)
    ensures ThreadsStay(Without(db, gone))
  {
  }

  lemma RemovalKeepsAnswers(db: Db, gone: set<Ref>)
    requires AnswersFit(db) && Unreferred(db, gone)
    ensures AnswersFit(Without(db, gone))
  {
    RefersAfter(db, gone);
    hide Unreferred;
    var after := Without(db, gone);
    forall a: Ref, s: Ref, q: Ref | Refers(after, a, s) && Refers(after, a, q) && a.table.Answer?
        && s.table.Submission? && q.table.Question?
      ensures AskedIn(after, s, q)
    {
      assert AskedIn(db, s, q);
    }
  }

  lemma UnreferredUnion(db: Db, a: set<Ref>, b: set<Ref>)
    requires Unreferred(db, a) && Unreferred(db, b)
    ensures Unreferred(db, a + b)
  {
  }

  lemma WithoutTwice(db: Db, a: set<Ref>, b: set<Ref>)
    ensures Without(Without(db, a), b) == Without(db, a + b)
  {
  }

  /* ---------- Who may be collected ---------- */

  predicate IsRevivable(life: Life, now: int, graceMs: int) {
    life.state.Retired? && life.retiredAt.Some? && now - life.retiredAt.value <= graceMs
  }

  predicate PastGrace(life: Life, cutoff: int) {
    life.state.Retired? && life.retiredAt.Some? && life.retiredAt.value < cutoff
  }

  predicate Due(db: Db, table: Table, cutoff: int, r: Ref) {
    r in db && r.table == table && PastGrace(db[r].life, cutoff)
  }

  predicate RefersFrom(db: Db, tables: set<Table>, target: Ref) {
    exists r <- db :: r.table in tables && target in db[r].refs
  }

  predicate RoleUnreferenced(db: Db, role: Ref) { !RefersFrom(db, {Membership, Grant, Mapping}, role) }

  /** A division or team without tasks, whose inherent role nothing references. */
  predicate GroupFree(db: Db, group: Ref) {
    !RefersFrom(db, {Task}, group) && forall r <- db :: r.table.Role? && group in db[r].refs ==> RoleUnreferenced(db, r)
  }

  predicate Standalone(db: Db, role: Ref) { role in db && role.table.Role? && db[role].refs == {} }

  predicate HasHistory(db: Db, user: Ref) { RefersFrom(db, {Message, Submission, Task, Attachment, Claim}, user) }

  predicate ConnectionFree(db: Db, c: Ref) { !RefersFrom(db, {Link, Mapping}, c) }

  function DueTasks(db: Db, cutoff: int): set<Ref> { set r | r in db && Due(db, Task, cutoff, r) }

  function DueGroups(db: Db, table: Table, cutoff: int): set<Ref> {
    set r | r in db && Due(db, table, cutoff, r) && GroupFree(db, r)
  }

  function DueRoles(db: Db, cutoff: int): set<Ref> {
    set r | r in db && Due(db, Role, cutoff, r) && Standalone(db, r) && RoleUnreferenced(db, r)
  }

  function DueUsers(db: Db, cutoff: int): set<Ref> { set r | r in db && Due(db, User, cutoff, r) }

  function DueConnections(db: Db, cutoff: int): set<Ref> {
    set r | r in db && Due(db, Connection, cutoff, r) && ConnectionFree(db, r)
  }

  /* ---------- What goes with what ---------- */

  /** `r` reaches one of `targets` by a foreign key. */
  predicate Names(db: Db, r: Ref, targets: set<Ref>) { r in db && exists t <- db[r].refs :: t in targets }

  predicate NamesVia(db: Db, r: Ref, via: Table, targets: set<Ref>) {
    r in db && exists t <- db[r].refs :: t.table == via && Names(db, t, targets)
  }

  predicate NamesViaTwo(db: Db, r: Ref, via: Table, next: Table, targets: set<Ref>) {
    r in db && exists t <- db[r].refs :: t.table == via && NamesVia(db, t, next, targets)
  }

  /** The attachments that a task's messages and answers carry. */
  predicate IsTaskFile(db: Db, r: Ref, tasks: set<Ref>) {
    r.table.Attachment? && (NamesVia(db, r, Message, tasks) || NamesViaTwo(db, r, Answer, Submission, tasks))
  }

  predicate InAggregate(db: Db, r: Ref, tasks: set<Ref>) {
    || r in tasks
    || (r.table in {Message, Submission, Claim, Template} && Names(db, r, tasks))
    || (r.table.Answer? && NamesVia(db, r, Submission, tasks))
    || (r.table.Question? && NamesVia(db, r, Template, tasks))
    || IsTaskFile(db, r, tasks)
  }

  /** The tasks and everything that is deleted with them. */
  function Aggregate(db: Db, tasks: set<Ref>): set<Ref> { set r | r in db && InAggregate(db, r, tasks) }

  predicate InGroup(db: Db, r: Ref, groups: set<Ref>) {
    || r in groups
    || (r.table in {Role, Template} && Names(db, r, groups))
    || (r.table.Question? && NamesVia(db, r, Template, groups))
  }

  /** Divisions or teams with their request templates and inherent roles. */
  function GroupRows(db: Db, groups: set<Ref>): set<Ref> { set r | r in db && InGroup(db, r, groups) }

  /** The baseline rows of a user's external accounts. */
  predicate IsBaselineOf(db: Db, r: Ref, users: set<Ref>) {
    && r in db && r.table.Baseline?
    && exists l <- db :: l.table.Link? && Names(db, l, users) && db[l].key == db[r].key
                         && exists c <- db[l].refs :: c.table.Connection? && c in db[r].refs
  }

  predicate IsSatellite(db: Db, r: Ref, users: set<Ref>) {
    (r.table in {Personal, Membership, Link} && Names(db, r, users)) || IsBaselineOf(db, r, users)
  }

  function Satellites(db: Db, users: set<Ref>): set<Ref> { set r | r in db && IsSatellite(db, r, users) }

  /** Users that leave nothing behind, with their invitation uses. */
  function UserRows(db: Db, users: set<Ref>): set<Ref> {
    set r | r in db && (r in users || (r.table.InvitationUse? && Names(db, r, users)))
  }

  function ConnectionRows(db: Db, connections: set<Ref>): set<Ref> {
    set r | r in db && (r in connections || (r.table.Baseline? && Names(db, r, connections)))
  }

  /* ---------- The sweep ---------- */

  function SweepTasks(db: Db, cutoff: int): Db { Without(db, Aggregate(db, DueTasks(db, cutoff))) }

  function CollectedGroups(db: Db, cutoff: int): set<Ref> {
    GroupRows(db, DueGroups(db, Division, cutoff)) + GroupRows(db, DueGroups(db, Team, cutoff)) + DueRoles(db, cutoff)
  }

  function SweepGroups(db: Db, cutoff: int): Db { Without(db, CollectedGroups(db, cutoff)) }

  function Scrub(db: Db, users: set<Ref>): Db {
    map r | r in db :: if r in users then db[r].(key := "") else db[r]
  }

  /** Users with history become tombstones; the others go. */
  function SweepUsers(db: Db, cutoff: int): Db {
    var due := DueUsers(db, cutoff);
    var bare := set u | u in due && !HasHistory(db, u);
    Scrub(Without(db, Satellites(db, due) + UserRows(db, bare)), due - bare)
  }

  function SweepConnections(db: Db, cutoff: int): Db {
    Without(db, ConnectionRows(db, DueConnections(db, cutoff)))
  }

  function Sweep(db: Db, cutoff: int): Db {
    SweepConnections(SweepUsers(SweepGroups(SweepTasks(db, cutoff), cutoff), cutoff), cutoff)
  }

  /* ---------- No removed set is referred to ---------- */

  lemma AggregateReferred(db: Db, tasks: set<Ref>, r: Ref, t: Ref)
    requires Intact(db) && Coherent(db) && (forall t <- tasks :: t.table.Task?)
    requires Refers(db, r, t) && t.table in Targets(r.table) && InAggregate(db, t, tasks)
    ensures InAggregate(db, r, tasks)
  {
    if t.table.Question? {
      assert t !in tasks;
      QuestionAnswered(db, tasks, r, t);
    } else if InThread(t.table) {
      assert t !in tasks;
      ThreadReferred(db, tasks, r, t);
    } else {
      hide Intact, Coherent;
      match t.table
      case Task => assert Names(db, r, tasks);
      case Answer => assert NamesViaTwo(db, r, Answer, Submission, tasks);
      case Template => assert NamesVia(db, r, Template, tasks);
      case _ =>
    }
  }

  lemma AggregateUnreferred(db: Db, tasks: set<Ref>)
    requires Intact(db) && Coherent(db) && forall t <- tasks :: t.table.Task?
    ensures Unreferred(db, Aggregate(db, tasks))
  {
    hide Coherent, InAggregate;
    forall r, t | Refers(db, r, t) && t in Aggregate(db, tasks) ensures r in Aggregate(db, tasks) {
      assert t.table in Targets(r.table);
      AggregateReferred(db, tasks, r, t);
    }
  }

  /** Whatever names a message or submission of a task is deleted with the task. */
  lemma ThreadReferred(db: Db, tasks: set<Ref>, r: Ref, s: Ref)
    requires ThreadsStay(db) && forall t <- tasks :: t.table.Task?
    requires Refers(db, r, s) && s.table in Targets(r.table) && InThread(s.table) && Names(db, s, tasks)
    ensures InAggregate(db, r, tasks)
  {
  }

  /** An answer's submission and its question's template belong to one task, the template's only owner. */
  lemma AnswerHome(db: Db, a: Ref, q: Ref, p: Ref, owner: Ref) returns (s: Ref)
    requires Coherent(db)
    requires a.table.Answer? && q.table.Question? && p.table.Template? && Refers(db, a, q) && Refers(db, q, p)
             && Refers(db, p, owner)
    requires forall t :: Refers(db, a, t) ==> t in db
    ensures Refers(db, a, s) && s.table.Submission? && Refers(db, s, owner) && owner.table.Task?
  {
    assert HasOne(db, a, Submission);
    s :| Refers(db, a, s) && s.table.Submission?;
    assert HasOne(db, s, Task);
    var t: Ref :| Refers(db, s, t) && t.table == Task;
    assert AskedIn(db, s, q);
    assert Refers(db, p, t);
    hide ThreadsStay, AnswersFit, AskedIn, LockStep;
    assert t == owner;
  }

  lemma QuestionAnswered(db: Db, tasks: set<Ref>, a: Ref, q: Ref)
    requires Intact(db) && Coherent(db)
    requires Refers(db, a, q) && q.table.Question? && q.table in Targets(a.table) && NamesVia(db, q, Template, tasks)
    ensures InAggregate(db, a, tasks)
  {
    hide Coherent;
    var p :| p in db[q].refs && p.table.Template? && Names(db, p, tasks);
    var k :| k in db[p].refs && k in tasks;
    assert Refers(db, q, p) && Refers(db, p, k);
    var s := AnswerHome(db, a, q, p, k);
    assert Names(db, s, tasks);
    assert NamesVia(db, a, Submission, tasks);
  }

  lemma GroupRowReferred(db: Db, groups: set<Ref>, r: Ref, t: Ref)
    requires Intact(db) && Coherent(db)
    requires forall g <- groups :: (g.table.Division? || g.table.Team?) && GroupFree(db, g)
    requires Refers(db, r, t) && t.table in Targets(r.table) && InGroup(db, t, groups)
    ensures InGroup(db, r, groups)
  {
    if t.table.Question? {
      AnsweredNotInGroup(db, groups, r, t);
    } else {
      hide Intact, Coherent, GroupFree, RoleUnreferenced;
      match t.table
      case Division => GroupReferred(db, groups, r, t);
      case Team => GroupReferred(db, groups, r, t);
      case Role => GroupRoleUnreferred(db, groups, r, t);
      case Template => assert NamesVia(db, r, Template, groups);
      case _ =>
    }
  }

  lemma GroupUnreferred(db: Db, groups: set<Ref>)
    requires Intact(db) && Coherent(db)
    requires forall g <- groups :: (g.table.Division? || g.table.Team?) && GroupFree(db, g)
    ensures Unreferred(db, GroupRows(db, groups))
  {
    hide Coherent, InGroup, GroupFree;
    forall r, t | Refers(db, r, t) && t in GroupRows(db, groups) ensures r in GroupRows(db, groups) {
      assert t.table in Targets(r.table);
      GroupRowReferred(db, groups, r, t);
    }
  }

  lemma GroupReferred(db: Db, groups: set<Ref>, r: Ref, g: Ref)
    requires g in groups && GroupFree(db, g) && Refers(db, r, g) && g.table in Targets(r.table)
    requires g.table.Division? || g.table.Team?
    ensures InGroup(db, r, groups)
  {
  }

  lemma GroupRoleUnreferred(db: Db, groups: set<Ref>, r: Ref, role: Ref)
    requires forall g <- groups :: GroupFree(db, g) && !g.table.Role?
    requires role.table.Role? && InGroup(db, role, groups) && role.table in Targets(r.table)
    ensures !Refers(db, r, role)
  {
  }

  /** A question that has been answered is not one of a division's own template. */
  lemma AnsweredNotInGroup(db: Db, groups: set<Ref>, a: Ref, q: Ref)
    requires Intact(db) && Coherent(db)
    requires forall g <- groups :: g.table.Division? || g.table.Team?
    requires Refers(db, a, q) && q.table.Question? && q.table in Targets(a.table)
    ensures !NamesVia(db, q, Template, groups)
  {
    hide Coherent;
    forall p, g | Refers(db, q, p) && p.table.Template? && Refers(db, p, g) ensures g !in groups {
      var s := AnswerHome(db, a, q, p, g);
    }
    forall p | p in db[q].refs && p.table.Template? ensures !Names(db, p, groups) {
      if p in db {
        forall g | g in db[p].refs ensures g !in groups {
          assert Refers(db, q, p) && Refers(db, p, g);
        }
      }
    }
  }

  lemma RolesUnreferred(db: Db, roles: set<Ref>)
    requires Intact(db) && forall r <- roles :: r.table.Role? && RoleUnreferenced(db, r)
    ensures Unreferred(db, roles)
  {
  }

  lemma UsersUnreferred(db: Db, due: set<Ref>, bare: set<Ref>)
    requires Intact(db) && bare <= due
    requires forall u <- due :: u.table.User?
    requires forall u <- bare :: !HasHistory(db, u)
    ensures Unreferred(db, Satellites(db, due) + UserRows(db, bare))
  {
    var gone := Satellites(db, due) + UserRows(db, bare);
    forall r, t | Refers(db, r, t) && t in gone ensures r in gone {
      assert t.table in Targets(r.table);
      assert t in bare;
      assert r.table in {Message, Submission, Task, Attachment, Claim} ==> HasHistory(db, t);
      assert Names(db, r, bare) && Names(db, r, due);
    }
  }

  lemma ConnectionsUnreferred(db: Db, connections: set<Ref>)
    requires Intact(db) && forall c <- connections :: c.table.Connection? && ConnectionFree(db, c)
    ensures Unreferred(db, ConnectionRows(db, connections))
  {
  }
}
