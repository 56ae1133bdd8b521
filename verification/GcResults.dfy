/** What a sweep guarantees: integrity, safety for everything still revivable, and its fixpoint. */
module GcResults {
  import opened Common
  import opened Gc

  /* ---------- Integrity ---------- */

  lemma ScrubKeeps(db: Db, users: set<Ref>)
    requires Intact(db) && Coherent(db)
    ensures Intact(Scrub(db, users)) && Coherent(Scrub(db, users))
  {
    var after := Scrub(db, users);
    assert forall r, t :: Refers(after, r, t) <==> Refers(db, r, t);
    assert ThreadsStay(after) by {
      forall r, s | Refers(after, r, s) && InThread(r.table) && InThread(s.table) ensures SameTasks(after, r, s) {
        assert SameTasks(db, r, s);
      }
    }
    assert Owned(after) by {
      forall r: Ref, table: Table | r in after && HasOne(db, r, table) ensures HasOne(after, r, table) {
        var t: Ref :| Refers(db, r, t) && t.table == table;
        assert Refers(after, r, t);
      }
    }
    assert AnswersFit(after) by {
      forall a: Ref, s: Ref, q: Ref | Refers(after, a, s) && Refers(after, a, q) && a.table.Answer?
          && s.table.Submission? && q.table.Question?
        ensures AskedIn(after, s, q)
      {
        assert AskedIn(db, s, q);
      }
    }
  }

  lemma CollectedGroupsUnreferred(db: Db, cutoff: int)
    requires Intact(db) && Coherent(db)
    ensures Unreferred(db, CollectedGroups(db, cutoff))
  {
    GroupUnreferred(db, DueGroups(db, Division, cutoff));
    GroupUnreferred(db, DueGroups(db, Team, cutoff));
    RolesUnreferred(db, DueRoles(db, cutoff));
    hide Unreferred, GroupRows, DueGroups, DueRoles;
    UnreferredUnion(db, GroupRows(db, DueGroups(db, Division, cutoff)), GroupRows(db, DueGroups(db, Team, cutoff)));
    UnreferredUnion(db, GroupRows(db, DueGroups(db, Division, cutoff)) + GroupRows(db, DueGroups(db, Team, cutoff)),
        DueRoles(db, cutoff));
  }

  lemma PhasesKeep(db: Db, cutoff: int)
    requires Intact(db) && Coherent(db)
    ensures Intact(SweepTasks(db, cutoff)) && Coherent(SweepTasks(db, cutoff))
    ensures Intact(SweepGroups(db, cutoff)) && Coherent(SweepGroups(db, cutoff))
    ensures Intact(SweepUsers(db, cutoff)) && Coherent(SweepUsers(db, cutoff))
    ensures Intact(SweepConnections(db, cutoff)) && Coherent(SweepConnections(db, cutoff))
  {
    var tasks := DueTasks(db, cutoff);
    AggregateUnreferred(db, tasks);
    RemovalKeeps(db, Aggregate(db, tasks));
    CollectedGroupsUnreferred(db, cutoff);
    RemovalKeeps(db, CollectedGroups(db, cutoff));
    var due := DueUsers(db, cutoff);
    var bare := set u | u in due && !HasHistory(db, u);
    UsersUnreferred(db, due, bare);
    RemovalKeeps(db, Satellites(db, due) + UserRows(db, bare));
    ScrubKeeps(Without(db, Satellites(db, due) + UserRows(db, bare)), due - bare);
    var connections := DueConnections(db, cutoff);
    ConnectionsUnreferred(db, connections);
    RemovalKeeps(db, ConnectionRows(db, connections));
  }

  /** A sweep leaves no dangling reference, and keeps what the services keep. */
  lemma SweepKeepsIntegrity(db: Db, cutoff: int)
    requires Intact(db) && Coherent(db)
    ensures Intact(Sweep(db, cutoff)) && Coherent(Sweep(db, cutoff))
  {
    var a := SweepTasks(db, cutoff);
    var b := SweepGroups(a, cutoff);
    var c := SweepUsers(b, cutoff);
    PhasesKeep(db, cutoff);
    PhasesKeep(a, cutoff);
    PhasesKeep(b, cutoff);
    PhasesKeep(c, cutoff);
  }

  /* ---------- What each phase can remove ---------- */

  /** Rows of other tables stay, and rows that stay keep their lifecycle and foreign keys. */
  ghost predicate RemovesOnly(before: Db, after: Db, tables: set<Table>) {
    && (forall r: Ref | r in before :: r.table !in tables ==> r in after)
    && (forall r: Ref | r in after :: r in before && after[r].life == before[r].life && after[r].refs == before[r].refs)
  }

  lemma TasksRemove(db: Db, cutoff: int)
    ensures RemovesOnly(db, SweepTasks(db, cutoff),
            {Task, Message, Submission, Claim, Template, Answer, Question, Attachment})
  {
  }

  lemma GroupsRemove(db: Db, cutoff: int)
    ensures RemovesOnly(db, SweepGroups(db, cutoff), {Division, Team, Role, Template, Question})
  {
  }

  lemma UsersRemove(db: Db, cutoff: int)
    ensures RemovesOnly(db, SweepUsers(db, cutoff), {Personal, Membership, Link, Baseline, InvitationUse, User})
  {
  }

  lemma ConnectionsRemove(db: Db, cutoff: int)
    ensures RemovesOnly(db, SweepConnections(db, cutoff), {Connection, Baseline})
  {
  }

  /** Over a whole sweep rows keep their lifecycle and foreign keys. */
  lemma SweepRemoves(db: Db, cutoff: int)
    ensures var a := SweepTasks(db, cutoff);
            var b := SweepGroups(a, cutoff);
            var c := SweepUsers(b, cutoff);
            && RemovesOnly(db, a, {Task, Message, Submission, Claim, Template, Answer, Question, Attachment})
            && RemovesOnly(a, b, {Division, Team, Role, Template, Question})
            && RemovesOnly(b, c, {Personal, Membership, Link, Baseline, InvitationUse, User})
            && RemovesOnly(c, Sweep(db, cutoff), {Connection, Baseline})
  {
    var a := SweepTasks(db, cutoff);
    var b := SweepGroups(a, cutoff);
    var c := SweepUsers(b, cutoff);
    TasksRemove(db, cutoff);
    GroupsRemove(a, cutoff);
    UsersRemove(b, cutoff);
    ConnectionsRemove(c, cutoff);
  }

  lemma SameReferrers(before: Db, after: Db, tables: set<Table>, among: set<Table>, target: Ref)
    requires RemovesOnly(before, after, tables) && tables !! among
    ensures RefersFrom(before, among, target) == RefersFrom(after, among, target)
  {
  }

  /* ---------- Safety ---------- */

  predicate HasLifecycle(t: Table) { t in {Task, Division, Team, Role, User, Connection} }

  /** In each phase, a lifecycle row that goes was retired before the cutoff. */
  lemma TasksTakeDue(db: Db, cutoff: int, r: Ref)
    requires r in db && HasLifecycle(r.table) && r !in SweepTasks(db, cutoff)
    ensures PastGrace(db[r].life, cutoff)
  {
  }

  lemma GroupsTakeDue(db: Db, cutoff: int, r: Ref)
    requires LockStep(db) && r in db && HasLifecycle(r.table) && r !in SweepGroups(db, cutoff)
    ensures PastGrace(db[r].life, cutoff)
  {
    hide GroupFree, RoleUnreferenced, PastGrace;
    assert r in CollectedGroups(db, cutoff);
    if r !in DueRoles(db, cutoff) {
      var groups := if r in GroupRows(db, DueGroups(db, Division, cutoff)) then DueGroups(db, Division, cutoff)
                    else DueGroups(db, Team, cutoff);
      assert InGroup(db, r, groups);
      if r !in groups {
        assert Names(db, r, groups);
        var g :| g in db[r].refs && g in groups;
        assert Refers(db, r, g);
      }
    }
  }

  lemma UsersTakeDue(db: Db, cutoff: int, r: Ref)
    requires r in db && HasLifecycle(r.table) && r !in SweepUsers(db, cutoff)
    ensures PastGrace(db[r].life, cutoff)
  {
  }

  lemma ConnectionsTakeDue(db: Db, cutoff: int, r: Ref)
    requires r in db && HasLifecycle(r.table) && r !in SweepConnections(db, cutoff)
    ensures PastGrace(db[r].life, cutoff)
  {
  }

  /**
   * A sweep with cutoff `start - graceMs` never collects a task, division, team, role, user or
   * connection that could still be revived at any time since the sweep started.
   */
  lemma NeverCollectsRevivable(db: Db, start: int, now: int, graceMs: int, r: Ref)
    requires Intact(db) && Coherent(db) && start <= now
    requires r in db && HasLifecycle(r.table) && IsRevivable(db[r].life, now, graceMs)
    ensures r in Sweep(db, start - graceMs) && Sweep(db, start - graceMs)[r].life == db[r].life
  {
    hide *;
    var cutoff := start - graceMs;
    RevivableIsNotPastGrace(db[r].life, start, now, graceMs);
    var a := SweepTasks(db, cutoff);
    var b := SweepGroups(a, cutoff);
    var c := SweepUsers(b, cutoff);
    var d := Sweep(db, cutoff);
    TasksKeepLockStep(db, cutoff);
    SweepIs(db, cutoff);
    SweepRemoves(db, cutoff);
    if r !in a { TasksTakeDue(db, cutoff, r); }
    Kept(db, a, {Task, Message, Submission, Claim, Template, Answer, Question, Attachment}, r);
    if r !in b { GroupsTakeDue(a, cutoff, r); }
    Kept(a, b, {Division, Team, Role, Template, Question}, r);
    if r !in c { UsersTakeDue(b, cutoff, r); }
    Kept(b, c, {Personal, Membership, Link, Baseline, InvitationUse, User}, r);
    if r !in d { ConnectionsTakeDue(c, cutoff, r); }
    Kept(c, d, {Connection, Baseline}, r);
  }

  /** A row retired at a known time is either still revivable or past grace, never both; no other row is either. */
  lemma RevivableOrPastGrace(life: Life, now: int, graceMs: int)
    ensures IsRevivable(life, now, graceMs) || PastGrace(life, now - graceMs) <==>
            life.state == Retired && life.retiredAt.Some?
    ensures !(IsRevivable(life, now, graceMs) && PastGrace(life, now - graceMs))
    ensures life.state == Retired && life.retiredAt.Some? ==>
              (IsRevivable(life, now, graceMs) <==> now <= life.retiredAt.value + graceMs)
  {
  }

  lemma RevivableIsNotPastGrace(life: Life, start: int, now: int, graceMs: int)
    requires start <= now && IsRevivable(life, now, graceMs)
    ensures !PastGrace(life, start - graceMs)
  {
  }

  lemma TasksKeepLockStep(db: Db, cutoff: int)
    requires Intact(db) && Coherent(db)
    ensures LockStep(SweepTasks(db, cutoff))
  {
  }

  lemma SweepIs(db: Db, cutoff: int)
    ensures Sweep(db, cutoff)
            == SweepConnections(SweepUsers(SweepGroups(SweepTasks(db, cutoff), cutoff), cutoff), cutoff)
  {
  }

  lemma Kept(before: Db, after: Db, tables: set<Table>, r: Ref)
    requires RemovesOnly(before, after, tables)
    ensures r in after ==> r in before && after[r].life == before[r].life && after[r].refs == before[r].refs
    ensures r in before && r.table !in tables ==> r in after
  {
  }

  lemma SurvivesTasks(db: Db, cutoff: int, r: Ref)
    requires r in db && !InAggregate(db, r, DueTasks(db, cutoff))
    ensures r in SweepTasks(db, cutoff) && SweepTasks(db, cutoff)[r] == db[r]
  {
  }

  /** The contents of a task that is not itself due are never touched. */
  lemma LiveContentStays(db: Db, cutoff: int, r: Ref)
    requires r in db && r.table in {Message, Submission, Answer, Attachment, Claim}
    requires !InAggregate(db, r, DueTasks(db, cutoff))
    ensures r in Sweep(db, cutoff) && Sweep(db, cutoff)[r].refs == db[r].refs
  {
    hide *;
    var a := SweepTasks(db, cutoff);
    SurvivesTasks(db, cutoff, r);
    var b := SweepGroups(a, cutoff);
    var c := SweepUsers(b, cutoff);
    SweepRemoves(db, cutoff);
    Kept(a, b, {Division, Team, Role, Template, Question}, r);
    Kept(b, c, {Personal, Membership, Link, Baseline, InvitationUse, User}, r);
    Kept(c, Sweep(db, cutoff), {Connection, Baseline}, r);
  }

  /* ---------- The fixpoint ---------- */

  /** Nothing is left to do but to collect groups and roles that user purges have freed. */
  ghost predicate Clean(db: Db, cutoff: int) {
    && DueTasks(db, cutoff) == {}
    && (forall u | u in DueUsers(db, cutoff) :: HasHistory(db, u) && db[u].key == "")
    && Satellites(db, DueUsers(db, cutoff)) == {}
    && DueConnections(db, cutoff) == {}
  }

  lemma TasksDone(db: Db, cutoff: int)
    ensures DueTasks(SweepTasks(db, cutoff), cutoff) == {}
  {
  }

  lemma StillNoTasks(before: Db, after: Db, cutoff: int, tables: set<Table>)
    requires RemovesOnly(before, after, tables) && DueTasks(before, cutoff) == {}
    ensures DueTasks(after, cutoff) == {}
  {
  }

  /** After the user phase, users past grace are tombstones with history and nothing else. */
  ghost predicate UsersSettled(db: Db, cutoff: int) {
    && (forall u | u in DueUsers(db, cutoff) :: HasHistory(db, u) && db[u].key == "")
    && Satellites(db, DueUsers(db, cutoff)) == {}
  }

  lemma UsersDone(db: Db, cutoff: int)
    ensures UsersSettled(SweepUsers(db, cutoff), cutoff)
  {
    var after := SweepUsers(db, cutoff);
    UsersRemove(db, cutoff);
    forall u | u in DueUsers(after, cutoff) ensures HasHistory(after, u) && after[u].key == "" {
      TombstoneHasHistory(db, cutoff, u);
    }
    forall r | r in after ensures !IsSatellite(after, r, DueUsers(after, cutoff)) {
      NoSatelliteLeft(db, cutoff, r);
    }
  }

  lemma TombstoneHadHistory(db: Db, cutoff: int, u: Ref)
    requires var after := SweepUsers(db, cutoff); u in after && Due(after, User, cutoff, u)
    ensures HasHistory(db, u) && SweepUsers(db, cutoff)[u].key == ""
  {
  }

  lemma HistoryStays(before: Db, after: Db, u: Ref)
    requires RemovesOnly(before, after, {Personal, Membership, Link, Baseline, InvitationUse, User})
    ensures HasHistory(before, u) == HasHistory(after, u)
  {
    hide RemovesOnly, RefersFrom;
    SameReferrers(before, after, {Personal, Membership, Link, Baseline, InvitationUse, User},
                  {Message, Submission, Task, Attachment, Claim}, u);
  }

  lemma TombstoneHasHistory(db: Db, cutoff: int, u: Ref)
    requires var after := SweepUsers(db, cutoff); u in after && Due(after, User, cutoff, u)
    ensures HasHistory(SweepUsers(db, cutoff), u) && SweepUsers(db, cutoff)[u].key == ""
  {
    hide *;
    TombstoneHadHistory(db, cutoff, u);
    UsersRemove(db, cutoff);
    HistoryStays(db, SweepUsers(db, cutoff), u);
  }

  /** A row that names a due user cannot survive as a satellite. */
  lemma NoSatelliteLeft(db: Db, cutoff: int, r: Ref)
    requires r in SweepUsers(db, cutoff)
    ensures !IsSatellite(SweepUsers(db, cutoff), r, DueUsers(SweepUsers(db, cutoff), cutoff))
  {
  }

  lemma UsersStaySettled(before: Db, after: Db, cutoff: int, tables: set<Table>)
    requires UsersSettled(before, cutoff) && RemovesOnly(before, after, tables)
    requires tables !! {Message, Submission, Task, Attachment, Claim}
    requires forall r | r in after :: after[r].key == before[r].key
    ensures UsersSettled(after, cutoff)
  {
  }

  lemma ConnectionsDone(db: Db, cutoff: int)
    ensures DueConnections(SweepConnections(db, cutoff), cutoff) == {}
  {
  }

  lemma SweepCleans(db: Db, cutoff: int)
    ensures Clean(Sweep(db, cutoff), cutoff)
  {
    hide *;
    var a := SweepTasks(db, cutoff);
    var b := SweepGroups(a, cutoff);
    var c := SweepUsers(b, cutoff);
    var d := SweepConnections(c, cutoff);
    SweepIs(db, cutoff);
    SweepRemoves(db, cutoff);
    TasksDone(db, cutoff);
    StillNoTasks(a, b, cutoff, {Division, Team, Role, Template, Question});
    StillNoTasks(b, c, cutoff, {Personal, Membership, Link, Baseline, InvitationUse, User});
    StillNoTasks(c, d, cutoff, {Connection, Baseline});
    UsersDone(b, cutoff);
    ConnectionsKeepKeys(c, cutoff);
    UsersStaySettled(c, d, cutoff, {Connection, Baseline});
    ConnectionsDone(c, cutoff);
    CleanFrom(d, cutoff);
  }

  lemma ConnectionsKeepKeys(db: Db, cutoff: int)
    ensures var after := SweepConnections(db, cutoff);
            after.Keys <= db.Keys && forall r | r in after :: after[r].key == db[r].key
  {
  }

  lemma CleanFrom(db: Db, cutoff: int)
    requires DueTasks(db, cutoff) == {} && UsersSettled(db, cutoff) && DueConnections(db, cutoff) == {}
    ensures Clean(db, cutoff)
  {
  }

  lemma NoTasksNoChange(db: Db, cutoff: int)
    requires DueTasks(db, cutoff) == {}
    ensures SweepTasks(db, cutoff) == db
  {
  }

  lemma SettledNoChange(db: Db, cutoff: int)
    requires UsersSettled(db, cutoff)
    ensures SweepUsers(db, cutoff) == db
  {
  }

  lemma NoConnectionsNoChange(db: Db, cutoff: int)
    requires DueConnections(db, cutoff) == {}
    ensures SweepConnections(db, cutoff) == db
  {
  }

  /** From a clean database a sweep only collects groups and roles. */
  lemma CleanSweep(db: Db, cutoff: int)
    requires Clean(db, cutoff)
    ensures Sweep(db, cutoff) == SweepGroups(db, cutoff)
  {
    hide *;
    var after := SweepGroups(db, cutoff);
    CleanIs(db, cutoff);
    SweepIs(db, cutoff);
    NoTasksNoChange(db, cutoff);
    GroupsRemove(db, cutoff);
    GroupsKeepKeys(db, cutoff);
    StillNoConnections(db, cutoff);
    UsersStaySettled(db, after, cutoff, {Division, Team, Role, Template, Question});
    SettledNoChange(after, cutoff);
    NoConnectionsNoChange(after, cutoff);
  }

  lemma CleanIs(db: Db, cutoff: int)
    requires Clean(db, cutoff)
    ensures DueTasks(db, cutoff) == {} && UsersSettled(db, cutoff) && DueConnections(db, cutoff) == {}
  {
  }

  lemma GroupsKeepKeys(db: Db, cutoff: int)
    ensures var after := SweepGroups(db, cutoff);
            after.Keys <= db.Keys && forall r | r in after :: after[r].key == db[r].key
  {
  }

  lemma StillNoConnections(db: Db, cutoff: int)
    requires DueConnections(db, cutoff) == {}
    ensures DueConnections(SweepGroups(db, cutoff), cutoff) == {}
  {
    var after := SweepGroups(db, cutoff);
    GroupsRemove(db, cutoff);
    hide SweepGroups, RefersFrom;
    forall c | c in after && Due(after, Connection, cutoff, c) ensures !ConnectionFree(after, c) {
      SameReferrers(db, after, {Division, Team, Role, Template, Question}, {Link, Mapping}, c);
      assert c !in DueConnections(db, cutoff);
    }
  }

  lemma RoleReferrersStay(db: Db, cutoff: int, role: Ref)
    ensures RoleUnreferenced(SweepGroups(db, cutoff), role) == RoleUnreferenced(db, role)
  {
    GroupsRemove(db, cutoff);
    SameReferrers(db, SweepGroups(db, cutoff), {Division, Team, Role, Template, Question},
        {Membership, Grant, Mapping}, role);
  }

  /** An inherent role that a group phase takes was unreferenced. */
  lemma TakenRoleUnreferenced(db: Db, cutoff: int, role: Ref)
    requires role in db && role.table.Role? && role !in SweepGroups(db, cutoff)
    ensures RoleUnreferenced(db, role)
  {
    if role !in DueRoles(db, cutoff) {
      var groups := if role in GroupRows(db, DueGroups(db, Division, cutoff)) then DueGroups(db, Division, cutoff)
                    else DueGroups(db, Team, cutoff);
      assert Names(db, role, groups);
      var g :| g in db[role].refs && g in groups;
      assert GroupFree(db, g);
    }
  }

  lemma GroupFreeBefore(db: Db, cutoff: int, g: Ref)
    requires GroupFree(SweepGroups(db, cutoff), g)
    ensures GroupFree(db, g)
  {
    var after := SweepGroups(db, cutoff);
    GroupsRemove(db, cutoff);
    SameReferrers(db, after, {Division, Team, Role, Template, Question}, {Task}, g);
    forall r | r in db && r.table.Role? && g in db[r].refs ensures RoleUnreferenced(db, r) {
      if r in after {
        RoleReferrersStay(db, cutoff, r);
      } else {
        TakenRoleUnreferenced(db, cutoff, r);
      }
    }
  }

  lemma GroupsIdempotent(db: Db, cutoff: int)
    ensures SweepGroups(SweepGroups(db, cutoff), cutoff) == SweepGroups(db, cutoff)
  {
    var after := SweepGroups(db, cutoff);
    GroupsRemove(db, cutoff);
    forall g | g in after && (Due(after, Division, cutoff, g) || Due(after, Team, cutoff, g))
      ensures !GroupFree(after, g)
    {
      assert g !in CollectedGroups(db, cutoff);
      if GroupFree(after, g) {
        GroupFreeBefore(db, cutoff, g);
      }
    }
    forall r | r in after && Due(after, Role, cutoff, r) && Standalone(after, r) ensures !RoleUnreferenced(after, r) {
      RoleReferrersStay(db, cutoff, r);
      assert r !in DueRoles(db, cutoff);
    }
    assert DueGroups(after, Division, cutoff) == {} && DueGroups(after, Team, cutoff) == {};
    assert DueRoles(after, cutoff) == {};
    assert GroupRows(after, {}) == {};
    assert CollectedGroups(after, cutoff) == {};
  }

  /**
   * With a fixed cutoff two sweeps settle the database: the second collects only groups and roles,
   * and a third changes nothing at all.
   */
  lemma TwoSweepsSettle(db: Db, cutoff: int)
    ensures var once := Sweep(db, cutoff);
            && Sweep(once, cutoff) == SweepGroups(once, cutoff)
            && Sweep(Sweep(once, cutoff), cutoff) == Sweep(once, cutoff)
  {
    var once := Sweep(db, cutoff);
    SweepCleans(db, cutoff);
    CleanSweep(once, cutoff);
    var twice := Sweep(once, cutoff);
    SweepCleans(once, cutoff);
    CleanSweep(twice, cutoff);
    GroupsIdempotent(once, cutoff);
  }

  const USER: Ref := Ref(User, "u")
  const ROLE: Ref := Ref(Role, "r")
  const HELD: Ref := Ref(Membership, "m")

  /** A user and a role past grace, and the membership between them. */
  function HeldRole(cutoff: int): Db {
    map[
      USER := Row(Life(Retired, Some(cutoff - 1)), {}, "u@example.org"),
      ROLE := Row(Life(Retired, Some(cutoff - 1)), {}, ""),
      HELD := Row(Life(Active, None), {USER, ROLE}, "")]
  }

  lemma HeldRoleSound(cutoff: int)
    ensures Intact(HeldRole(cutoff)) && Coherent(HeldRole(cutoff))
  {
    var db := HeldRole(cutoff);
    forall r, t | Refers(db, r, t) ensures r == HELD && t in {USER, ROLE} {
    }
    OnlyMemberships(db);
  }

  /** Rows that only a membership refers from have no threads, owners or shared lifecycles to keep. */
  lemma OnlyMemberships(db: Db)
    requires forall r, t | Refers(db, r, t) :: r.table.Membership? && (t.table.User? || t.table.Role?)
    requires forall r | r in db :: r.table in {User, Role, Membership}
    ensures Coherent(db)
  {
  }

  lemma HeldRoleRows(cutoff: int)
    ensures USER.table.User? && ROLE.table.Role? && HELD.table.Membership?
    ensures var db := HeldRole(cutoff);
            && USER in db && ROLE in db && HELD in db
            && PastGrace(db[USER].life, cutoff) && PastGrace(db[ROLE].life, cutoff)
            && db[ROLE].refs == {} && USER in db[HELD].refs && ROLE in db[HELD].refs
    ensures forall r: Ref | r in HeldRole(cutoff) :: r.table in {User, Role, Membership}
    ensures forall r: Ref | r in HeldRole(cutoff) && r != HELD :: r.table.User? || r.table.Role?
  {
  }

  /** Sweeping leaves a part of the rows, unchanged in lifecycle and foreign keys. */
  lemma SweepShrinks(db: Db, cutoff: int, r: Ref)
    requires r in Sweep(db, cutoff)
    ensures r in db && Sweep(db, cutoff)[r].life == db[r].life && Sweep(db, cutoff)[r].refs == db[r].refs
  {
    hide *;
    SweepRemoves(db, cutoff);
    var a := SweepTasks(db, cutoff);
    var b := SweepGroups(a, cutoff);
    var c := SweepUsers(b, cutoff);
    Kept(c, Sweep(db, cutoff), {Connection, Baseline}, r);
    Kept(b, c, {Personal, Membership, Link, Baseline, InvitationUse, User}, r);
    Kept(a, b, {Division, Team, Role, Template, Question}, r);
    Kept(db, a, {Task, Message, Submission, Claim, Template, Answer, Question, Attachment}, r);
  }

  lemma ReferencedRoleStays(db: Db, cutoff: int, role: Ref, held: Ref)
    requires role in db && role.table.Role? && db[role].refs == {}
    requires held in db && held.table.Membership? && role in db[held].refs
    ensures role in SweepGroups(db, cutoff)
  {
  }

  /** The role is still held when roles are collected, so it survives the first sweep. */
  lemma HeldRoleStays(db: Db, cutoff: int, role: Ref, held: Ref)
    requires role in db && role.table.Role? && db[role].refs == {}
    requires held in db && held.table.Membership? && role in db[held].refs
    ensures role in Sweep(db, cutoff)
  {
    hide *;
    var a := SweepTasks(db, cutoff);
    var b := SweepGroups(a, cutoff);
    var c := SweepUsers(b, cutoff);
    SweepRemoves(db, cutoff);
    Kept(db, a, {Task, Message, Submission, Claim, Template, Answer, Question, Attachment}, role);
    Kept(db, a, {Task, Message, Submission, Claim, Template, Answer, Question, Attachment}, held);
    ReferencedRoleStays(a, cutoff, role, held);
    Kept(b, c, {Personal, Membership, Link, Baseline, InvitationUse, User}, role);
    Kept(c, Sweep(db, cutoff), {Connection, Baseline}, role);
  }

  lemma TargetsExist(db: Db, r: Ref, t: Ref)
    requires Intact(db) && r in db && t in db[r].refs
    ensures t in db
  {
  }

  lemma CleanUserHasHistory(db: Db, cutoff: int, u: Ref)
    requires Clean(db, cutoff) && u in db && u.table.User? && PastGrace(db[u].life, cutoff)
    ensures HasHistory(db, u)
  {
  }

  lemma NoHistoryRows(db: Db, u: Ref)
    requires forall r: Ref | r in db :: r.table.User? || r.table.Role? || r.table.Membership?
    ensures !HasHistory(db, u)
  {
  }

  lemma RolesAlone(db: Db, role: Ref)
    requires forall r: Ref | r in db :: r.table.User? || r.table.Role?
    ensures RoleUnreferenced(db, role)
  {
  }

  lemma FreeRoleGoes(db: Db, cutoff: int, role: Ref)
    requires role in db && role.table.Role? && db[role].refs == {} && PastGrace(db[role].life, cutoff)
    requires RoleUnreferenced(db, role)
    ensures role !in SweepGroups(db, cutoff)
  {
  }

  lemma Shrunk(db: Db, cutoff: int, tables: set<Table>)
    requires forall r: Ref | r in db :: r.table in tables
    ensures forall r: Ref | r in Sweep(db, cutoff) :: r.table in tables
  {
  }

  /** The user had no history, so the user and with it the membership have gone. */
  lemma HolderGone(db: Db, cutoff: int, user: Ref, held: Ref)
    requires Intact(db) && Coherent(db)
    requires forall r: Ref | r in db :: r.table in {User, Role, Membership}
    requires held in db && user in db[held].refs && user.table.User? && user in db && PastGrace(db[user].life, cutoff)
    ensures held !in Sweep(db, cutoff)
  {
    hide *;
    var once := Sweep(db, cutoff);
    Shrunk(db, cutoff, {User, Role, Membership});
    NoHistoryRows(once, user);
    SweepKeepsIntegrity(db, cutoff);
    SweepCleans(db, cutoff);
    if held in once {
      SweepShrinks(db, cutoff, held);
      TargetsExist(once, held, user);
      SweepShrinks(db, cutoff, user);
      CleanUserHasHistory(once, cutoff, user);
    }
  }

  /**
   * One sweep does not settle every database: a retired role whose last member is a retired user
   * is still referenced when roles are collected, and free once the user has gone.
   */
  lemma OneSweepNotEnough(cutoff: int)
    ensures Intact(HeldRole(cutoff)) && Coherent(HeldRole(cutoff))
    ensures Sweep(Sweep(HeldRole(cutoff), cutoff), cutoff) != Sweep(HeldRole(cutoff), cutoff)
  {
    hide *;
    HeldRoleSound(cutoff);
    HeldRoleRows(cutoff);
    HeldRoleStays(HeldRole(cutoff), cutoff, ROLE, HELD);
    HolderGone(HeldRole(cutoff), cutoff, USER, HELD);
    SecondSweepTakes(HeldRole(cutoff), cutoff, ROLE, HELD);
  }

  lemma SecondSweepTakes(db: Db, cutoff: int, role: Ref, held: Ref)
    requires forall r: Ref | r in db && r != held :: r.table.User? || r.table.Role?
    requires role in db && role.table.Role? && db[role].refs == {} && PastGrace(db[role].life, cutoff)
    requires role in Sweep(db, cutoff) && held !in Sweep(db, cutoff)
    ensures role !in Sweep(Sweep(db, cutoff), cutoff)
  {
    hide *;
    var once := Sweep(db, cutoff);
    forall r: Ref | r in once ensures r.table.User? || r.table.Role? {
      SweepShrinks(db, cutoff, r);
    }
    RolesAlone(once, role);
    SweepShrinks(db, cutoff, role);
    FreeRoleGoes(once, cutoff, role);
    TwoSweepsSettle(db, cutoff);
  }
}
