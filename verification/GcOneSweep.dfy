/** When one sweep is enough: nothing waits for a user purge to free it. */
module GcOneSweep {
  import opened Common
  import opened Gc
  import opened GcResults

  /* ---------- What waits, told from the database before the sweep ---------- */

  predicate Holds(db: Db, h: Ref, role: Ref) {
    h in db && h.table in {Membership, Grant, Mapping} && role in db[h].refs
  }

  /** A membership that goes with its user. */
  predicate GoesWithUser(db: Db, cutoff: int, h: Ref) { h.table.Membership? && Names(db, h, DueUsers(db, cutoff)) }

  /** Nothing but memberships of due users references the role. */
  predicate OnlyDueHolders(db: Db, cutoff: int, role: Ref) {
    forall h <- db :: Holds(db, h, role) ==> GoesWithUser(db, cutoff, h)
  }

  predicate WaitingRole(db: Db, cutoff: int, x: Ref) {
    && Due(db, Role, cutoff, x) && Standalone(db, x)
    && !RoleUnreferenced(db, x) && OnlyDueHolders(db, cutoff, x)
  }

  predicate RoleOf(db: Db, r: Ref, group: Ref) { r in db && r.table.Role? && group in db[r].refs }

  predicate OnlyDueTasks(db: Db, cutoff: int, group: Ref) {
    forall t <- db :: t.table.Task? && group in db[t].refs ==> Due(db, Task, cutoff, t)
  }

  predicate WaitingGroup(db: Db, cutoff: int, x: Ref) {
    && (Due(db, Division, cutoff, x) || Due(db, Team, cutoff, x))
    && OnlyDueTasks(db, cutoff, x)
    && (exists r <- db :: RoleOf(db, r, x) && !RoleUnreferenced(db, r))
    && forall r <- db :: RoleOf(db, r, x) ==> OnlyDueHolders(db, cutoff, r)
  }

  /** Past grace, referenced now, and free as soon as the users past grace have been purged. */
  predicate Waiting(db: Db, cutoff: int, x: Ref) { WaitingRole(db, cutoff, x) || WaitingGroup(db, cutoff, x) }

  /* ---------- Rows before and after a sweep ---------- */

  function Phase1(db: Db, cutoff: int): Db { SweepTasks(db, cutoff) }
  function Phase2(db: Db, cutoff: int): Db { SweepGroups(Phase1(db, cutoff), cutoff) }
  function Phase3(db: Db, cutoff: int): Db { SweepUsers(Phase2(db, cutoff), cutoff) }

  /** Each table loses rows in its own phase. */
  lemma ThroughPhases(db: Db, cutoff: int, r: Ref)
    ensures var a, b, c, d := Phase1(db, cutoff), Phase2(db, cutoff), Phase3(db, cutoff), Sweep(db, cutoff);
            && (r in d ==> r in c) && (r in c ==> r in b) && (r in b ==> r in a) && (r in a ==> r in db)
            && (r in d ==> d[r].life == db[r].life && d[r].refs == db[r].refs)
            && (r in b ==> b[r].life == db[r].life && b[r].refs == db[r].refs)
            && (r in a ==> a[r].life == db[r].life && a[r].refs == db[r].refs)
            && (r.table in {Membership, Grant, Mapping, User, Division, Team, Role} && r in db ==> r in a)
            && (r.table in {Membership, Grant, Mapping, User, Task} && r in a ==> r in b)
            && (r.table in {Division, Team, Role, Task} && r in b ==> r in d)
            && (r.table in {Membership, Grant, Mapping} && r in c ==> r in d)
  {
    hide *;
    var a := SweepTasks(db, cutoff);
    var b := SweepGroups(a, cutoff);
    var c := SweepUsers(b, cutoff);
    assert a == Phase1(db, cutoff) && b == Phase2(db, cutoff) && c == Phase3(db, cutoff) by { PhasesAre(db, cutoff); }
    SweepRemoves(db, cutoff);
    Kept(db, a, {Task, Message, Submission, Claim, Template, Answer, Question, Attachment}, r);
    Kept(a, b, {Division, Team, Role, Template, Question}, r);
    Kept(b, c, {Personal, Membership, Link, Baseline, InvitationUse, User}, r);
    Kept(c, Sweep(db, cutoff), {Connection, Baseline}, r);
  }

  lemma PhasesAre(db: Db, cutoff: int)
    ensures var a := SweepTasks(db, cutoff);
            var b := SweepGroups(a, cutoff);
            a == Phase1(db, cutoff) && b == Phase2(db, cutoff) && SweepUsers(b, cutoff) == Phase3(db, cutoff)
  {
  }

  lemma SameDueUsers(db: Db, cutoff: int)
    ensures DueUsers(Phase2(db, cutoff), cutoff) == DueUsers(db, cutoff)
  {
    var b := Phase2(db, cutoff);
    hide Phase2, PastGrace;
    forall u ensures u in DueUsers(b, cutoff) <==> u in DueUsers(db, cutoff) {
      ThroughPhases(db, cutoff, u);
    }
  }

  /** The user phase takes a membership exactly if it names a due user, and no grant or mapping. */
  lemma UserPhaseTakes(db: Db, cutoff: int, h: Ref)
    requires h in db && h.table in {Membership, Grant, Mapping}
    ensures h in SweepUsers(db, cutoff) <==> !GoesWithUser(db, cutoff, h)
  {
  }

  /** The holders of roles after a sweep are those from before, without the memberships of due users. */
  lemma HolderAfter(db: Db, cutoff: int, h: Ref, role: Ref)
    ensures Holds(Sweep(db, cutoff), h, role) <==> Holds(db, h, role) && !GoesWithUser(db, cutoff, h)
  {
    var b := Phase2(db, cutoff);
    SameDueUsers(db, cutoff);
    hide Sweep, Phase1, Phase2, SweepUsers, DueUsers;
    ThroughPhases(db, cutoff, h);
    if h in b && h.table in {Membership, Grant, Mapping} {
      UserPhaseTakes(b, cutoff, h);
      assert GoesWithUser(b, cutoff, h) <==> GoesWithUser(db, cutoff, h);
    }
  }

  lemma UnreferencedIsUnheld(db: Db, role: Ref)
    ensures RoleUnreferenced(db, role) <==> forall h <- db :: !Holds(db, h, role)
  {
  }

  /** A role is free after a sweep exactly if only memberships of due users held it. */
  lemma RoleFreeAfter(db: Db, cutoff: int, role: Ref)
    ensures RoleUnreferenced(Sweep(db, cutoff), role) <==> OnlyDueHolders(db, cutoff, role)
  {
    var after := Sweep(db, cutoff);
    UnreferencedIsUnheld(after, role);
    hide Sweep, RoleUnreferenced, GoesWithUser;
    forall h ensures Holds(after, h, role) <==> Holds(db, h, role) && !GoesWithUser(db, cutoff, h) {
      HolderAfter(db, cutoff, h, role);
    }
  }

  /** The group phase finds the roles as they were. */
  lemma RoleFreeInPhase(db: Db, cutoff: int, role: Ref)
    ensures RoleUnreferenced(Phase1(db, cutoff), role) <==> RoleUnreferenced(db, role)
  {
    var a := Phase1(db, cutoff);
    UnreferencedIsUnheld(a, role);
    UnreferencedIsUnheld(db, role);
    hide Phase1, RoleUnreferenced;
    forall h ensures Holds(a, h, role) <==> Holds(db, h, role) {
      ThroughPhases(db, cutoff, h);
    }
  }

  lemma TaskPhaseTakes(db: Db, cutoff: int, t: Ref)
    requires t in db && t.table.Task?
    ensures t in Phase1(db, cutoff) <==> !Due(db, Task, cutoff, t)
  {
  }

  /** A group is free of tasks after a sweep, and in its group phase, exactly if all were due. */
  lemma TasksAfter(db: Db, cutoff: int, group: Ref)
    ensures RefersFrom(Phase1(db, cutoff), {Task}, group) <==> !OnlyDueTasks(db, cutoff, group)
    ensures RefersFrom(Sweep(db, cutoff), {Task}, group) <==> !OnlyDueTasks(db, cutoff, group)
  {
    var a, after := Phase1(db, cutoff), Sweep(db, cutoff);
    hide Sweep, Phase1, Due;
    forall t: Ref | t.table.Task?
      ensures t in a <==> t in db && !Due(db, Task, cutoff, t)
      ensures t in a ==> a[t].refs == db[t].refs
      ensures t in after <==> t in a
      ensures t in after ==> after[t].refs == db[t].refs
    {
      ThroughPhases(db, cutoff, t);
      if t in db {
        TaskPhaseTakes(db, cutoff, t);
      }
    }
  }

  /* ---------- What is free after a sweep, and what was free before ---------- */

  lemma GroupFreeInPhase(db: Db, cutoff: int, g: Ref)
    ensures GroupFree(Phase1(db, cutoff), g) <==>
            OnlyDueTasks(db, cutoff, g) && forall r <- db :: RoleOf(db, r, g) ==> RoleUnreferenced(db, r)
  {
    var a := Phase1(db, cutoff);
    TasksAfter(db, cutoff, g);
    hide Phase1, RoleUnreferenced, OnlyDueTasks, RefersFrom;
    forall r
      ensures RoleOf(a, r, g) <==> RoleOf(db, r, g)
      ensures RoleUnreferenced(a, r) <==> RoleUnreferenced(db, r)
    {
      ThroughPhases(db, cutoff, r);
      RoleFreeInPhase(db, cutoff, r);
    }
    assert GroupFree(a, g) <==>
           !RefersFrom(a, {Task}, g) && forall r <- a :: RoleOf(a, r, g) ==> RoleUnreferenced(a, r);
  }

  /** A role that the group phase takes was unreferenced, so nothing holds it at all. */
  lemma TakenRole(db: Db, cutoff: int, r: Ref)
    requires r in db && r.table.Role? && r !in Sweep(db, cutoff)
    ensures OnlyDueHolders(db, cutoff, r)
  {
    hide *;
    ThroughPhases(db, cutoff, r);
    SecondPhase(db, cutoff);
    TakenRoleUnreferenced(Phase1(db, cutoff), cutoff, r);
    RoleFreeInPhase(db, cutoff, r);
    UnheldIsOnlyDue(db, cutoff, r);
  }

  lemma SecondPhase(db: Db, cutoff: int)
    ensures Phase2(db, cutoff) == SweepGroups(Phase1(db, cutoff), cutoff)
  {
  }

  lemma UnheldIsOnlyDue(db: Db, cutoff: int, r: Ref)
    requires RoleUnreferenced(db, r)
    ensures OnlyDueHolders(db, cutoff, r)
  {
    UnreferencedIsUnheld(db, r);
  }

  lemma GroupFreeAfter(db: Db, cutoff: int, g: Ref)
    ensures GroupFree(Sweep(db, cutoff), g) <==>
            OnlyDueTasks(db, cutoff, g) && forall r <- db :: RoleOf(db, r, g) ==> OnlyDueHolders(db, cutoff, r)
  {
    var after := Sweep(db, cutoff);
    TasksAfter(db, cutoff, g);
    hide Sweep, RoleUnreferenced, OnlyDueTasks, OnlyDueHolders, RefersFrom;
    forall r
      ensures RoleOf(after, r, g) ==> RoleOf(db, r, g)
      ensures RoleOf(db, r, g) && r !in after ==> OnlyDueHolders(db, cutoff, r)
      ensures RoleOf(db, r, g) && r in after ==> RoleOf(after, r, g)
      ensures RoleUnreferenced(after, r) <==> OnlyDueHolders(db, cutoff, r)
    {
      ThroughPhases(db, cutoff, r);
      RoleFreeAfter(db, cutoff, r);
      if RoleOf(db, r, g) && r !in after {
        TakenRole(db, cutoff, r);
      }
    }
    assert GroupFree(after, g) <==>
           !RefersFrom(after, {Task}, g) && forall r <- after :: RoleOf(after, r, g) ==> RoleUnreferenced(after, r);
  }

  /** The group phase takes a due group or standalone role exactly if it is free. */
  lemma GroupPhaseTakes(db: Db, cutoff: int, x: Ref)
    requires x in db
    ensures Due(db, Division, cutoff, x) || Due(db, Team, cutoff, x) ==>
              (x in SweepGroups(db, cutoff) <==> !GroupFree(db, x))
    ensures Due(db, Role, cutoff, x) && Standalone(db, x) ==>
              (x in SweepGroups(db, cutoff) <==> !RoleUnreferenced(db, x))
  {
    hide GroupFree, RoleUnreferenced, PastGrace;
  }

  /** What a group phase would take: a due group or standalone role that nothing needs. */
  predicate Takes(db: Db, cutoff: int, x: Ref) {
    || ((Due(db, Division, cutoff, x) || Due(db, Team, cutoff, x)) && GroupFree(db, x))
    || (Due(db, Role, cutoff, x) && Standalone(db, x) && RoleUnreferenced(db, x))
  }

  lemma GroupPhaseIdleIff(db: Db, cutoff: int)
    ensures SweepGroups(db, cutoff) == db <==> forall x <- db :: !Takes(db, cutoff, x)
  {
    hide GroupFree, RoleUnreferenced, PastGrace;
    if forall x <- db :: !Takes(db, cutoff, x) {
      assert DueGroups(db, Division, cutoff) == {} && DueGroups(db, Team, cutoff) == {};
      assert DueRoles(db, cutoff) == {};
      assert CollectedGroups(db, cutoff) == {};
    } else {
      var x :| x in db && Takes(db, cutoff, x);
      GroupPhaseTakes(db, cutoff, x);
      assert x !in SweepGroups(db, cutoff);
    }
  }

  /* ---------- The exact condition ---------- */

  lemma SameFacts(db: Db, cutoff: int, x: Ref)
    requires x in db && x.table in {Division, Team, Role}
    ensures var a := Phase1(db, cutoff);
            && x in a && (forall t :: Due(a, t, cutoff, x) <==> Due(db, t, cutoff, x))
            && (Standalone(a, x) <==> Standalone(db, x))
    ensures var after := Sweep(db, cutoff);
            && (x in after <==> x in SweepGroups(Phase1(db, cutoff), cutoff))
            && (x in after ==> forall t :: Due(after, t, cutoff, x) <==> Due(db, t, cutoff, x))
            && (x in after ==> (Standalone(after, x) <==> Standalone(db, x)))
  {
    hide Sweep, Phase1, PastGrace, SweepGroups;
    ThroughPhases(db, cutoff, x);
  }

  /** After a sweep a group phase would take exactly what waited. */
  lemma TakesAfterIff(db: Db, cutoff: int, x: Ref)
    ensures (x in Sweep(db, cutoff) && Takes(Sweep(db, cutoff), cutoff, x)) <==> (x in db && Waiting(db, cutoff, x))
  {
    hide Sweep, Phase1, Phase2, PastGrace, GroupFree, RoleUnreferenced, OnlyDueTasks, OnlyDueHolders, SweepGroups;
    ThroughPhases(db, cutoff, x);
    if x in db && x.table in {Division, Team, Role} {
      SameFacts(db, cutoff, x);
      GroupPhaseTakes(Phase1(db, cutoff), cutoff, x);
      GroupFreeInPhase(db, cutoff, x);
      GroupFreeAfter(db, cutoff, x);
      RoleFreeInPhase(db, cutoff, x);
      RoleFreeAfter(db, cutoff, x);
    }
  }

  /**
   * One sweep settles a database exactly if nothing in it waits: no due role, division or team
   * is kept back by nothing but memberships of users that the same sweep purges.
   */
  lemma OneSweepSettlesIff(db: Db, cutoff: int)
    ensures Sweep(Sweep(db, cutoff), cutoff) == Sweep(db, cutoff) <==> forall x <- db :: !Waiting(db, cutoff, x)
  {
    var once := Sweep(db, cutoff);
    hide Sweep, SweepGroups, Takes, Waiting;
    TwoSweepsSettle(db, cutoff);
    GroupPhaseIdleIff(once, cutoff);
    forall x ensures (x in once && Takes(once, cutoff, x)) <==> (x in db && Waiting(db, cutoff, x)) {
      TakesAfterIff(db, cutoff, x);
    }
  }
}
