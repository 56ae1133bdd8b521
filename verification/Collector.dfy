/** The collection service: transactions of delete statements, and the sweep that runs them. */
module Collector {
  import opened Common
  import opened Gc
  import opened GcSteps
  import opened GcLoops
  import GcResults
  import GcOneSweep
  import GcRows

  /** What a sweep reports; `blocked` lists the deletes that a foreign key refused. */
  datatype Report = Report(
    tasks: set<Ref>, divisions: set<Ref>, teams: set<Ref>, roles: set<Ref>,
    usersScrubbed: set<Ref>, usersDeleted: set<Ref>, connections: set<Ref>, blocked: set<Ref>)

  class Collector {
    var db: Db

    constructor (rows: Db)
      ensures db == rows
    {
      db := rows;
    }

    /** One `delete` or `deleteMany`: refused as a whole when a surviving row names a deleted one. */
    method Delete(rows: set<Ref>) returns (ok: bool)
      modifies this
      ensures ok <==> !Blocked(old(db), rows)
      ensures db == if ok then Without(old(db), Cascaded(old(db), rows)) else old(db)
    {
      ok := !Blocked(db, rows);
      if ok {
        db := Without(db, Cascaded(db, rows));
      }
    }

    /**
     * Deletes a task with its whole aggregate in one transaction: attachments, messages,
     * submissions with their answers, claims, the template with its questions, the task.
     */
    method DeleteTaskAggregate(task: Ref) returns (ok: bool)
      modifies this
      ensures !ok ==> db == old(db)
      ensures Intact(old(db)) && Coherent(old(db)) && task.table.Task? && task in old(db) ==>
                ok && db == Without(old(db), Aggregate(old(db), {task}))
    {
      hide *;
      ghost var was := db;
      ghost var sound := Intact(was) && Coherent(was) && task.table.Task? && task in was;
      var before := db;
      var files := Files(db, task);
      db := Unthreaded(db, task);
      FirstStage(was, task);
      if sound { StatementRuns(was, task, 0, files); }
      ok := Delete(files);
      if ok {
        SelectedIs(db, task);
        if sound { StatementRuns(was, task, 1, Children(db, Message, task)); }
        ok := Delete(Children(db, Message, task));
      }
      if ok {
        SelectedIs(db, task);
        if sound { StatementRuns(was, task, 2, Children(db, Submission, task)); }
        ok := Delete(Children(db, Submission, task));
      }
      if ok {
        SelectedIs(db, task);
        if sound { StatementRuns(was, task, 3, Children(db, Claim, task)); }
        ok := Delete(Children(db, Claim, task));
      }
      if ok {
        SelectedIs(db, task);
        if sound { StatementRuns(was, task, 4, Children(db, Template, task)); }
        ok := Delete(Children(db, Template, task));
      }
      if ok {
        SelectedIs(db, task);
        if sound { StatementRuns(was, task, 5, {task}); }
        ok := Delete({task});
      }
      if !ok {
        db := before;
      }
      if sound { AllGone(was, task); }
    }

    /** Owned children first: the division's template, its inherent role, then the division. */
    method DeleteDivision(division: Ref) returns (ok: bool)
      modifies this
      ensures !ok ==> db == old(db)
      ensures Collectable(old(db), division) ==> ok && db == Without(old(db), GroupRows(old(db), {division}))
    {
      hide *;
      ghost var was := db;
      ghost var sound := Collectable(was, division);
      var before := db;
      if sound { GroupStatements(was, division); }
      ok := Delete(Children(db, Template, division));
      if ok {
        ok := Delete(Children(db, Role, division));
      }
      if ok {
        ok := Delete({division});
      }
      if !ok {
        db := before;
      }
    }

    method DeleteTeam(team: Ref) returns (ok: bool)
      modifies this
      ensures !ok ==> db == old(db)
      ensures Collectable(old(db), team) && team.table.Team? ==>
              ok && db == Without(old(db), GroupRows(old(db), {team}))
    {
      hide *;
      ghost var was := db;
      ghost var sound := Collectable(was, team) && team.table.Team?;
      var before := db;
      if sound {
        TeamsHaveNoTemplate(was, team);
        GroupStatements(was, team);
      }
      ok := Delete(Children(db, Role, team));
      if ok {
        ok := Delete({team});
      }
      if !ok {
        db := before;
      }
    }

    method DeleteStandaloneRole(role: Ref) returns (ok: bool)
      modifies this
      ensures !ok ==> db == old(db)
      ensures Intact(old(db)) && role.table.Role? && role in old(db) && RoleUnreferenced(old(db), role) ==>
                ok && db == Without(old(db), {role})
    {
      hide *;
      if Intact(db) && role.table.Role? && role in db && RoleUnreferenced(db, role) {
        RoleStatement(db, role);
      }
      ok := Delete({role});
    }

    method DeleteConnection(connection: Ref) returns (ok: bool)
      modifies this
      ensures !ok ==> db == old(db)
      ensures Intact(old(db)) && connection.table.Connection? && connection in old(db)
              && ConnectionFree(old(db), connection) ==>
                ok && db == Without(old(db), ConnectionRows(old(db), {connection}))
    {
      hide *;
      if Intact(db) && connection.table.Connection? && connection in db && ConnectionFree(db, connection) {
        ConnectionStatement(db, connection);
      }
      ok := Delete({connection});
    }

    /**
     * The satellites of a user: sign-in rows, memberships, links, and the baselines of the linked
     * accounts, whose ids are read before the links go.
     */
    method PurgeUserSatellites(user: Ref) returns (ok: bool)
      modifies this
      ensures Intact(old(db)) ==> ok && db == Without(old(db), Satellites(old(db), {user}))
    {
      hide *;
      ghost var was := db;
      ghost var sound := Intact(was);
      var baselines := set r | r in db && IsBaselineOf(db, r, {user});
      if sound { PurgeStatements(was, user, baselines); }
      ok := Delete(Children(db, Personal, user));
      if ok { ok := Delete(Children(db, Membership, user)); }
      if ok { ok := Delete(Children(db, Link, user)); }
      if ok { ok := Delete(baselines); }
    }

    /** A user with history becomes a tombstone: satellites purged, e-mail cleared, row kept. */
    method ScrubUser(user: Ref) returns (ok: bool)
      modifies this
      ensures !ok ==> db == old(db)
      ensures Intact(old(db)) && user.table.User? ==>
                ok && db == Scrub(Without(old(db), Satellites(old(db), {user})), {user})
    {
      hide *;
      var before := db;
      ok := PurgeUserSatellites(user);
      if ok {
        db := Scrub(db, {user});
      } else {
        db := before;
      }
    }

    /** A user without history goes entirely. */
    method DeleteUser(user: Ref) returns (ok: bool)
      modifies this
      ensures !ok ==> db == old(db)
      ensures Intact(old(db)) && user.table.User? && user in old(db) && !HasHistory(old(db), user) ==>
                ok && db == Without(old(db), Satellites(old(db), {user}) + UserRows(old(db), {user}))
    {
      hide *;
      ghost var was := db;
      ghost var sound := Intact(was) && user.table.User? && user in was && !HasHistory(was, user);
      var before := db;
      if sound { UsesStatement(was, user); }
      ok := Delete(Children(db, InvitationUse, user));
      if ok { ok := PurgeUserSatellites(user); }
      if sound { UserStatement(was, user); }
      if ok { ok := Delete({user}); }
      if !ok { db := before; }
    }

    method SweepTasks(cutoff: int) returns (collected: set<Ref>, blocked: set<Ref>)
      requires Intact(db) && Coherent(db)
      modifies this
      ensures db == Gc.SweepTasks(old(db), cutoff)
      ensures collected == DueTasks(old(db), cutoff) && blocked == {}
    {
      hide *;
      ghost var was := db;
      var due := DueTasks(db, cutoff);
      DueAreTasks(was, cutoff);
      var left := due;
      collected, blocked := {}, {};
      NoneRemoved(was);
      while left != {}
        invariant left !! collected && left + collected == due && blocked == {}
        invariant db == Without(was, Aggregate(was, collected))
        decreases |left|
      {
        var task :| task in left;
        TaskReady(was, due, collected, task);
        var ok := DeleteTaskAggregate(task);
        NextTaskGone(was, due, collected, task);
        left := left - {task};
        if ok {
          collected := collected + {task};
        } else {
          blocked := blocked + {task};
        }
      }
      assert collected == due;
      SweepTasksIs(was, cutoff);
    }

    method CollectDivisions(due: set<Ref>, cutoff: int) returns (divisions: set<Ref>, blocked: set<Ref>)
      requires Intact(db) && Coherent(db) && due == DueGroups(db, Division, cutoff)
      modifies this
      ensures db == Without(old(db), GroupRows(old(db), due)) && divisions == due && blocked == {}
    {
      hide *;
      ghost var was := db;
      divisions, blocked := {}, {};
      NoneRemoved(was);
      var left := due;
      while left != {}
        invariant left !! divisions && left + divisions == due && blocked == {}
        invariant db == Without(was, GroupRows(was, divisions))
        decreases |left|
      {
        var d :| d in left;
        DivisionReady(was, cutoff, due, divisions, d);
        var ok := DeleteDivision(d);
        left := left - {d};
        if ok { divisions := divisions + {d}; } else { blocked := blocked + {d}; }
      }
      assert divisions == due;
    }

    method CollectTeams(due: set<Ref>, cutoff: int, ghost was: Db) returns (teams: set<Ref>, blocked: set<Ref>)
      requires Intact(was) && Coherent(was) && due == DueGroups(was, Team, cutoff)
      requires db == Without(was, GroupRows(was, DueGroups(was, Division, cutoff)))
      modifies this
      ensures db == Without(was, GroupRows(was, DueGroups(was, Division, cutoff)) + GroupRows(was, due))
      ensures teams == due && blocked == {}
    {
      hide *;
      ghost var gone := GroupRows(was, DueGroups(was, Division, cutoff));
      teams, blocked := {}, {};
      StartTeams(was, gone);
      var left := due;
      while left != {}
        invariant left !! teams && left + teams == due && blocked == {}
        invariant db == Without(was, gone + GroupRows(was, teams))
        decreases |left|
      {
        var t :| t in left;
        GroupReady(was, cutoff, gone, due, teams, t);
        var ok := DeleteTeam(t);
        left := left - {t};
        if ok { teams := teams + {t}; } else { blocked := blocked + {t}; }
      }
      assert teams == due;
    }

    method CollectRoles(due: set<Ref>, cutoff: int, ghost was: Db) returns (roles: set<Ref>, blocked: set<Ref>)
      requires Intact(was) && Coherent(was) && due == DueRoles(was, cutoff)
      requires db == Without(was, GroupRows(was, DueGroups(was, Division, cutoff))
               + GroupRows(was, DueGroups(was, Team, cutoff)))
      modifies this
      ensures db == Gc.SweepGroups(was, cutoff) && roles == due && blocked == {}
    {
      hide *;
      ghost var gone := GroupRows(was, DueGroups(was, Division, cutoff)) + GroupRows(was, DueGroups(was, Team, cutoff));
      roles, blocked := {}, {};
      assert gone + roles == gone;
      var left := due;
      while left != {}
        invariant left !! roles && left + roles == due && blocked == {}
        invariant db == Without(was, gone + roles)
        decreases |left|
      {
        var r :| r in left;
        RoleReady(was, cutoff, roles, r);
        var ok := DeleteStandaloneRole(r);
        WithoutTwice(was, gone + roles, {r});
        assert gone + roles + {r} == gone + (roles + {r});
        left := left - {r};
        if ok { roles := roles + {r}; } else { blocked := blocked + {r}; }
      }
      assert roles == due;
      SweepGroupsIs(was, cutoff);
    }

    /** The groups and roles found collectable when the phase starts, one after the other. */
    method SweepGroups(cutoff: int) returns (divisions: set<Ref>, teams: set<Ref>, roles: set<Ref>, blocked: set<Ref>)
      requires Intact(db) && Coherent(db)
      modifies this
      ensures db == Gc.SweepGroups(old(db), cutoff)
      ensures divisions == DueGroups(old(db), Division, cutoff) && teams == DueGroups(old(db), Team, cutoff)
      ensures roles == DueRoles(old(db), cutoff) && blocked == {}
    {
      hide *;
      ghost var was := db;
      var dueDivisions := DueGroups(db, Division, cutoff);
      var dueTeams := DueGroups(db, Team, cutoff);
      var dueRoles := DueRoles(db, cutoff);
      var more, others;
      divisions, blocked := CollectDivisions(dueDivisions, cutoff);
      teams, more := CollectTeams(dueTeams, cutoff, was);
      roles, others := CollectRoles(dueRoles, cutoff, was);
      blocked := blocked + more + others;
    }

    method ScrubUsers(users: set<Ref>, cutoff: int) returns (scrubbed: set<Ref>, blocked: set<Ref>)
      requires Intact(db) && users <= DueUsers(db, cutoff)
      modifies this
      ensures db == Tombstones(old(db), users, {}) && scrubbed == users && blocked == {}
    {
      hide *;
      ghost var was := db;
      scrubbed, blocked := {}, {};
      NoUsersYet(was);
      var left := users;
      while left != {}
        invariant left !! scrubbed && left + scrubbed == users && blocked == {}
        invariant db == Tombstones(was, scrubbed, {})
        decreases |left|
      {
        var u :| u in left;
        UserReady(was, cutoff, scrubbed, {}, u);
        NextScrub(was, cutoff, scrubbed, u);
        var ok := ScrubUser(u);
        left := left - {u};
        if ok { scrubbed := scrubbed + {u}; } else { blocked := blocked + {u}; }
      }
      assert scrubbed == users;
    }

    method DeleteUsers(users: set<Ref>, cutoff: int, ghost was: Db, ghost scrubbed: set<Ref>)
      returns (deleted: set<Ref>, blocked: set<Ref>)
      requires Intact(was) && users <= DueUsers(was, cutoff) && scrubbed <= DueUsers(was, cutoff) && users !! scrubbed
      requires forall u <- users :: !HasHistory(was, u)
      requires db == Tombstones(was, scrubbed, {})
      modifies this
      ensures db == Tombstones(was, scrubbed, users) && deleted == users && blocked == {}
    {
      hide *;
      deleted, blocked := {}, {};
      var left := users;
      while left != {}
        invariant left !! deleted && left + deleted == users && blocked == {}
        invariant db == Tombstones(was, scrubbed, deleted)
        decreases |left|
      {
        var u :| u in left;
        assert u in users && deleted <= users && u !in deleted;
        UserReady(was, cutoff, scrubbed, deleted, u);
        NextDelete(was, cutoff, scrubbed, deleted, u);
        var ok := DeleteUser(u);
        left := left - {u};
        if ok { deleted := deleted + {u}; } else { blocked := blocked + {u}; }
      }
      assert deleted == users;
    }

    /** Users past grace: those with authored history are scrubbed, the others deleted. */
    method SweepUsers(cutoff: int) returns (scrubbed: set<Ref>, deleted: set<Ref>, blocked: set<Ref>)
      requires Intact(db)
      modifies this
      ensures db == Gc.SweepUsers(old(db), cutoff) && blocked == {}
      ensures scrubbed == (set u | u in DueUsers(old(db), cutoff) && HasHistory(old(db), u))
      ensures deleted == DueUsers(old(db), cutoff) - scrubbed
    {
      hide *;
      ghost var was := db;
      var scrub := set u | u in DueUsers(db, cutoff) && HasHistory(db, u);
      var remove := DueUsers(db, cutoff) - scrub;
      var more;
      scrubbed, blocked := ScrubUsers(scrub, cutoff);
      deleted, more := DeleteUsers(remove, cutoff, was, scrub);
      blocked := blocked + more;
      SweepUsersIs(was, cutoff, scrub, remove);
    }

    method SweepConnections(cutoff: int) returns (collected: set<Ref>, blocked: set<Ref>)
      requires Intact(db)
      modifies this
      ensures db == Gc.SweepConnections(old(db), cutoff)
      ensures collected == DueConnections(old(db), cutoff) && blocked == {}
    {
      hide *;
      ghost var was := db;
      var due := DueConnections(db, cutoff);
      collected, blocked := {}, {};
      NoneRemoved(was);
      var left := due;
      while left != {}
        invariant left !! collected && left + collected == due && blocked == {}
        invariant db == Without(was, ConnectionRows(was, collected))
        decreases |left|
      {
        var c :| c in left;
        ConnectionReady(was, cutoff, collected, c);
        var ok := DeleteConnection(c);
        left := left - {c};
        if ok { collected := collected + {c}; } else { blocked := blocked + {c}; }
      }
      assert collected == due;
      SweepConnectionsIs(was, cutoff);
    }

    /** Tasks, then groups and roles, then users, then connections; nothing is ever blocked. */
    method Sweep(cutoff: int) returns (report: Report)
      requires Intact(db) && Coherent(db)
      modifies this
      ensures Intact(db) && Coherent(db)
      ensures db == Gc.Sweep(old(db), cutoff)
      ensures report.blocked == {}
      ensures report.tasks == GcRows.Vanished(old(db), db, Task)
      ensures report.divisions == GcRows.Vanished(old(db), db, Division)
      ensures report.teams == GcRows.Vanished(old(db), db, Team)
      ensures report.roles == set r | r in GcRows.Vanished(old(db), db, Role) && old(db)[r].refs == {}
      ensures report.usersDeleted == GcRows.Vanished(old(db), db, User)
      ensures report.usersScrubbed == set u | GcRows.Over(old(db), cutoff, User, u) && u in db
      ensures report.connections == GcRows.Vanished(old(db), db, Connection)
    {
      hide *;
      ghost var was := db;
      var tasks, b0 := SweepTasks(cutoff);
      GcResults.PhasesKeep(was, cutoff);
      ghost var a := db;
      var divisions, teams, roles, b1 := SweepGroups(cutoff);
      GcResults.PhasesKeep(a, cutoff);
      GcResults.PhasesKeep(db, cutoff);
      var scrubbed, deleted, b2 := SweepUsers(cutoff);
      var connections, b3 := SweepConnections(cutoff);
      report := Report(tasks, divisions, teams, roles, scrubbed, deleted, connections, b0 + b1 + b2 + b3);
      GcResults.SweepIs(was, cutoff);
      GcResults.SweepKeepsIntegrity(was, cutoff);
      PhasesNamed(was, cutoff);
      GcRows.TasksReported(was, cutoff);
      GcRows.GroupsReported(was, cutoff);
      GcRows.RolesReported(was, cutoff);
      GcRows.UsersReported(was, cutoff);
      GcRows.ConnectionsReported(was, cutoff);
      GoneIsVanished(was, cutoff);
    }

    /** Blobs without an attachment row are removed from the store, all others kept. */
    method ReconcileOrphanedBlobs(store: set<string>) returns (kept: set<string>, removed: nat)
      ensures kept == set k | k in store && exists r <- db :: r.table.Attachment? && db[r].key == k
      ensures removed == |store| - |kept|
    {
      var known := set r | r in db && r.table.Attachment? :: db[r].key;
      kept := store;
      removed := 0;
      var keys := store;
      while keys != {}
        invariant keys <= store && kept == (set k | k in store && (k in keys || k in known))
                  && removed == |store| - |kept|
        decreases |keys|
      {
        var k :| k in keys;
        keys := keys - {k};
        if k !in known {
          kept := kept - {k};
          removed := removed + 1;
        }
      }
    }
  }

  /** The users scrubbed and deleted so far. */
  function Tombstones(db: Db, scrubbed: set<Ref>, deleted: set<Ref>): Db {
    Scrub(Without(db, Satellites(db, scrubbed + deleted) + UserRows(db, deleted)), scrubbed)
  }

  lemma DueAreUsers(db: Db, cutoff: int)
    ensures forall u <- DueUsers(db, cutoff) :: u.table.User? && u in db
  {
  }

  lemma NoUsersYet(db: Db)
    ensures Tombstones(db, {}, {}) == db
  {
  }

  /** A due user is still there at its turn, with the history it had. */
  lemma UserReady(db: Db, cutoff: int, scrubbed: set<Ref>, deleted: set<Ref>, u: Ref)
    requires Intact(db) && u in DueUsers(db, cutoff) && u !in deleted
    requires scrubbed <= DueUsers(db, cutoff) && deleted <= DueUsers(db, cutoff)
    requires forall x <- deleted :: !HasHistory(db, x)
    ensures var cur := Tombstones(db, scrubbed, deleted);
            Intact(cur) && u.table.User? && u in cur && (!HasHistory(db, u) ==> !HasHistory(cur, u))
  {
    DueAreUsers(db, cutoff);
    var gone := Satellites(db, scrubbed + deleted) + UserRows(db, deleted);
    UsersUnreferred(db, scrubbed + deleted, deleted);
    SatellitesAreLeaves(db, scrubbed + deleted);
    assert u !in gone;
    hide Satellites, UserRows, HasHistory, Unreferred;
    StillIntact(db, gone, scrubbed);
    HistoryShrinks(db, gone, scrubbed, u);
  }

  lemma StillIntact(db: Db, gone: set<Ref>, scrubbed: set<Ref>)
    requires Intact(db) && Unreferred(db, gone)
    ensures Intact(Scrub(Without(db, gone), scrubbed))
  {
    var cur := Scrub(Without(db, gone), scrubbed);
    assert forall r: Ref, t: Ref :: Refers(cur, r, t) ==> Refers(db, r, t) && r !in gone;
    assert forall r: Ref | r in db && r !in gone :: r in cur;
    hide Scrub, Without;
  }

  lemma HistoryShrinks(db: Db, gone: set<Ref>, scrubbed: set<Ref>, u: Ref)
    ensures HasHistory(Scrub(Without(db, gone), scrubbed), u) ==> HasHistory(db, u)
  {
  }

  /** One more user, from the state in which some are done. */
  lemma SatellitesNext(db: Db, scrubbed: set<Ref>, deleted: set<Ref>, u: Ref, r: Ref)
    requires (forall x <- scrubbed :: x.table.User?) && forall x <- deleted :: x.table.User?
    requires r in db
    ensures var gone := Satellites(db, scrubbed + deleted) + UserRows(db, deleted);
            r in Satellites(db, scrubbed + deleted + {u}) + UserRows(db, deleted) <==>
            r in gone || r in Satellites(Tombstones(db, scrubbed, deleted), {u})
  {
  }

  lemma ScrubMore(db: Db, gone: set<Ref>, more: set<Ref>, scrubbed: set<Ref>, u: Ref)
    ensures Scrub(Without(Scrub(Without(db, gone), scrubbed), more), {u}) ==
            Scrub(Without(db, gone + more), scrubbed + {u})
  {
  }

  lemma SameWithout(db: Db, gone: set<Ref>, gone': set<Ref>)
    requires forall r | r in db :: r in gone <==> r in gone'
    ensures Without(db, gone) == Without(db, gone')
  {
  }

  lemma NextScrub(db: Db, cutoff: int, scrubbed: set<Ref>, u: Ref)
    requires scrubbed <= DueUsers(db, cutoff) && u in DueUsers(db, cutoff)
    ensures var cur := Tombstones(db, scrubbed, {});
            Scrub(Without(cur, Satellites(cur, {u})), {u}) == Tombstones(db, scrubbed + {u}, {})
  {
    DueAreUsers(db, cutoff);
    var cur := Tombstones(db, scrubbed, {});
    var gone := Satellites(db, scrubbed + {}) + UserRows(db, {});
    var gone' := Satellites(db, scrubbed + {u} + {}) + UserRows(db, {});
    assert scrubbed + {} + {u} == scrubbed + {u} + {};
    forall r | r in db ensures r in gone' <==> r in gone + Satellites(cur, {u}) {
      SatellitesNext(db, scrubbed, {}, u, r);
    }
    hide Satellites, UserRows, DueUsers, Scrub, Without;
    SameWithout(db, gone', gone + Satellites(cur, {u}));
    ScrubMore(db, gone, Satellites(cur, {u}), scrubbed, u);
  }

  lemma NextDelete(db: Db, cutoff: int, scrubbed: set<Ref>, deleted: set<Ref>, u: Ref)
    requires scrubbed <= DueUsers(db, cutoff) && deleted <= DueUsers(db, cutoff) && u in DueUsers(db, cutoff)
    requires u !in scrubbed
    ensures var cur := Tombstones(db, scrubbed, deleted);
            Without(cur, Satellites(cur, {u}) + UserRows(cur, {u})) == Tombstones(db, scrubbed, deleted + {u})
  {
    DueAreUsers(db, cutoff);
    var cur := Tombstones(db, scrubbed, deleted);
    var gone := Satellites(db, scrubbed + deleted) + UserRows(db, deleted);
    var more := Satellites(db, scrubbed + (deleted + {u})) + UserRows(db, deleted + {u});
    assert scrubbed + (deleted + {u}) == scrubbed + deleted + {u};
    forall r | r in db
      ensures r in more <==> r in gone || r in Satellites(cur, {u}) + UserRows(cur, {u})
    {
      SatellitesNext(db, scrubbed, deleted, u, r);
      UserRowsNext(db, scrubbed, deleted, u, r);
    }
    hide Satellites, UserRows, DueUsers;
  }

  lemma UserRowsNext(db: Db, scrubbed: set<Ref>, deleted: set<Ref>, u: Ref, r: Ref)
    requires r in db
    ensures var gone := Satellites(db, scrubbed + deleted) + UserRows(db, deleted);
            r in gone || (r in UserRows(db, deleted + {u}) <==> r in UserRows(Tombstones(db, scrubbed, deleted), {u}))
    ensures r in UserRows(db, deleted) ==> r in UserRows(db, deleted + {u})
  {
  }

  lemma SweepUsersIs(db: Db, cutoff: int, scrub: set<Ref>, remove: set<Ref>)
    requires scrub == (set u | u in DueUsers(db, cutoff) && HasHistory(db, u)) && remove == DueUsers(db, cutoff) - scrub
    ensures Gc.SweepUsers(db, cutoff) == Tombstones(db, scrub, remove)
  {
    var due := DueUsers(db, cutoff);
    var bare := set u | u in due && !HasHistory(db, u);
    hide HasHistory, DueUsers;
    assert bare == remove && due - bare == scrub && scrub + remove == due;
  }

  lemma ConnectionReady(db: Db, cutoff: int, done: set<Ref>, c: Ref)
    requires Intact(db) && done <= DueConnections(db, cutoff) && c in DueConnections(db, cutoff) && c !in done
    ensures var cur := Without(db, ConnectionRows(db, done));
            && Intact(cur) && c.table.Connection? && c in cur && ConnectionFree(cur, c)
            && Without(cur, ConnectionRows(cur, {c})) == Without(db, ConnectionRows(db, done + {c}))
  {
    var gone := ConnectionRows(db, done);
    var cur := Without(db, gone);
    assert (forall x <- done :: x.table.Connection? && ConnectionFree(db, x)) && c.table.Connection?
           && ConnectionFree(db, c) by {
      hide ConnectionFree, PastGrace;
    }
    ConnectionsUnreferred(db, done);
    assert Intact(cur);
    assert c in cur;
    hide Intact, Unreferred, DueConnections;
    forall r | r in db ensures r in ConnectionRows(db, done + {c}) <==> r in gone || r in ConnectionRows(cur, {c}) {
      NamesUnion(db, r, done, {c});
      assert r !in gone ==> (Names(cur, r, {c}) <==> Names(db, r, {c}));
    }
  }

  lemma SweepConnectionsIs(db: Db, cutoff: int)
    ensures Gc.SweepConnections(db, cutoff) == Without(db, ConnectionRows(db, DueConnections(db, cutoff)))
  {
  }

  lemma DueAreTasks(db: Db, cutoff: int)
    ensures forall t <- DueTasks(db, cutoff) :: t.table.Task? && t in db
  {
  }

  lemma NoneRemoved(db: Db)
    ensures Without(db, Aggregate(db, {})) == db
    ensures Without(db, GroupRows(db, {})) == db
    ensures Without(db, Satellites(db, {}) + UserRows(db, {})) == db
    ensures Without(db, ConnectionRows(db, {})) == db
  {
  }

  /** A due task is still there, in a database still sound, when its turn comes. */
  lemma TaskReady(db: Db, due: set<Ref>, done: set<Ref>, task: Ref)
    requires Intact(db) && Coherent(db) && done <= due && task in due && task !in done
    requires forall t <- due :: t.table.Task? && t in db
    ensures var cur := Without(db, Aggregate(db, done)); Intact(cur) && Coherent(cur) && task in cur && task.table.Task?
  {
    hide InAggregate, Intact, Coherent, Unreferred;
    AggregateUnreferred(db, done);
    RemovalKeeps(db, Aggregate(db, done));
    assert !InAggregate(db, task, done) by { TasksOnlyThemselves(db, done, task); }
  }

  lemma TasksOnlyThemselves(db: Db, done: set<Ref>, task: Ref)
    requires task.table.Task? && task !in done
    ensures !InAggregate(db, task, done)
  {
  }

  lemma NextTaskGone(db: Db, due: set<Ref>, done: set<Ref>, task: Ref)
    requires Intact(db) && Coherent(db) && done <= due && forall t <- due :: t.table.Task? && t in db
    ensures var cur := Without(db, Aggregate(db, done));
            Without(cur, Aggregate(cur, {task})) == Without(db, Aggregate(db, done + {task}))
  {
    hide Intact, Coherent, InAggregate, Unreferred;
    AggregateUnreferred(db, done);
    NextTask(db, done, task);
  }

  lemma SweepTasksIs(db: Db, cutoff: int)
    ensures Gc.SweepTasks(db, cutoff) == Without(db, Aggregate(db, DueTasks(db, cutoff)))
  {
  }

  lemma DueAreGroups(db: Db, cutoff: int)
    ensures forall g <- DueGroups(db, Division, cutoff) :: g.table.Division? && g in db && GroupFree(db, g)
    ensures forall g <- DueGroups(db, Team, cutoff) :: g.table.Team? && g in db && GroupFree(db, g)
    ensures forall r <- DueRoles(db, cutoff) :: r.table.Role? && r in db && RoleUnreferenced(db, r) && Standalone(db, r)
  {
  }

  /** A due group is still collectable at its turn, and goes as it would have gone at the start. */
  lemma GroupReady(db: Db, cutoff: int, gone: set<Ref>, due: set<Ref>, done: set<Ref>, g: Ref)
    requires Intact(db) && Coherent(db) && done <= due && g in due && g !in done
    requires gone == {} || (gone == GroupRows(db, DueGroups(db, Division, cutoff))
             && due == DueGroups(db, Team, cutoff))
    requires due == DueGroups(db, Division, cutoff) || due == DueGroups(db, Team, cutoff)
    ensures var cur := Without(db, gone + GroupRows(db, done));
            Collectable(cur, g) && Without(cur, GroupRows(cur, {g})) == Without(db, gone + GroupRows(db, done + {g}))
    ensures due == DueGroups(db, Team, cutoff) ==> g.table.Team?
  {
    DueAreGroups(db, cutoff);
    hide Intact, Coherent, GroupFree, GroupRows, DueGroups, Unreferred, Without, Collectable;
    GroupUnreferred(db, DueGroups(db, Division, cutoff));
    GroupUnreferred(db, done);
    var all := gone + GroupRows(db, done);
    assert Unreferred(db, all) by {
      if gone == {} {
        assert all == GroupRows(db, done);
      } else {
        UnreferredUnion(db, gone, GroupRows(db, done));
      }
    }
    RemovalKeeps(db, all);
    StillFree(db, all, g);
    NextGroup(db, gone, done, g);
    GroupStillThere(db, cutoff, gone, due, done, g);
    assert Collectable(Without(db, all), g) by { CollectableIs(Without(db, all), g); }
  }

  lemma CollectableIs(db: Db, g: Ref)
    requires Intact(db) && Coherent(db) && g in db && (g.table.Division? || g.table.Team?) && GroupFree(db, g)
    ensures Collectable(db, g)
  {
  }

  lemma GroupStillThere(db: Db, cutoff: int, gone: set<Ref>, due: set<Ref>, done: set<Ref>, g: Ref)
    requires done <= due && g in due && g !in done
    requires gone == {} || (gone == GroupRows(db, DueGroups(db, Division, cutoff))
             && due == DueGroups(db, Team, cutoff))
    requires due == DueGroups(db, Division, cutoff) || due == DueGroups(db, Team, cutoff)
    ensures g in Without(db, gone + GroupRows(db, done))
  {
  }

  /** With nothing else gone yet, a due division is ready at its turn. */
  lemma DivisionReady(db: Db, cutoff: int, due: set<Ref>, done: set<Ref>, d: Ref)
    requires Intact(db) && Coherent(db) && done <= due && d in due && d !in done
    requires due == DueGroups(db, Division, cutoff)
    ensures var cur := Without(db, GroupRows(db, done));
            Collectable(cur, d) && Without(cur, GroupRows(cur, {d})) == Without(db, GroupRows(db, done + {d}))
  {
    hide *;
    GroupReady(db, cutoff, {}, due, done, d);
    NothingElse({}, GroupRows(db, done));
    NothingElse({}, GroupRows(db, done + {d}));
  }

  lemma NothingElse(gone: set<Ref>, rows: set<Ref>)
    requires gone == {}
    ensures gone + rows == rows
  {
  }

  lemma StartTeams(db: Db, gone: set<Ref>)
    ensures Without(db, {} + gone) == Without(db, gone + GroupRows(db, {}))
  {
  }

  lemma RoleReady(db: Db, cutoff: int, done: set<Ref>, r: Ref)
    requires Intact(db) && Coherent(db) && r in DueRoles(db, cutoff) && r !in done && done <= DueRoles(db, cutoff)
    ensures var gone := GroupRows(db, DueGroups(db, Division, cutoff)) + GroupRows(db, DueGroups(db, Team, cutoff));
            var cur := Without(db, gone + done);
            Intact(cur) && r.table.Role? && r in cur && RoleUnreferenced(cur, r)
  {
    DueAreGroups(db, cutoff);
    StandaloneStays(db, cutoff, r);
    hide Intact, Coherent, GroupFree, GroupRows, DueGroups, DueRoles, Unreferred, RoleUnreferenced, Standalone;
    var divisions, teams := GroupRows(db, DueGroups(db, Division, cutoff)), GroupRows(db, DueGroups(db, Team, cutoff));
    GroupUnreferred(db, DueGroups(db, Division, cutoff));
    GroupUnreferred(db, DueGroups(db, Team, cutoff));
    RolesUnreferred(db, done);
    UnreferredUnion(db, divisions, teams);
    UnreferredUnion(db, divisions + teams, done);
    RemovalKeeps(db, divisions + teams + done);
    StillFree(db, divisions + teams + done, r);
  }

  /** A standalone role is in no group. */
  lemma StandaloneStays(db: Db, cutoff: int, r: Ref)
    requires r in DueRoles(db, cutoff)
    ensures r !in GroupRows(db, DueGroups(db, Division, cutoff)) && r !in GroupRows(db, DueGroups(db, Team, cutoff))
  {
  }

  lemma SweepGroupsIs(db: Db, cutoff: int)
    ensures Gc.SweepGroups(db, cutoff) ==
            Without(db, GroupRows(db, DueGroups(db, Division, cutoff)) + GroupRows(db, DueGroups(db, Team, cutoff))
                + DueRoles(db, cutoff))
  {
  }

  ghost predicate Collectable(db: Db, group: Ref) {
    Intact(db) && Coherent(db) && group in db && (group.table.Division? || group.table.Team?) && GroupFree(db, group)
  }

  lemma FirstStage(db: Db, task: Ref)
    ensures Unthreaded(db, task) == Stage(db, task, GoneBefore(db, task, 0))
  {
  }

  lemma SelectedIs(cur: Db, task: Ref)
    ensures Selected(cur, task, 1) == Children(cur, Message, task)
    ensures Selected(cur, task, 2) == Children(cur, Submission, task)
    ensures Selected(cur, task, 3) == Children(cur, Claim, task)
    ensures Selected(cur, task, 4) == Children(cur, Template, task)
    ensures Selected(cur, task, 5) == {task}
  {
  }

  /** A statement that names exactly an unreferred part removes it. */
  lemma PartGoes(db: Db, gone: set<Ref>, rows: set<Ref>, part: set<Ref>)
    requires Unreferred(Without(db, gone), part) && Cascaded(Without(db, gone), rows) == part * Without(db, gone).Keys
    ensures !Blocked(Without(db, gone), rows)
    ensures Without(Without(db, gone), Cascaded(Without(db, gone), rows)) == Without(db, gone + part)
  {
  }

  /** The three statements of a group, one after the other. */
  lemma GroupStatements(db: Db, group: Ref)
    requires Collectable(db, group)
    ensures !Blocked(db, Children(db, Template, group))
    ensures var b := Without(db, Cascaded(db, Children(db, Template, group)));
            && !Blocked(b, Children(b, Role, group))
            && var c := Without(b, Cascaded(b, Children(b, Role, group)));
            !Blocked(c, {group}) && Without(c, Cascaded(c, {group})) == Without(db, GroupRows(db, {group}))
  {
    GroupParts(db, group);
    TemplatesCascade(db, group);
    var templates, roles := TemplateRows(db, group), Children(db, Role, group);
    assert Without(db, {}) == db && {} + templates == templates;
    assert templates * db.Keys == templates;
    hide Collectable, Unreferred, Blocked, TemplateRows, GroupRows;
    PartGoes(db, {}, Children(db, Template, group), templates);
    var b := Without(db, templates);
    LaterParts(db, group, templates);
    PartGoes(db, templates, Children(b, Role, group), roles);
    PartGoes(db, templates + roles, {group}, {group});
  }

  lemma LaterParts(db: Db, group: Ref, templates: set<Ref>)
    requires group.table.Division? || group.table.Team?
    ensures var b := Without(db, templates); Cascaded(b, Children(b, Role, group)) == Children(db, Role, group) * b.Keys
    ensures var c := Without(db, templates + Children(db, Role, group)); Cascaded(c, {group}) == {group} * c.Keys
  {
  }

  lemma TeamsHaveNoTemplate(db: Db, team: Ref)
    requires Collectable(db, team) && team.table.Team?
    ensures Children(db, Template, team) == {}
    ensures Without(db, Cascaded(db, Children(db, Template, team))) == db
  {
    NoTeamTemplates(db, team);
    hide Collectable, Children;
    NothingCascades(db);
  }

  lemma NoTeamTemplates(db: Db, team: Ref)
    requires Intact(db) && team.table.Team?
    ensures Children(db, Template, team) == {}
  {
    forall r | r in db && r.table.Template? ensures team !in db[r].refs {
      assert Refers(db, r, team) ==> team.table in Targets(r.table);
    }
  }

  lemma NothingCascades(db: Db)
    ensures Without(db, Cascaded(db, {})) == db
  {
  }

  lemma RoleStatement(db: Db, role: Ref)
    requires Intact(db) && role.table.Role? && role in db && RoleUnreferenced(db, role)
    ensures !Blocked(db, {role}) && Without(db, Cascaded(db, {role})) == Without(db, {role})
  {
    RolesUnreferred(db, {role});
    assert Cascaded(db, {role}) == {role};
    NotBlocked(db, {role});
  }

  lemma ConnectionStatement(db: Db, c: Ref)
    requires Intact(db) && c.table.Connection? && c in db && ConnectionFree(db, c)
    ensures !Blocked(db, {c}) && Cascaded(db, {c}) == ConnectionRows(db, {c})
  {
    ConnectionsUnreferred(db, {c});
    hide Unreferred, ConnectionFree, Intact;
    forall r | r in db ensures r in Cascaded(db, {c}) <==> r in ConnectionRows(db, {c}) {
      NamesOne(db, r, c);
    }
    NotBlocked(db, {c});
  }

  /** Deleting leaves removes exactly the rows named. */
  lemma LeavesGo(db: Db, gone: set<Ref>, rows: set<Ref>)
    requires Intact(db) && (forall r <- rows :: Leaf(r.table)) && forall r <- gone :: Leaf(r.table)
    ensures var cur := Without(db, gone);
            !Blocked(cur, rows) && Without(cur, Cascaded(cur, rows)) == Without(db, gone + rows)
  {
    var cur := Without(db, gone);
    assert Intact(cur) by {
      forall r, t | Refers(cur, r, t) ensures t in cur && t.table in Targets(r.table) {
        assert Refers(db, r, t);
      }
    }
    LeavesUnreferred(cur, rows);
  }

  lemma PurgeStatements(db: Db, user: Ref, baselines: set<Ref>)
    requires Intact(db) && baselines == set r | r in db && IsBaselineOf(db, r, {user})
    ensures !Blocked(db, Children(db, Personal, user))
    ensures var b := Without(db, Cascaded(db, Children(db, Personal, user)));
            && !Blocked(b, Children(b, Membership, user))
            && var c := Without(b, Cascaded(b, Children(b, Membership, user)));
            && !Blocked(c, Children(c, Link, user))
            && var d := Without(c, Cascaded(c, Children(c, Link, user)));
            !Blocked(d, baselines) && Without(d, Cascaded(d, baselines)) == Without(db, Satellites(db, {user}))
  {
    var p, m, l := Children(db, Personal, user), Children(db, Membership, user), Children(db, Link, user);
    assert Without(db, {}) == db && {} + p == p;
    ChildrenStay(db, user, p, m);
    forall r | r in db ensures r in p + m + l + baselines <==> r in Satellites(db, {user}) {
      NamesOne(db, r, user);
    }
    assert Without(db, p + m + l + baselines) == Without(db, Satellites(db, {user}));
    hide Intact, Blocked, Cascaded, IsBaselineOf, Satellites, Without;
    LeavesGo(db, {}, p);
    LeavesGo(db, p, m);
    LeavesGo(db, p + m, l);
    LeavesGo(db, p + m + l, baselines);
  }

  lemma ChildrenStay(db: Db, user: Ref, p: set<Ref>, m: set<Ref>)
    requires (forall r <- p :: r.table == Personal) && forall r <- m :: r.table == Membership
    ensures Children(Without(db, p), Membership, user) == Children(db, Membership, user)
    ensures Children(Without(db, p + m), Link, user) == Children(db, Link, user)
  {
  }

  lemma UsesStatement(db: Db, user: Ref)
    requires Intact(db)
    ensures var uses := Children(db, InvitationUse, user);
            && !Blocked(db, uses) && Without(db, Cascaded(db, uses)) == Without(db, uses)
            && Intact(Without(db, uses)) && Satellites(Without(db, uses), {user}) == Satellites(db, {user})
  {
    var uses := Children(db, InvitationUse, user);
    assert Without(db, {}) == db && {} + uses == uses;
    LeavesGo(db, {}, uses);
    var cur := Without(db, uses);
    assert Intact(cur) by {
      forall r, t | Refers(cur, r, t) ensures t in cur && t.table in Targets(r.table) {
        assert Refers(db, r, t);
      }
    }
    SameSatellites(db, uses, user);
  }

  lemma SameSatellites(db: Db, uses: set<Ref>, user: Ref)
    requires forall r <- uses :: r.table == InvitationUse
    ensures Satellites(Without(db, uses), {user}) == Satellites(db, {user})
  {
  }

  lemma UserStatement(db: Db, user: Ref)
    requires Intact(db) && user.table.User? && user in db && !HasHistory(db, user)
    ensures var uses := Children(db, InvitationUse, user);
            var cur := Without(Without(db, uses), Satellites(db, {user}));
            && !Blocked(cur, {user})
            && Without(cur, Cascaded(cur, {user})) == Without(db, Satellites(db, {user}) + UserRows(db, {user}))
  {
    var uses, sat := Children(db, InvitationUse, user), Satellites(db, {user});
    UsersUnreferred(db, {user}, {user});
    WithoutTwice(db, uses, sat);
    forall r | r in db ensures r in UserRows(db, {user}) <==> r in uses + {user} {
      NamesOne(db, r, user);
    }
    hide Intact, HasHistory, Satellites, UserRows, Children;
    var gone := uses + sat;
    LastPart(db, gone, user, sat + UserRows(db, {user}));
  }

  lemma LastPart(db: Db, gone: set<Ref>, user: Ref, all: set<Ref>)
    requires user in db && user.table.User? && Unreferred(db, all)
    requires forall r | r in db :: r in all <==> r in gone || r == user
    ensures var cur := Without(db, gone);
            !Blocked(cur, {user}) && Without(cur, Cascaded(cur, {user})) == Without(db, all)
  {
    PartUnreferredUser(db, gone, user, all);
    var cur := Without(db, gone);
    assert Cascaded(cur, {user}) == {user} * cur.Keys;
    hide Unreferred, Blocked;
    PartGoes(db, gone, {user}, {user});
  }

  lemma PartUnreferredUser(db: Db, gone: set<Ref>, user: Ref, all: set<Ref>)
    requires Unreferred(db, all) && user in db && forall r | r in db :: r in all <==> r in gone || r == user
    ensures Unreferred(Without(db, gone), {user})
  {
  }

  lemma PhasesNamed(db: Db, cutoff: int)
    ensures var a := Gc.SweepTasks(db, cutoff);
            var b := Gc.SweepGroups(a, cutoff);
            && a == GcOneSweep.Phase1(db, cutoff) && b == GcOneSweep.Phase2(db, cutoff)
            && Gc.SweepUsers(b, cutoff) == GcOneSweep.Phase3(db, cutoff)
  {
  }

  lemma GoneIsVanished(db: Db, cutoff: int)
    ensures forall t :: GcRows.Gone(db, cutoff, t) == GcRows.Vanished(db, Gc.Sweep(db, cutoff), t)
  {
  }
}
