/** What a sweep removes, row by row, told from the rows before it. */
module GcRows {
  import opened Common
  import opened Gc
  import opened GcResults
  import opened GcOneSweep

  /* ---------- Which rows go ---------- */

  /** A row of the table, retired before the cutoff. */
  predicate Over(db: Db, cutoff: int, table: Table, r: Ref) {
    && r in db && r.table == table
    && db[r].life.state == Retired && db[r].life.retiredAt.Some? && db[r].life.retiredAt.value < cutoff
  }

  /** Messages, submissions and claims go with a task that is over. */
  predicate OfOverTask(db: Db, cutoff: int, r: Ref) { r in db && exists t <- db[r].refs :: Over(db, cutoff, Task, t) }

  predicate AnswerGoes(db: Db, cutoff: int, r: Ref) {
    r in db && exists s <- db[r].refs :: s.table == Submission && OfOverTask(db, cutoff, s)
  }

  /** An attachment goes with its message or its answer. */
  predicate AttachmentGoes(db: Db, cutoff: int, r: Ref) {
    r in db && exists m <- db[r].refs ::
      (m.table == Message && OfOverTask(db, cutoff, m)) || (m.table == Answer && AnswerGoes(db, cutoff, m))
  }

  predicate HoldsRole(db: Db, h: Ref, role: Ref) {
    h in db && (h.table == Membership || h.table == Grant || h.table == Mapping) && role in db[h].refs
  }

  /** A division or team that is over, with only tasks that are over and roles that nothing references. */
  predicate GroupGoes(db: Db, cutoff: int, g: Ref) {
    && (Over(db, cutoff, Division, g) || Over(db, cutoff, Team, g))
    && (forall t <- db :: t.table == Task && g in db[t].refs ==> Over(db, cutoff, Task, t))
    && (forall r <- db :: r.table == Role && g in db[r].refs ==> forall h <- db :: !HoldsRole(db, h, r))
  }

  /** An inherent role goes with its group, any other when it is over and nothing references it. */
  predicate RoleGoes(db: Db, cutoff: int, r: Ref) {
    && r in db
    && ((exists g <- db[r].refs :: GroupGoes(db, cutoff, g))
        || (Over(db, cutoff, Role, r) && db[r].refs == {} && forall h <- db :: !HoldsRole(db, h, r)))
  }

  predicate TemplateGoes(db: Db, cutoff: int, r: Ref) {
    OfOverTask(db, cutoff, r) || (r in db && exists g <- db[r].refs :: GroupGoes(db, cutoff, g))
  }

  predicate QuestionGoes(db: Db, cutoff: int, r: Ref) {
    r in db && exists p <- db[r].refs :: p.table == Template && TemplateGoes(db, cutoff, p)
  }

  /** Sign-in rows, memberships and links go with a user that is over, tombstone or not. */
  predicate OfOverUser(db: Db, cutoff: int, r: Ref) { r in db && exists u <- db[r].refs :: Over(db, cutoff, User, u) }

  predicate ContentGoes(db: Db, cutoff: int, r: Ref) {
    match r.table
    case Task => Over(db, cutoff, Task, r)
    case Message => OfOverTask(db, cutoff, r)
    case Submission => OfOverTask(db, cutoff, r)
    case Claim => OfOverTask(db, cutoff, r)
    case Answer => AnswerGoes(db, cutoff, r)
    case Attachment => AttachmentGoes(db, cutoff, r)
    case _ => false
  }

  /** A user that is over goes if all that it has written or claimed goes. */
  predicate UserGoes(db: Db, cutoff: int, u: Ref) {
    && Over(db, cutoff, User, u)
    && forall r <- db :: r.table in {Message, Submission, Task, Attachment, Claim} && u in db[r].refs ==>
         ContentGoes(db, cutoff, r)
  }

  predicate ConnectionGoes(db: Db, cutoff: int, c: Ref) {
    && Over(db, cutoff, Connection, c)
    && forall l <- db :: (l.table == Link || l.table == Mapping) && c in db[l].refs ==>
         l.table == Link && OfOverUser(db, cutoff, l)
  }

  /** A link of a user that is over has the row's external id, on the row's connection. */
  predicate AccountGoes(db: Db, cutoff: int, b: Ref) {
    && b in db
    && exists l <- db :: l.table == Link && OfOverUser(db, cutoff, l) && db[l].key == db[b].key
                         && exists c <- db[l].refs :: c.table == Connection && c in db[b].refs
  }

  predicate BaselineGoes(db: Db, cutoff: int, r: Ref) {
    AccountGoes(db, cutoff, r) || (r in db && exists c <- db[r].refs :: ConnectionGoes(db, cutoff, c))
  }

  predicate Goes(db: Db, cutoff: int, r: Ref) {
    match r.table
    case Division => GroupGoes(db, cutoff, r)
    case Team => GroupGoes(db, cutoff, r)
    case Role => RoleGoes(db, cutoff, r)
    case Template => TemplateGoes(db, cutoff, r)
    case Question => QuestionGoes(db, cutoff, r)
    case User => UserGoes(db, cutoff, r)
    case InvitationUse => r in db && exists u <- db[r].refs :: UserGoes(db, cutoff, u)
    case Personal => OfOverUser(db, cutoff, r)
    case Membership => OfOverUser(db, cutoff, r)
    case Link => OfOverUser(db, cutoff, r)
    case Baseline => BaselineGoes(db, cutoff, r)
    case Connection => ConnectionGoes(db, cutoff, r)
    case _ => ContentGoes(db, cutoff, r)
  }

  /* ---------- The task phase ---------- */

  predicate TasksTake(db: Db, cutoff: int, r: Ref) {
    match r.table
    case Template => OfOverTask(db, cutoff, r)
    case Question => r in db && exists p <- db[r].refs :: p.table == Template && OfOverTask(db, cutoff, p)
    case _ => ContentGoes(db, cutoff, r)
  }

  lemma DueIsOver(db: Db, cutoff: int, r: Ref)
    ensures r in DueTasks(db, cutoff) <==> Over(db, cutoff, Task, r)
    ensures r in DueUsers(db, cutoff) <==> Over(db, cutoff, User, r)
    ensures forall t :: Due(db, t, cutoff, r) <==> Over(db, cutoff, t, r)
  {
  }

  lemma NamesOver(db: Db, cutoff: int, r: Ref)
    ensures Names(db, r, DueTasks(db, cutoff)) <==> OfOverTask(db, cutoff, r)
    ensures Names(db, r, DueUsers(db, cutoff)) <==> OfOverUser(db, cutoff, r)
  {
    hide DueTasks, DueUsers, Over;
    forall t ensures t in DueTasks(db, cutoff) <==> Over(db, cutoff, Task, t)
             ensures t in DueUsers(db, cutoff) <==> Over(db, cutoff, User, t)
    {
      DueIsOver(db, cutoff, t);
    }
  }

  lemma NamesViaOver(db: Db, cutoff: int, r: Ref)
    ensures NamesVia(db, r, Submission, DueTasks(db, cutoff)) <==> AnswerGoes(db, cutoff, r)
    ensures NamesVia(db, r, Template, DueTasks(db, cutoff)) <==>
            r in db && exists p <- db[r].refs :: p.table == Template && OfOverTask(db, cutoff, p)
    ensures NamesVia(db, r, Message, DueTasks(db, cutoff)) <==>
            r in db && exists m <- db[r].refs :: m.table == Message && OfOverTask(db, cutoff, m)
  {
    hide Names, OfOverTask;
    forall s ensures Names(db, s, DueTasks(db, cutoff)) <==> OfOverTask(db, cutoff, s) {
      NamesOver(db, cutoff, s);
    }
  }

  lemma FileGoes(db: Db, cutoff: int, r: Ref)
    requires r.table == Attachment
    ensures IsTaskFile(db, r, DueTasks(db, cutoff)) <==> AttachmentGoes(db, cutoff, r)
  {
    NamesViaOver(db, cutoff, r);
    hide NamesVia, OfOverTask, AnswerGoes;
    forall a ensures NamesVia(db, a, Submission, DueTasks(db, cutoff)) <==> AnswerGoes(db, cutoff, a) {
      NamesViaOver(db, cutoff, a);
    }
  }

  lemma AggregateIs(db: Db, cutoff: int, r: Ref)
    requires r in db
    ensures InAggregate(db, r, DueTasks(db, cutoff)) <==> TasksTake(db, cutoff, r)
  {
    hide DueTasks, Names, NamesVia, AnswerGoes, AttachmentGoes, OfOverTask, IsTaskFile, Over;
    DueIsOver(db, cutoff, r);
    OverTable(db, cutoff, r);
    FilesAreAttachments(db, cutoff, r);
    match r.table
    case Task =>
    case Answer => NamesViaOver(db, cutoff, r);
    case Question => NamesViaOver(db, cutoff, r);
    case Attachment => FileGoes(db, cutoff, r);
    case _ => NamesOver(db, cutoff, r);
  }

  lemma FilesAreAttachments(db: Db, cutoff: int, r: Ref)
    ensures IsTaskFile(db, r, DueTasks(db, cutoff)) ==> r.table == Attachment
  {
  }

  lemma TaskPhaseIs(db: Db, cutoff: int, r: Ref)
    ensures r in Phase1(db, cutoff) <==> r in db && !TasksTake(db, cutoff, r)
    ensures r in Phase1(db, cutoff) ==> Phase1(db, cutoff)[r] == db[r]
  {
    assert r in Phase1(db, cutoff) <==> r in db && !InAggregate(db, r, DueTasks(db, cutoff));
    hide InAggregate, TasksTake;
    if r in db {
      AggregateIs(db, cutoff, r);
    }
  }

  /* ---------- The group phase ---------- */

  lemma UnheldIs(db: Db, role: Ref)
    ensures RoleUnreferenced(db, role) <==> forall h <- db :: !HoldsRole(db, h, role)
  {
  }

  lemma GroupGoesIs(db: Db, cutoff: int, g: Ref)
    ensures var a := Phase1(db, cutoff);
            g in DueGroups(a, Division, cutoff) + DueGroups(a, Team, cutoff) <==> GroupGoes(db, cutoff, g)
  {
    var a := Phase1(db, cutoff);
    GroupFreeInPhase(db, cutoff, g);
    SameDue(db, cutoff, g);
    DueIsOver(db, cutoff, g);
    OnlyDueTasksIs(db, cutoff, g);
    DueGroupsAre(a, cutoff, g);
    hide Phase1, GroupFree, RoleUnreferenced, HoldsRole, Over, Due, DueGroups, OnlyDueTasks;
    forall r ensures RoleUnreferenced(db, r) <==> forall h <- db :: !HoldsRole(db, h, r) {
      UnheldIs(db, r);
    }
    assert (forall r <- db :: RoleOf(db, r, g) ==> RoleUnreferenced(db, r)) <==>
           forall r <- db :: r.table == Role && g in db[r].refs ==> forall h <- db :: !HoldsRole(db, h, r);
  }

  lemma SameDue(db: Db, cutoff: int, g: Ref)
    ensures forall t | t in {Division, Team, Role} :: Due(Phase1(db, cutoff), t, cutoff, g) <==> Due(db, t, cutoff, g)
  {
    hide Phase1;
    ThroughPhases(db, cutoff, g);
  }

  lemma OnlyDueTasksIs(db: Db, cutoff: int, g: Ref)
    ensures OnlyDueTasks(db, cutoff, g) <==>
            forall t <- db :: t.table == Task && g in db[t].refs ==> Over(db, cutoff, Task, t)
  {
  }

  lemma DueGroupsAre(db: Db, cutoff: int, g: Ref)
    ensures g in DueGroups(db, Division, cutoff) + DueGroups(db, Team, cutoff) <==>
            (Due(db, Division, cutoff, g) || Due(db, Team, cutoff, g)) && GroupFree(db, g)
    ensures g in DueGroups(db, Division, cutoff) ==> g.table == Division
    ensures g in DueGroups(db, Team, cutoff) ==> g.table == Team
  {
    hide GroupFree;
  }

  predicate NamesGoingGroup(db: Db, cutoff: int, r: Ref) {
    r in db && exists g <- db[r].refs :: GroupGoes(db, cutoff, g)
  }

  predicate GroupsTake(db: Db, cutoff: int, r: Ref) {
    match r.table
    case Division => GroupGoes(db, cutoff, r)
    case Team => GroupGoes(db, cutoff, r)
    case Role => RoleGoes(db, cutoff, r)
    case Template => NamesGoingGroup(db, cutoff, r)
    case Question =>
      r in db && exists p <- db[r].refs ::
        p.table == Template && p in Phase1(db, cutoff) && NamesGoingGroup(db, cutoff, p)
    case _ => false
  }

  lemma GroupsAre(db: Db, cutoff: int, groups: set<Ref>, r: Ref)
    requires forall g :: g in groups <==> GroupGoes(db, cutoff, g)
    requires r in Phase1(db, cutoff)
    ensures Names(Phase1(db, cutoff), r, groups) <==> NamesGoingGroup(db, cutoff, r)
  {
    TaskPhaseIs(db, cutoff, r);
    hide Phase1, GroupGoes;
  }

  lemma GroupIsGroup(db: Db, cutoff: int, g: Ref)
    ensures GroupGoes(db, cutoff, g) ==> g.table == Division || g.table == Team
  {
  }

  /** What is in one of the collected groups. */
  lemma InCollected(db: Db, cutoff: int, groups: set<Ref>, r: Ref)
    requires forall g :: g in groups <==> GroupGoes(db, cutoff, g)
    requires r in Phase1(db, cutoff)
    ensures InGroup(Phase1(db, cutoff), r, groups) <==>
            if r.table == Role then NamesGoingGroup(db, cutoff, r) else GroupsTake(db, cutoff, r)
  {
    var a := Phase1(db, cutoff);
    TaskPhaseIs(db, cutoff, r);
    GroupIsGroup(db, cutoff, r);
    GroupsAre(db, cutoff, groups, r);
    hide Phase1, GroupGoes, RoleGoes, Names, NamesGoingGroup;
    if r.table == Question {
      forall p ensures Names(a, p, groups) <==> p in a && NamesGoingGroup(db, cutoff, p) {
        if p in a {
          GroupsAre(db, cutoff, groups, p);
        } else {
          assert !Names(a, p, groups) by { OutsideNames(a, p, groups); }
        }
      }
    }
  }

  lemma OutsideNames(db: Db, r: Ref, targets: set<Ref>)
    ensures r !in db ==> !Names(db, r, targets)
  {
  }

  lemma InEither(db: Db, r: Ref, a: set<Ref>, b: set<Ref>)
    ensures InGroup(db, r, a) || InGroup(db, r, b) <==> InGroup(db, r, a + b)
  {
    NamesEither(db, r, a, b);
    hide Names;
    forall p ensures Names(db, p, a) || Names(db, p, b) <==> Names(db, p, a + b) {
      NamesEither(db, p, a, b);
    }
  }

  lemma NamesEither(db: Db, r: Ref, a: set<Ref>, b: set<Ref>)
    ensures Names(db, r, a) || Names(db, r, b) <==> Names(db, r, a + b)
  {
  }

  lemma DueRoleGoes(db: Db, cutoff: int, r: Ref)
    requires r in Phase1(db, cutoff)
    ensures r in DueRoles(Phase1(db, cutoff), cutoff) || (r.table == Role && NamesGoingGroup(db, cutoff, r)) <==>
            r.table == Role && RoleGoes(db, cutoff, r)
  {
    TaskPhaseIs(db, cutoff, r);
    RoleFreeInPhase(db, cutoff, r);
    UnheldIs(db, r);
    hide Phase1, RoleUnreferenced, HoldsRole, GroupGoes;
  }

  lemma GroupPhaseIs(db: Db, cutoff: int, r: Ref)
    ensures r in Phase2(db, cutoff) <==> r in Phase1(db, cutoff) && !GroupsTake(db, cutoff, r)
    ensures r in Phase2(db, cutoff) ==> Phase2(db, cutoff)[r] == db[r]
  {
    var a := Phase1(db, cutoff);
    var divisions, teams := DueGroups(a, Division, cutoff), DueGroups(a, Team, cutoff);
    assert r in Phase2(db, cutoff) <==>
           r in a && !InGroup(a, r, divisions) && !InGroup(a, r, teams) && r !in DueRoles(a, cutoff);
    TaskPhaseIs(db, cutoff, r);
    assert r in Phase2(db, cutoff) ==> Phase2(db, cutoff)[r] == a[r];
    assert r in DueRoles(a, cutoff) ==> r.table == Role;
    hide Phase1, Phase2, InGroup, DueGroups, DueRoles, GroupGoes, RoleGoes, NamesGoingGroup;
    forall g ensures g in divisions + teams <==> GroupGoes(db, cutoff, g) {
      GroupGoesIs(db, cutoff, g);
    }
    if r in a {
      InEither(a, r, divisions, teams);
      InCollected(db, cutoff, divisions + teams, r);
      DueRoleGoes(db, cutoff, r);
    }
  }

  /* ---------- The user phase ---------- */

  predicate Content(t: Table) { t in {Message, Submission, Task, Attachment, Claim, Answer} }

  /** Content that does not go with a task is there for the rest of the sweep. */
  lemma ContentStays(db: Db, cutoff: int, r: Ref)
    requires Content(r.table)
    ensures r in Phase2(db, cutoff) <==> r in db && !ContentGoes(db, cutoff, r)
  {
    TaskPhaseIs(db, cutoff, r);
    GroupPhaseIs(db, cutoff, r);
    hide Phase1, Phase2, ContentGoes;
  }

  lemma HistoryIs(db: Db, cutoff: int, u: Ref)
    ensures u in DueUsers(db, cutoff) && !HasHistory(Phase2(db, cutoff), u) <==> UserGoes(db, cutoff, u)
  {
    var b := Phase2(db, cutoff);
    DueIsOver(db, cutoff, u);
    hide Phase2, ContentGoes, Over, DueUsers;
    forall r: Ref | r.table in {Message, Submission, Task, Attachment, Claim}
      ensures r in b <==> r in db && !ContentGoes(db, cutoff, r)
      ensures r in b ==> b[r] == db[r]
    {
      ContentStays(db, cutoff, r);
      GroupPhaseIs(db, cutoff, r);
    }
  }

  /** The task and group phases leave links alone, and every row's foreign keys and key. */
  lemma LinksStay(db: Db, cutoff: int, l: Ref)
    requires l.table in {Link, Baseline, Personal, Membership, InvitationUse, User, Connection, Mapping, Grant}
    ensures l in Phase2(db, cutoff) <==> l in db
    ensures l in db ==> Phase2(db, cutoff)[l] == db[l]
  {
    TaskPhaseIs(db, cutoff, l);
    GroupPhaseIs(db, cutoff, l);
    hide Phase1, Phase2;
  }

  lemma NamesOverLater(db: Db, cutoff: int, r: Ref)
    requires r.table in {Link, Baseline, Personal, Membership, InvitationUse, User, Connection, Mapping, Grant}
    ensures Names(Phase2(db, cutoff), r, DueUsers(db, cutoff)) <==> OfOverUser(db, cutoff, r)
  {
    LinksStay(db, cutoff, r);
    NamesOver(db, cutoff, r);
    hide Phase2, DueUsers, OfOverUser;
  }

  lemma AccountGoesIs(db: Db, cutoff: int, r: Ref)
    requires r.table == Baseline
    ensures IsBaselineOf(Phase2(db, cutoff), r, DueUsers(db, cutoff)) <==> AccountGoes(db, cutoff, r)
  {
    LinksStay(db, cutoff, r);
    hide Phase2, Names, OfOverUser, DueUsers;
    forall l: Ref | l.table == Link
      ensures l in Phase2(db, cutoff) <==> l in db
      ensures l in db ==> Phase2(db, cutoff)[l] == db[l]
      ensures Names(Phase2(db, cutoff), l, DueUsers(db, cutoff)) <==> OfOverUser(db, cutoff, l)
    {
      LinksStay(db, cutoff, l);
      NamesOverLater(db, cutoff, l);
    }
  }

  predicate UsersTake(db: Db, cutoff: int, r: Ref) {
    match r.table
    case User => UserGoes(db, cutoff, r)
    case InvitationUse => r in db && exists u <- db[r].refs :: UserGoes(db, cutoff, u)
    case Personal => OfOverUser(db, cutoff, r)
    case Membership => OfOverUser(db, cutoff, r)
    case Link => OfOverUser(db, cutoff, r)
    case Baseline => AccountGoes(db, cutoff, r)
    case _ => false
  }

  lemma SatelliteIs(db: Db, cutoff: int, r: Ref)
    ensures IsSatellite(Phase2(db, cutoff), r, DueUsers(db, cutoff)) <==>
            r.table in {Personal, Membership, Link, Baseline} && UsersTake(db, cutoff, r)
  {
    hide Phase2, Names, IsBaselineOf, DueUsers, OfOverUser, AccountGoes, UserGoes;
    assert IsBaselineOf(Phase2(db, cutoff), r, DueUsers(db, cutoff)) ==> r.table == Baseline by {
      OnlyBaselines(Phase2(db, cutoff), r, DueUsers(db, cutoff));
    }
    if r.table == Baseline {
      AccountGoesIs(db, cutoff, r);
    } else if r.table in {Personal, Membership, Link} {
      NamesOverLater(db, cutoff, r);
    }
  }

  lemma OnlyBaselines(db: Db, r: Ref, users: set<Ref>)
    ensures IsBaselineOf(db, r, users) ==> r.table == Baseline
  {
  }

  lemma UserPhaseRows(db: Db, due: set<Ref>, bare: set<Ref>, r: Ref)
    ensures var after := Scrub(Without(db, Satellites(db, due) + UserRows(db, bare)), due - bare);
            && (r in after <==> r in db && !IsSatellite(db, r, due) && r !in bare
                                && !(r.table == InvitationUse && Names(db, r, bare)))
            && (r in after ==> after[r] == if r in due - bare then db[r].(key := "") else db[r])
  {
    hide IsSatellite, Names;
  }

  lemma UseGoes(db: Db, cutoff: int, r: Ref, bare: set<Ref>)
    requires forall u :: u in bare <==> UserGoes(db, cutoff, u)
    requires r in Phase2(db, cutoff) && r.table == InvitationUse
    ensures Names(Phase2(db, cutoff), r, bare) <==> exists u <- db[r].refs :: UserGoes(db, cutoff, u)
  {
    LinksStay(db, cutoff, r);
    hide Phase2, UserGoes;
  }

  lemma UsersTakeIs(db: Db, cutoff: int, r: Ref, bare: set<Ref>)
    requires forall u :: u in bare <==> UserGoes(db, cutoff, u)
    requires r in Phase2(db, cutoff)
    ensures var b := Phase2(db, cutoff);
            IsSatellite(b, r, DueUsers(db, cutoff)) || r in bare || (r.table == InvitationUse && Names(b, r, bare)) <==>
            UsersTake(db, cutoff, r)
  {
    SatelliteIs(db, cutoff, r);
    OnlyUsersGo(db, cutoff, r);
    LinksInDb(db, cutoff, r);
    hide Phase2, IsSatellite, DueUsers, OfOverUser, AccountGoes, UserGoes, Over, Names;
    if r.table == InvitationUse {
      UseGoes(db, cutoff, r, bare);
    }
  }

  lemma LinksInDb(db: Db, cutoff: int, r: Ref)
    ensures r in Phase2(db, cutoff) ==> r in db
  {
    TaskPhaseIs(db, cutoff, r);
    GroupPhaseIs(db, cutoff, r);
    hide Phase1, Phase2;
  }

  lemma UserPhaseIs(db: Db, cutoff: int, r: Ref)
    ensures r in Phase3(db, cutoff) <==> r in Phase2(db, cutoff) && !UsersTake(db, cutoff, r)
    ensures r in Phase3(db, cutoff) ==>
              Phase3(db, cutoff)[r] == if Over(db, cutoff, User, r) then db[r].(key := "") else db[r]
  {
    var b, due := Phase2(db, cutoff), DueUsers(db, cutoff);
    var bare := set u | u in due && !HasHistory(b, u);
    SameDueUsers(db, cutoff);
    assert Phase3(db, cutoff) == Scrub(Without(b, Satellites(b, due) + UserRows(b, bare)), due - bare);
    UserPhaseRows(b, due, bare, r);
    forall u ensures u in bare <==> UserGoes(db, cutoff, u) {
      hide HasHistory, UserGoes, DueUsers;
      HistoryIs(db, cutoff, u);
    }
    hide *;
    GroupPhaseIs(db, cutoff, r);
    DueIsOver(db, cutoff, r);
    OnlyUsersGo(db, cutoff, r);
    UserTakesItself(db, cutoff, r);
    if r in b {
      UsersTakeIs(db, cutoff, r, bare);
    }
  }

  lemma UserTakesItself(db: Db, cutoff: int, r: Ref)
    ensures r.table == User ==> (UsersTake(db, cutoff, r) <==> UserGoes(db, cutoff, r))
  {
  }

  lemma OnlyUsersGo(db: Db, cutoff: int, r: Ref)
    ensures UserGoes(db, cutoff, r) ==> r.table == User && Over(db, cutoff, User, r)
  {
  }

  /* ---------- The connection phase ---------- */

  predicate KeepsConnection(db: Db, cutoff: int, l: Ref, c: Ref) {
    && l in db && (l.table == Link || l.table == Mapping) && c in db[l].refs
    && !(l.table == Link && OfOverUser(db, cutoff, l))
  }

  lemma LinkAfter(db: Db, cutoff: int, l: Ref, c: Ref)
    ensures var after := Phase3(db, cutoff);
            l in after && (l.table == Link || l.table == Mapping) && c in after[l].refs <==>
            KeepsConnection(db, cutoff, l, c)
  {
    hide Phase2, Phase3, OfOverUser, UsersTake, Over;
    if l.table == Link || l.table == Mapping {
      LinksStay(db, cutoff, l);
      UserPhaseIs(db, cutoff, l);
      UsersTakeAccounts(db, cutoff, l);
      OverTable(db, cutoff, l);
    }
  }

  lemma ConnectionFreeIs(db: Db, cutoff: int, c: Ref)
    ensures ConnectionFree(Phase3(db, cutoff), c) <==> forall l <- db :: !KeepsConnection(db, cutoff, l, c)
  {
    var after := Phase3(db, cutoff);
    hide Phase3, KeepsConnection;
    forall l: Ref
      ensures l in after && (l.table == Link || l.table == Mapping) && c in after[l].refs <==>
              KeepsConnection(db, cutoff, l, c)
      ensures KeepsConnection(db, cutoff, l, c) ==> l in db
    {
      LinkAfter(db, cutoff, l, c);
      KeepersExist(db, cutoff, l, c);
    }
  }

  lemma KeepersExist(db: Db, cutoff: int, l: Ref, c: Ref)
    ensures KeepsConnection(db, cutoff, l, c) ==> l in db
  {
  }

  lemma ConnectionGoesIs(db: Db, cutoff: int, c: Ref)
    ensures c in DueConnections(Phase3(db, cutoff), cutoff) <==> ConnectionGoes(db, cutoff, c)
  {
    var after := Phase3(db, cutoff);
    ConnectionFreeIs(db, cutoff, c);
    DueIsOver(after, cutoff, c);
    OverAfter(db, cutoff, c);
    hide Phase3, ConnectionFree, OfOverUser;
  }

  lemma OverAfter(db: Db, cutoff: int, c: Ref)
    ensures Over(Phase3(db, cutoff), cutoff, Connection, c) <==> Over(db, cutoff, Connection, c)
  {
    if c.table == Connection {
      LinksStay(db, cutoff, c);
      UserPhaseIs(db, cutoff, c);
    }
    hide Phase2, Phase3;
  }

  lemma ConnectionPhaseIs(db: Db, cutoff: int, r: Ref)
    ensures var connections := DueConnections(Phase3(db, cutoff), cutoff);
            r in Sweep(db, cutoff) <==>
            r in Phase3(db, cutoff) && r !in connections
            && !(r.table == Baseline && Names(Phase3(db, cutoff), r, connections))
    ensures r in Sweep(db, cutoff) ==> Sweep(db, cutoff)[r] == Phase3(db, cutoff)[r]
  {
    SweepIs(db, cutoff);
    PhasesAre(db, cutoff);
    hide Sweep, Phase1, Phase2, Phase3, SweepTasks, SweepGroups, SweepUsers, DueConnections, Names;
  }

  /* ---------- The whole sweep ---------- */

  lemma NamesGoingConnection(db: Db, cutoff: int, r: Ref)
    requires r in db && r in Phase3(db, cutoff) && Phase3(db, cutoff)[r] == db[r]
    ensures Names(Phase3(db, cutoff), r, DueConnections(Phase3(db, cutoff), cutoff)) <==>
            exists c <- db[r].refs :: ConnectionGoes(db, cutoff, c)
  {
    hide Phase3, DueConnections, ConnectionGoes;
    forall c ensures c in DueConnections(Phase3(db, cutoff), cutoff) <==> ConnectionGoes(db, cutoff, c) {
      ConnectionGoesIs(db, cutoff, c);
    }
  }

  lemma UsersTakeAccounts(db: Db, cutoff: int, r: Ref)
    ensures r.table == Baseline ==> (UsersTake(db, cutoff, r) <==> AccountGoes(db, cutoff, r))
    ensures r.table == Link ==> (UsersTake(db, cutoff, r) <==> OfOverUser(db, cutoff, r))
    ensures r.table == Mapping || r.table == Connection ==> !UsersTake(db, cutoff, r)
  {
  }

  lemma BaselineBefore(db: Db, cutoff: int, r: Ref)
    requires r in db && r.table == Baseline
    ensures r in Phase3(db, cutoff) <==> !AccountGoes(db, cutoff, r)
    ensures r in Phase3(db, cutoff) ==> Phase3(db, cutoff)[r] == db[r]
  {
    hide *;
    LinksStay(db, cutoff, r);
    UserPhaseIs(db, cutoff, r);
    UsersTakeAccounts(db, cutoff, r);
    OverTable(db, cutoff, r);
  }

  lemma OverTable(db: Db, cutoff: int, r: Ref)
    ensures forall t :: Over(db, cutoff, t, r) ==> r.table == t
  {
  }

  lemma BaselineLeaves(db: Db, cutoff: int, r: Ref)
    requires r in db && r.table == Baseline
    ensures r in Sweep(db, cutoff) <==> !BaselineGoes(db, cutoff, r)
  {
    BaselineBefore(db, cutoff, r);
    ConnectionPhaseIs(db, cutoff, r);
    ConnectionGoesIs(db, cutoff, r);
    OnlyConnectionsGo(db, cutoff, r);
    hide Sweep, Phase3, DueConnections, AccountGoes, ConnectionGoes, Names;
    if r in Phase3(db, cutoff) {
      NamesGoingConnection(db, cutoff, r);
    }
  }

  lemma OnlyConnectionsGo(db: Db, cutoff: int, r: Ref)
    ensures ConnectionGoes(db, cutoff, r) ==> r.table == Connection
  {
  }

  lemma QuestionLeaves(db: Db, cutoff: int, r: Ref)
    requires r in db && r.table == Question
    ensures r in Phase2(db, cutoff) <==> !Goes(db, cutoff, r)
  {
    TaskPhaseIs(db, cutoff, r);
    GroupPhaseIs(db, cutoff, r);
    hide Phase1, Phase2, OfOverTask, GroupGoes;
    forall p: Ref | p.table == Template ensures p in Phase1(db, cutoff) <==> p in db && !OfOverTask(db, cutoff, p) {
      TaskPhaseIs(db, cutoff, p);
    }
    assert forall p :: OfOverTask(db, cutoff, p) ==> p in db by { OverTasksExist(db, cutoff); }
  }

  lemma OverTasksExist(db: Db, cutoff: int)
    ensures forall p :: OfOverTask(db, cutoff, p) ==> p in db
  {
  }

  /** The phases before the last, for the tables that they decide. */
  lemma OtherLeaves(db: Db, cutoff: int, r: Ref)
    requires r in db && r.table != Question && r.table != Baseline && r.table != Connection
    ensures r in Phase3(db, cutoff) <==> !Goes(db, cutoff, r)
  {
    TaskPhaseIs(db, cutoff, r);
    GroupPhaseIs(db, cutoff, r);
    UserPhaseIs(db, cutoff, r);
    hide Phase1, Phase2, Phase3, Over, OfOverTask, OfOverUser;
    hide AnswerGoes, AttachmentGoes, GroupGoes, RoleGoes, UserGoes;
  }

  /**
   * A sweep removes exactly the rows that `Goes` names, table by table, and leaves every other row
   * as it was, except that it clears the e-mail of a user that is over.
   */
  lemma SweepRemovesExactly(db: Db, cutoff: int, r: Ref)
    requires r in db
    ensures r in Sweep(db, cutoff) <==> !Goes(db, cutoff, r)
    ensures r in Sweep(db, cutoff) ==>
              Sweep(db, cutoff)[r] == if Over(db, cutoff, User, r) then db[r].(key := "") else db[r]
  {
    UserPhaseIs(db, cutoff, r);
    ConnectionPhaseIs(db, cutoff, r);
    ConnectionGoesIs(db, cutoff, r);
    OnlyConnectionsGo(db, cutoff, r);
    hide Sweep, Phase1, Phase2, Phase3, DueConnections, ConnectionGoes, Over;
    if r.table == Baseline {
      BaselineLeaves(db, cutoff, r);
    } else if r.table == Question {
      QuestionLeaves(db, cutoff, r);
    } else if r.table == Connection {
      LinksStay(db, cutoff, r);
    } else {
      hide Goes, UsersTake;
      OtherLeaves(db, cutoff, r);
    }
  }

  /* ---------- What a sweep reports ---------- */

  /** The rows of a table that are there before and not after. */
  function Vanished(before: Db, after: Db, table: Table): set<Ref> {
    set r | r in before && r.table == table && r !in after
  }

  function Gone(db: Db, cutoff: int, table: Table): set<Ref> { Vanished(db, Sweep(db, cutoff), table) }

  lemma TasksReported(db: Db, cutoff: int)
    ensures DueTasks(db, cutoff) == Gone(db, cutoff, Task)
  {
    hide DueTasks, Sweep, Over;
    forall r ensures r in DueTasks(db, cutoff) <==> r in Gone(db, cutoff, Task) {
      DueIsOver(db, cutoff, r);
      OverTable(db, cutoff, r);
      OverExists(db, cutoff, r);
      if r in db {
        SweepRemovesExactly(db, cutoff, r);
      }
    }
  }

  lemma OverExists(db: Db, cutoff: int, r: Ref)
    ensures forall t :: Over(db, cutoff, t, r) ==> r in db
  {
  }

  lemma GroupsReported(db: Db, cutoff: int)
    ensures DueGroups(Phase1(db, cutoff), Division, cutoff) == Gone(db, cutoff, Division)
    ensures DueGroups(Phase1(db, cutoff), Team, cutoff) == Gone(db, cutoff, Team)
  {
    var divisions := DueGroups(Phase1(db, cutoff), Division, cutoff);
    var teams := DueGroups(Phase1(db, cutoff), Team, cutoff);
    hide Sweep, Phase1, DueGroups, GroupGoes;
    forall r
      ensures r in divisions <==> r in Gone(db, cutoff, Division)
      ensures r in teams <==> r in Gone(db, cutoff, Team)
    {
      GroupGoesIs(db, cutoff, r);
      DueGroupsAre(Phase1(db, cutoff), cutoff, r);
      GroupExists(db, cutoff, r);
      if r in db {
        SweepRemovesExactly(db, cutoff, r);
      }
    }
  }

  lemma GroupExists(db: Db, cutoff: int, g: Ref)
    ensures GroupGoes(db, cutoff, g) ==> g in db && (g.table == Division || g.table == Team)
  {
  }

  lemma DueRoleFacts(db: Db, cutoff: int, r: Ref)
    ensures r in DueRoles(Phase1(db, cutoff), cutoff) ==> r in Phase1(db, cutoff) && r.table == Role && db[r].refs == {}
    ensures r in Phase1(db, cutoff) ==> r in db
    ensures r in db && r.table == Role ==> r in Phase1(db, cutoff)
  {
    TaskPhaseIs(db, cutoff, r);
    ThroughPhases(db, cutoff, r);
    hide Phase1, Phase2, Phase3, Sweep, RoleUnreferenced, TasksTake;
  }

  lemma NoGroupNamed(db: Db, cutoff: int, r: Ref)
    ensures r in db && db[r].refs == {} ==> !NamesGoingGroup(db, cutoff, r)
  {
  }

  lemma GoesByRole(db: Db, cutoff: int, r: Ref)
    ensures r.table == Role ==> (Goes(db, cutoff, r) <==> RoleGoes(db, cutoff, r))
  {
  }

  lemma RolesReported(db: Db, cutoff: int)
    ensures DueRoles(Phase1(db, cutoff), cutoff) == set r | r in Gone(db, cutoff, Role) && db[r].refs == {}
  {
    hide Phase1, Sweep, DueRoles, Goes, RoleGoes, NamesGoingGroup;
    forall r ensures r in DueRoles(Phase1(db, cutoff), cutoff) <==> r in Gone(db, cutoff, Role) && db[r].refs == {} {
      DueRoleFacts(db, cutoff, r);
      NoGroupNamed(db, cutoff, r);
      GoesByRole(db, cutoff, r);
      if r in Phase1(db, cutoff) {
        DueRoleGoes(db, cutoff, r);
      }
      if r in db {
        SweepRemovesExactly(db, cutoff, r);
      }
    }
  }

  lemma UsersReported(db: Db, cutoff: int)
    ensures var b := Phase2(db, cutoff);
            var scrubbed := set u | u in DueUsers(b, cutoff) && HasHistory(b, u);
            && scrubbed == (set u | Over(db, cutoff, User, u) && u in Sweep(db, cutoff))
            && DueUsers(b, cutoff) - scrubbed == Gone(db, cutoff, User)
  {
    var b := Phase2(db, cutoff);
    SameDueUsers(db, cutoff);
    hide Sweep, Phase2, HasHistory, DueUsers, Over;
    forall u
      ensures u in DueUsers(b, cutoff) && HasHistory(b, u) <==> Over(db, cutoff, User, u) && u in Sweep(db, cutoff)
      ensures u in DueUsers(b, cutoff) && !HasHistory(b, u) <==> u in Gone(db, cutoff, User)
    {
      HistoryIs(db, cutoff, u);
      DueIsOver(db, cutoff, u);
      OverTable(db, cutoff, u);
      OverExists(db, cutoff, u);
      OnlyUsersGo(db, cutoff, u);
      if u in db {
        SweepRemovesExactly(db, cutoff, u);
      }
    }
  }

  lemma ConnectionsReported(db: Db, cutoff: int)
    ensures DueConnections(Phase3(db, cutoff), cutoff) == Gone(db, cutoff, Connection)
  {
    var connections := DueConnections(Phase3(db, cutoff), cutoff);
    hide Sweep, Phase3, DueConnections;
    forall c ensures c in connections <==> c in Gone(db, cutoff, Connection) {
      ConnectionGoesIs(db, cutoff, c);
      hide ContentGoes;
      if c in db {
        SweepRemovesExactly(db, cutoff, c);
      }
    }
  }
}
