/** The administrability floor: who is an effective admin, and which steps are guarded. */
module AdminFloor {
  import opened Common

  datatype RoleKind = Standalone | Inherent
  datatype Source = Native | Integration

  datatype RoleRow = RoleRow(life: Lifecycle, kind: RoleKind)
  datatype GrantRow = GrantRow(roleId: Id, action: string, permit: bool, global: bool, active: bool)

  /** The rows that decide who administers the organization; a membership is keyed by user and role. */
  datatype Org = Org(
    users: map<Id, Lifecycle>, roles: map<Id, RoleRow>, members: map<(Id, Id), Source>,
    grants: map<Id, GrantRow>, mappings: map<Id, Id>)

  const EFFECTIVE_ADMIN_ACTIONS: set<string> :=
    {"grant:create", "grant:update", "grant:retire", "role:create", "role:update", "role:retire"}

  /** An active global permit of an effective-admin action. */
  predicate Governs(g: GrantRow) { g.active && g.permit && g.global && g.action in EFFECTIVE_ADMIN_ACTIONS }

  predicate AdminVia(o: Org, u: Id, r: Id, g: Id) {
    && u in o.users && o.users[u].Active?
    && (u, r) in o.members
    && r in o.roles && o.roles[r].life.Active?
    && g in o.grants && o.grants[g].roleId == r && Governs(o.grants[g])
  }

  predicate IsAdmin(o: Org, u: Id) {
    exists r <- o.roles :: exists g <- o.grants :: AdminVia(o, u, r, g)
  }

  function EffectiveAdmins(o: Org): set<Id> { set u | u in o.users && IsAdmin(o, u) }

  ghost predicate AdminExists(o: Org) { exists u, r, g :: AdminVia(o, u, r, g) }

  lemma AdminExistsIff(o: Org)
    ensures AdminExists(o) <==> EffectiveAdmins(o) != {}
  {
    if u, r, g :| AdminVia(o, u, r, g) {
      assert IsAdmin(o, u);
      assert u in EffectiveAdmins(o);
    }
    if EffectiveAdmins(o) != {} {
      var u :| u in EffectiveAdmins(o);
      var r :| r in o.roles && exists g <- o.grants :: AdminVia(o, u, r, g);
    }
  }

  /* ---------- The steps ---------- */

  datatype Step =
    | CreateGrant(id: Id, grant: GrantRow)
    | UpdateGrant(id: Id, action: string, permit: bool, global: bool)
    | RetireGrant(id: Id)
    | ReviveGrant(id: Id, inWindow: bool)
    | CreateUser(user: Id, with: set<Id>)
    | GrantRole(user: Id, role: Id)
    | RevokeRole(user: Id, role: Id)
    | DeactivateUser(user: Id)
    | ReactivateUser(user: Id)
    | RetireUser(user: Id)
    | ReviveUser(user: Id, inWindow: bool)
    | CreateRole(role: Id, kind: RoleKind)
    | RetireRole(role: Id)
    | ReviveRole(role: Id, inWindow: bool)
    | RetireGroup(role: Id)
    | ReviveGroup(role: Id, inWindow: bool)
    | CreateMapping(id: Id, role: Id)
    | DeleteMapping(id: Id)
    | SyncGrant(user: Id, role: Id)
    | SyncRevoke(user: Id, role: Id)
    | Unlink(user: Id, granted: set<Id>)
    | CollectUser(user: Id, scrub: bool)
    | CollectRole(role: Id)

  /** The steps that run under `withAdminFloor`. */
  predicate Guarded(step: Step) {
    || step.UpdateGrant? || step.RetireGrant?
    || step.RevokeRole? || step.RetireRole?
    || step.DeactivateUser? || step.RetireUser?
  }

  predicate Mapped(o: Org, role: Id) { exists m <- o.mappings :: o.mappings[m] == role }

  predicate HasGoverningGrant(o: Org, role: Id) {
    exists g <- o.grants :: o.grants[g].roleId == role && Governs(o.grants[g])
  }

  predicate Referenced(o: Org, role: Id) {
    || Mapped(o, role)
    || (exists g <- o.grants :: o.grants[g].roleId == role)
    || exists key <- o.members :: key.1 == role
  }

  function WithRole(o: Org, role: Id, life: Lifecycle): Org
    requires role in o.roles
  {
    o.(roles := o.roles[role := o.roles[role].(life := life)])
  }

  function WithGrant(o: Org, id: Id, active: bool): Org
    requires id in o.grants
  {
    o.(grants := o.grants[id := o.grants[id].(active := active)])
  }

  function Without(o: Org, keys: set<(Id, Id)>): Org { o.(members := o.members - keys) }

  /** What a step writes before any floor check; None when the service refuses or there is nothing to do. */
  function Mutate(o: Org, step: Step): Option<Org> {
    match step
    case CreateGrant(id, grant) =>
      if grant.roleId in o.roles && grant.active then Some(o.(grants := o.grants[id := grant])) else None
    case UpdateGrant(id, action, permit, global) =>
      if id in o.grants
      then Some(o.(grants := o.grants[id := o.grants[id].(action := action, permit := permit, global := global)]))
      else None
    case RetireGrant(id) => if id in o.grants && o.grants[id].active then Some(WithGrant(o, id, false)) else None
    case ReviveGrant(id, inWindow) =>
      if id in o.grants && !o.grants[id].active && inWindow then Some(WithGrant(o, id, true)) else None
    case CreateUser(u, with) =>
      Some(o.(users := o.users[u := Active], members := o.members + map r | r in with :: (u, r) := Native))
    case GrantRole(u, r) =>
      if u in o.users && r in o.roles && (u, r) !in o.members
      then Some(o.(members := o.members[(u, r) := Native])) else None
    case RevokeRole(u, r) => if u in o.users && (u, r) in o.members then Some(Without(o, {(u, r)})) else None
    case DeactivateUser(u) =>
      if u in o.users && !o.users[u].Deactivated? then Some(o.(users := o.users[u := Deactivated])) else None
    case ReactivateUser(u) =>
      if u in o.users && !o.users[u].Active? then Some(o.(users := o.users[u := Active])) else None
    case RetireUser(u) =>
      if u in o.users && !o.users[u].Retired? then Some(o.(users := o.users[u := Retired])) else None
    case ReviveUser(u, inWindow) =>
      if u in o.users && o.users[u].Retired? && inWindow then Some(o.(users := o.users[u := Active])) else None
    case CreateRole(r, kind) => Some(o.(roles := o.roles[r := RoleRow(Active, kind)]))
    case RetireRole(r) =>
      if r in o.roles && o.roles[r].kind.Standalone? && !o.roles[r].life.Retired?
      then Some(WithRole(o, r, Retired)) else None
    case ReviveRole(r, inWindow) =>
      if r in o.roles && o.roles[r].kind.Standalone? && o.roles[r].life.Retired? && inWindow
      then Some(WithRole(o, r, Active)) else None
    case RetireGroup(r) =>
      if r in o.roles && o.roles[r].kind.Inherent? && !o.roles[r].life.Retired?
      then Some(WithRole(o, r, Retired)) else None
    case ReviveGroup(r, inWindow) =>
      if r in o.roles && o.roles[r].kind.Inherent? && o.roles[r].life.Retired? && inWindow
      then Some(WithRole(o, r, Active)) else None
    case CreateMapping(m, r) =>
      if r in o.roles && !o.roles[r].life.Retired? && !HasGoverningGrant(o, r)
      then Some(o.(mappings := o.mappings[m := r])) else None
    case DeleteMapping(m) => if m in o.mappings then Some(o.(mappings := o.mappings - {m})) else None
    case SyncGrant(u, r) =>
      if u in o.users && (u, r) !in o.members then Some(o.(members := o.members[(u, r) := Integration])) else None
    case SyncRevoke(u, r) =>
      if (u, r) in o.members && o.members[(u, r)].Integration? then Some(Without(o, {(u, r)})) else None
    case Unlink(u, granted) =>
      Some(Without(o, set r | r in granted && (u, r) in o.members && o.members[(u, r)].Integration? :: (u, r)))
    case CollectUser(u, scrub) =>
      if u in o.users && o.users[u].Retired?
      then
        var purged := Without(o, set key | key in o.members && key.0 == u);
        Some(if scrub then purged else purged.(users := purged.users - {u}))
      else None
    case CollectRole(r) =>
      if r in o.roles && o.roles[r].life.Retired? && !Referenced(o, r) then Some(o.(roles := o.roles - {r})) else None
  }

  /** A guarded step is applied, counted, and rolled back if nobody is left. */
  ghost function Next(o: Org, step: Step): Org {
    var written := Mutate(o, step);
    if written.None? then o
    else if Guarded(step) && !AdminExists(written.value) then o
    else written.value
  }

  /** The membership makes its user an admin. */
  predicate Carries(o: Org, u: Id, r: Id) { exists g <- o.grants :: AdminVia(o, u, r, g) }

  /** The users that the join over memberships finds are the effective admins. */
  lemma JoinedUsers(o: Org)
    ensures EffectiveAdmins(o) == set key | key in o.members && Carries(o, key.0, key.1) :: key.0
  {
  }

  /* ---------- Who administers ---------- */

  /** The actions that make an effective admin, by name. */
  predicate IsAction(action: string) {
    || action == "grant:create" || action == "grant:update" || action == "grant:retire"
    || action == "role:create" || action == "role:update" || action == "role:retire"
  }

  /** An active user with an active role that an active, global permit of a governing action names. */
  predicate Administers(o: Org, u: Id) {
    && u in o.users && o.users[u] == Active
    && exists r <- o.roles :: (u, r) in o.members && o.roles[r].life == Active
         && exists g <- o.grants ::
              var row := o.grants[g];
              row.roleId == r && row.active && row.permit && row.global && IsAction(row.action)
  }

  lemma AdminsAre(o: Org)
    ensures EffectiveAdmins(o) == set u | u in o.users && Administers(o, u)
    ensures AdminExists(o) <==> exists u :: Administers(o, u)
  {
    AdminExistsIff(o);
    hide AdminExists;
    forall u ensures u in EffectiveAdmins(o) <==> u in o.users && Administers(o, u) {
      AdminIs(o, u);
    }
  }

  lemma AdminIs(o: Org, u: Id)
    ensures u in EffectiveAdmins(o) <==> u in o.users && Administers(o, u)
  {
    forall g ensures g in o.grants ==> (Governs(o.grants[g]) <==>
                     o.grants[g].active && o.grants[g].permit && o.grants[g].global && IsAction(o.grants[g].action))
    {
    }
  }

  class Organization {
    var rows: Org

    /** The distinct users that the join over members, roles and grants finds. */
    method EffectiveAdminCount() returns (count: nat)
      ensures count == |set u | u in rows.users && Administers(rows, u)|
      ensures count == 0 <==> !AdminExists(rows)
    {
      hide Carries, EffectiveAdmins, AdminExists, Administers;
      var admins: set<Id> := {};
      var members := rows.members.Keys;
      while members != {}
        invariant members <= rows.members.Keys
        invariant admins == set key | key in rows.members.Keys - members && Carries(rows, key.0, key.1) :: key.0
        decreases |members|
      {
        var key :| key in members;
        var (u, r) := key;
        ghost var before := members;
        members := members - {key};
        assert rows.members.Keys - members == rows.members.Keys - before + {key};
        if Carries(rows, u, r) {
          admins := admins + {u};
        }
      }
      JoinedUsers(rows);
      assert admins == EffectiveAdmins(rows);
      AdminExistsIff(rows);
      AdminsAre(rows);
      count := |admins|;
    }

    /** Applies the change, counts, and rolls back when the count is zero. */
    method WithAdminFloor(mutated: Org) returns (accepted: bool)
      modifies this
      ensures accepted <==> AdminExists(mutated)
      ensures rows == if accepted then mutated else old(rows)
    {
      var before := rows;
      rows := mutated;
      var count := EffectiveAdminCount();
      accepted := count != 0;
      if !accepted {
        rows := before;
      }
    }

    method Perform(step: Step) returns (done: bool)
      modifies this
      ensures rows == Next(old(rows), step)
      ensures done <==> Mutate(old(rows), step).Some? && (Guarded(step) ==> AdminExists(Mutate(old(rows), step).value))
    {
      var written := Mutate(rows, step);
      if written.None? {
        return false;
      }
      if Guarded(step) {
        done := WithAdminFloor(written.value);
      } else {
        rows := written.value;
        done := true;
      }
    }
  }

  /* ---------- The invariant ---------- */

  /** A role that nothing unguarded can take away: standalone, unmapped, without a synced member. */
  predicate Placeable(o: Org, role: Id) {
    && role in o.roles && o.roles[role].kind.Standalone?
    && !Mapped(o, role)
    && NativeOnly(o.members, role)
  }

  predicate NativeOnly(members: map<(Id, Id), Source>, role: Id) {
    forall key <- members :: key.1 == role ==> members[key].Native?
  }

  ghost predicate Safe(o: Org) {
    forall g | g in o.grants :: Governs(o.grants[g]) ==> Placeable(o, o.grants[g].roleId)
  }

  /**
   * What is asked of the steps: new rows have new ids, the sync only grants roles that are mapped,
   * and a grant step makes a governing grant only on a placeable role.
   */
  ghost predicate Enabled(o: Org, step: Step) {
    match step
    case CreateGrant(id, grant) => id !in o.grants && (Governs(grant) ==> Placeable(o, grant.roleId))
    case UpdateGrant(id, action, permit, global) =>
      id in o.grants && Governs(o.grants[id].(action := action, permit := permit, global := global)) ==>
        Placeable(o, o.grants[id].roleId)
    case ReviveGrant(id, _) =>
      id in o.grants && Governs(o.grants[id].(active := true)) ==> Placeable(o, o.grants[id].roleId)
    case CreateUser(u, with) => u !in o.users && (forall key <- o.members :: key.0 != u)
    case CreateRole(r, _) => r !in o.roles && !Referenced(o, r)
    case CreateMapping(m, _) => m !in o.mappings
    case SyncGrant(_, r) => Mapped(o, r)
    case _ => true
  }

  predicate MakesGrant(step: Step) { step.CreateGrant? || step.UpdateGrant? || step.ReviveGrant? }

  /** A grant that governs after a step governed before it, or was just made on a placeable role. */
  lemma GoverningAfter(o: Org, step: Step, g: Id)
    requires Safe(o) && Enabled(o, step) && Mutate(o, step).Some?
    requires var after := Mutate(o, step).value; g in after.grants && Governs(after.grants[g])
    ensures var role := Mutate(o, step).value.grants[g].roleId;
            Placeable(o, role) && (MakesGrant(step) || HasGoverningGrant(o, role))
  {
  }

  /** Nothing maps a role that has a governing grant. */
  lemma StaysUnmapped(o: Org, step: Step, role: Id)
    requires !Mapped(o, role) && Mutate(o, step).Some?
    requires MakesGrant(step) || HasGoverningGrant(o, role)
    ensures !Mapped(Mutate(o, step).value, role)
  {
    var after := Mutate(o, step).value;
    if step.CreateMapping? {
      assert step.role != role;
    } else {
      assert after.mappings.Keys <= o.mappings.Keys && forall m <- after.mappings :: after.mappings[m] == o.mappings[m];
    }
  }

  lemma StaysNative(o: Org, step: Step, role: Id)
    requires NativeOnly(o.members, role) && !Mapped(o, role) && Enabled(o, step) && Mutate(o, step).Some?
    ensures NativeOnly(Mutate(o, step).value.members, role)
  {
  }

  lemma StaysStandalone(o: Org, step: Step, role: Id)
    requires role in o.roles && o.roles[role].kind.Standalone? && Enabled(o, step) && Mutate(o, step).Some?
    requires MakesGrant(step) || Referenced(o, role)
    ensures var after := Mutate(o, step).value; role in after.roles && after.roles[role].kind.Standalone?
  {
  }

  lemma PlaceableSurvives(o: Org, step: Step, role: Id)
    requires Placeable(o, role) && Enabled(o, step) && Mutate(o, step).Some?
    requires MakesGrant(step) || HasGoverningGrant(o, role)
    ensures Placeable(Mutate(o, step).value, role)
  {
    hide Mutate, EFFECTIVE_ADMIN_ACTIONS, Governs, Mapped, Enabled;
    assert !MakesGrant(step) ==> Referenced(o, role);
    assert NativeOnly(o.members, role);
    StaysUnmapped(o, step, role);
    StaysNative(o, step, role);
    StaysStandalone(o, step, role);
  }

  lemma SafeStep(o: Org, step: Step)
    requires Safe(o) && Enabled(o, step) && Mutate(o, step).Some?
    ensures Safe(Mutate(o, step).value)
  {
    hide Mutate, Placeable, Enabled, Governs;
    var after := Mutate(o, step).value;
    forall g | g in after.grants && Governs(after.grants[g])
      ensures Placeable(after, after.grants[g].roleId)
    {
      GoverningAfter(o, step, g);
      PlaceableSurvives(o, step, after.grants[g].roleId);
    }
  }

  /** What keeps one way of being an admin through an unguarded step. */
  lemma ViaSurvives(o: Org, step: Step, u: Id, r: Id, g: Id)
    requires Safe(o) && Enabled(o, step) && !Guarded(step) && Mutate(o, step).Some?
    requires AdminVia(o, u, r, g)
    ensures AdminVia(Mutate(o, step).value, u, r, g)
  {
  }

  lemma FloorStep(o: Org, step: Step)
    requires Safe(o) && AdminExists(o) && Enabled(o, step)
    ensures Safe(Next(o, step)) && AdminExists(Next(o, step))
  {
    if Mutate(o, step).Some? {
      SafeStep(o, step);
      hide Mutate, Enabled, Safe;
      if !Guarded(step) {
        var u, r, g :| AdminVia(o, u, r, g);
        ViaSurvives(o, step, u, r, g);
      }
    }
  }

  ghost predicate Legal(o: Org, steps: seq<Step>)
    decreases |steps|, 0
  {
    steps == [] || (Legal(o, Init(steps)) && Enabled(After(o, Init(steps)), Last(steps)))
  }

  ghost function After(o: Org, steps: seq<Step>): Org
    decreases |steps|, 1
  {
    if steps == [] then o else Next(After(o, Init(steps)), Last(steps))
  }

  /**
   * From any organization with an effective admin, no sequence of serial grant, role, user,
   * division, team, mapping, sync, unlink and collection steps leaves it without one, as long as
   * governing grants are only ever made on placeable roles.
   */
  lemma {:induction false} NeverWithoutAdmin(o: Org, steps: seq<Step>)
    requires Safe(o) && AdminExists(o) && Legal(o, steps)
    ensures AdminExists(After(o, steps)) && Safe(After(o, steps))
  {
    hide Safe, AdminExists, Enabled, Next;
    if steps != [] {
      NeverWithoutAdmin(o, Init(steps));
      FloorStep(After(o, Init(steps)), Last(steps));
    }
  }

  /* ---------- The unguarded steps, exactly ---------- */

  /** Retiring a division or team leaves an admin exactly if some admin does not depend on its role. */
  lemma RetireGroupKeepsAdminIff(o: Org, role: Id)
    requires Mutate(o, RetireGroup(role)).Some?
    ensures AdminExists(Next(o, RetireGroup(role))) <==> exists u, r, g :: r != role && AdminVia(o, u, r, g)
  {
    var after := Next(o, RetireGroup(role));
    if u, r, g :| AdminVia(after, u, r, g) {
      assert r != role && AdminVia(o, u, r, g);
    }
    if u, r, g :| r != role && AdminVia(o, u, r, g) {
      assert AdminVia(after, u, r, g);
    }
  }

  /** Unlinking leaves an admin exactly if some admin's membership is not among the synced ones it drops. */
  lemma UnlinkKeepsAdminIff(o: Org, user: Id, granted: set<Id>)
    ensures AdminExists(Next(o, Unlink(user, granted))) <==>
            exists u, r, g :: AdminVia(o, u, r, g) && !(u == user && r in granted && o.members[(u, r)].Integration?)
  {
    var after := Next(o, Unlink(user, granted));
    if u, r, g :| AdminVia(after, u, r, g) {
      assert AdminVia(o, u, r, g);
    }
    if u, r, g :| AdminVia(o, u, r, g) && !(u == user && r in granted && o.members[(u, r)].Integration?) {
      assert AdminVia(after, u, r, g);
    }
  }

  /** A sync revoke leaves an admin exactly if some admin does not rest on the synced membership it drops. */
  lemma SyncRevokeKeepsAdminIff(o: Org, user: Id, role: Id)
    ensures AdminExists(Next(o, SyncRevoke(user, role))) <==>
            exists u, r, g :: AdminVia(o, u, r, g) && !((u, r) == (user, role) && o.members[(u, r)].Integration?)
  {
    var after := Next(o, SyncRevoke(user, role));
    if u, r, g :| AdminVia(after, u, r, g) {
      assert AdminVia(o, u, r, g) && !((u, r) == (user, role) && o.members[(u, r)].Integration?);
    }
    if u, r, g :| AdminVia(o, u, r, g) && !((u, r) == (user, role) && o.members[(u, r)].Integration?) {
      assert AdminVia(after, u, r, g);
    }
  }

  /** New rows have ids that no row has yet. */
  predicate FreshIds(o: Org, step: Step) {
    && (step.CreateGrant? ==> step.id !in o.grants)
    && (step.CreateUser? ==> step.user !in o.users)
    && (step.CreateRole? ==> step.role !in o.roles)
  }

  predicate CanRemoveLastAdmin(step: Step) { step.RetireGroup? || step.Unlink? || step.SyncRevoke? }

  lemma ViaStays(o: Org, step: Step, u: Id, r: Id, g: Id)
    requires FreshIds(o, step) && !Guarded(step) && !CanRemoveLastAdmin(step) && Mutate(o, step).Some?
    requires AdminVia(o, u, r, g)
    ensures AdminVia(Mutate(o, step).value, u, r, g)
  {
  }

  /** Wherever grants and mappings sit, every other step, guarded or not, leaves an admin. */
  lemma OtherStepsKeepAdmin(o: Org, step: Step)
    requires AdminExists(o) && FreshIds(o, step) && !CanRemoveLastAdmin(step)
    ensures AdminExists(Next(o, step))
  {
    if Mutate(o, step).Some? && !Guarded(step) {
      var u, r, g :| AdminVia(o, u, r, g);
      hide Mutate;
      ViaStays(o, step, u, r, g);
    }
  }

  /** Without the placement rule the floor fails: the only governing grant sits on a division's role. */
  lemma DivisionRetireCanRemoveLastAdmin()
    returns (o: Org)
    ensures AdminExists(o) && !AdminExists(Next(o, RetireGroup("role")))
  {
    o := Org(
      map["user" := Active], map["role" := RoleRow(Active, Inherent)], map[("user", "role") := Native],
      map["grant" := GrantRow("role", "grant:create", true, true, true)], map[]);
    assert AdminVia(o, "user", "role", "grant");
    RetireGroupKeepsAdminIff(o, "role");
  }

  lemma FourSteps(o: Org, a: Step, b: Step, c: Step, d: Step)
    ensures var steps := [a, b, c, d];
            && steps[..0] == [] && steps[..1] == [a] && steps[..2] == [a, b] && steps[..3] == [a, b, c] == Init(steps)
            && After(o, []) == o && After(o, [a]) == Next(o, a)
            && After(o, [a, b]) == Next(Next(o, a), b)
            && After(o, [a, b, c]) == Next(Next(Next(o, a), b), c)
            && After(o, steps) == Next(Next(Next(Next(o, a), b), c), d)
  {
    hide Next;
    assert Init([a]) == [] && Init([a, b]) == [a] && Init([a, b, c]) == [a, b];
    assert Init([a, b, c, d]) == [a, b, c];
  }

  const Standing := RoleRow(Active, Standalone)
  const AdminKey := ("admin", "first")
  const SyncedKey := ("synced", "mapped")
  const FirstGrant := GrantRow("first", "grant:create", true, true, true)
  const LateGrant := GrantRow("mapped", "grant:create", true, true, true)

  /** Two active users, a role for each, the second one mapped. */
  function TwoRoles(members: map<(Id, Id), Source>, grants: map<Id, GrantRow>): Org {
    Org(map["admin" := Active, "synced" := Active], map["first" := Standing, "mapped" := Standing], members, grants,
        map["m" := "mapped"])
  }

  /** The guarded removal passes the floor, because the synced member counts. */
  lemma RemovalPasses(o: Org)
    requires o == TwoRoles(map[AdminKey := Native, SyncedKey := Integration], map["0" := FirstGrant, "1" := LateGrant])
    ensures Next(o, RevokeRole("admin", "first")) == TwoRoles(map[SyncedKey := Integration], o.grants)
    ensures AdminExists(TwoRoles(map[SyncedKey := Integration], o.grants))
  {
    var after := TwoRoles(map[SyncedKey := Integration], o.grants);
    assert o.members - {AdminKey} == map[SyncedKey := Integration];
    assert Mutate(o, RevokeRole("admin", "first")) == Some(after);
    assert AdminVia(after, "synced", "mapped", "1");
  }

  lemma RevokeEmpties(o: Org)
    requires o == TwoRoles(map[SyncedKey := Integration], map["0" := FirstGrant, "1" := LateGrant])
    ensures Next(o, SyncRevoke("synced", "mapped")) == TwoRoles(map[], o.grants)
    ensures !AdminExists(TwoRoles(map[], o.grants))
  {
    assert o.members - {SyncedKey} == map[];
  }

  lemma LateGrantIsMade(o: Org)
    requires o == TwoRoles(map[AdminKey := Native], map["0" := FirstGrant])
    ensures var o1 := Next(o, SyncGrant("synced", "mapped"));
            && o1 == TwoRoles(map[AdminKey := Native, SyncedKey := Integration], o.grants)
            && Next(o1, CreateGrant("1", LateGrant)) == TwoRoles(o1.members, map["0" := FirstGrant, "1" := LateGrant])
  {
    var o1 := Next(o, SyncGrant("synced", "mapped"));
    assert o1.members == map[AdminKey := Native, SyncedKey := Integration];
    assert Mutate(o1, CreateGrant("1", LateGrant)).Some?;
  }

  lemma StartsSafe(o: Org)
    requires o == TwoRoles(map[AdminKey := Native], map["0" := FirstGrant])
    ensures Safe(o) && AdminExists(o)
  {
    assert AdminVia(o, "admin", "first", "0");
  }

  /**
   * A mapping is not made on a governing role, but a governing grant is made on a mapped one. Then
   * the guarded removal of the other admin passes, and the sync takes the last one away.
   */
  lemma SyncRevokeCanRemoveLastAdmin() returns (o: Org, steps: seq<Step>)
    ensures Safe(o) && AdminExists(o) && !AdminExists(After(o, steps))
    ensures steps != [] && Last(steps) == SyncRevoke("synced", "mapped") && AdminExists(After(o, Init(steps)))
    ensures forall i :: 0 <= i < |steps| ==> FreshIds(After(o, steps[..i]), steps[i])
  {
    o := TwoRoles(map[AdminKey := Native], map["0" := FirstGrant]);
    var a, b := SyncGrant("synced", "mapped"), CreateGrant("1", LateGrant);
    var c, d := RevokeRole("admin", "first"), SyncRevoke("synced", "mapped");
    steps := [a, b, c, d];
    hide Next, Safe, AdminExists;
    StartsSafe(o);
    LateGrantIsMade(o);
    RemovalPasses(Next(Next(o, a), b));
    RevokeEmpties(Next(Next(Next(o, a), b), c));
    FourSteps(o, a, b, c, d);
  }

  /** The same governing grant, and nobody else who governs: unlinking the synced member's account is not guarded. */
  lemma UnlinkCanRemoveLastAdmin() returns (o: Org)
    ensures AdminExists(o) && !AdminExists(Next(o, Unlink("synced", {"mapped"})))
  {
    o := TwoRoles(map[SyncedKey := Integration], map["1" := LateGrant]);
    assert AdminVia(o, "synced", "mapped", "1");
    hide Next;
    UnlinkKeepsAdminIff(o, "synced", {"mapped"});
  }
}
