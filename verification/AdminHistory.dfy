/** The rows behind the floor, told row by row from the changes that were applied. */
module AdminHistory {
  import opened Common
  import opened AdminFloor

  function Get<K, V>(m: map<K, V>, k: K): Option<V> { if k in m then Some(m[k]) else None }

  /* ---------- One row, one change ---------- */

  function UserAfter(u: Id, before: Option<Lifecycle>, step: Step): Option<Lifecycle> {
    match step
    case CreateUser(v, _) => if u == v then Some(Active) else before
    case DeactivateUser(v) => if u == v then Some(Deactivated) else before
    case ReactivateUser(v) => if u == v then Some(Active) else before
    case RetireUser(v) => if u == v then Some(Retired) else before
    case ReviveUser(v, _) => if u == v then Some(Active) else before
    case CollectUser(v, scrub) => if u == v && !scrub then None else before
    case _ => before
  }

  function LifeAfter(r: Id, before: Option<Lifecycle>, step: Step): Option<Lifecycle> {
    match step
    case CreateRole(q, _) => if r == q then Some(Active) else before
    case RetireRole(q) => if r == q then Some(Retired) else before
    case RetireGroup(q) => if r == q then Some(Retired) else before
    case ReviveRole(q, _) => if r == q then Some(Active) else before
    case ReviveGroup(q, _) => if r == q then Some(Active) else before
    case CollectRole(q) => if r == q then None else before
    case _ => before
  }

  /** How a membership came to be, or that it is none. */
  function MemberAfter(u: Id, r: Id, before: Option<Source>, step: Step): Option<Source> {
    match step
    case CreateUser(v, with) => if u == v && r in with then Some(Native) else before
    case GrantRole(v, q) => if u == v && r == q then Some(Native) else before
    case SyncGrant(v, q) => if u == v && r == q then Some(Integration) else before
    case RevokeRole(v, q) => if u == v && r == q then None else before
    case SyncRevoke(v, q) => if u == v && r == q then None else before
    case Unlink(v, granted) => if u == v && r in granted && before == Some(Integration) then None else before
    case CollectUser(v, _) => if u == v then None else before
    case _ => before
  }

  function GrantAfter(g: Id, before: Option<GrantRow>, step: Step): Option<GrantRow> {
    match step
    case CreateGrant(h, row) => if g == h then Some(row) else before
    case UpdateGrant(h, action, permit, global) =>
      if g == h && before.Some?
      then Some(GrantRow(before.value.roleId, action, permit, global, before.value.active)) else before
    case RetireGrant(h) =>
      if g == h && before.Some?
      then Some(GrantRow(before.value.roleId, before.value.action, before.value.permit, before.value.global, false))
      else before
    case ReviveGrant(h, _) =>
      if g == h && before.Some?
      then Some(GrantRow(before.value.roleId, before.value.action, before.value.permit, before.value.global, true))
      else before
    case _ => before
  }

  function MappingAfter(m: Id, before: Option<Id>, step: Step): Option<Id> {
    match step
    case CreateMapping(n, role) => if m == n then Some(role) else before
    case DeleteMapping(n) => if m == n then None else before
    case _ => before
  }

  function Life(role: Option<RoleRow>): Option<Lifecycle> { if role.Some? then Some(role.value.life) else None }

  ghost predicate Changed(o: Org, after: Org, step: Step) {
    && (forall u :: Get(after.users, u) == UserAfter(u, Get(o.users, u), step))
    && (forall r :: Life(Get(after.roles, r)) == LifeAfter(r, Life(Get(o.roles, r)), step))
    && (forall r | r in after.roles ::
          after.roles[r].kind == if step.CreateRole? && step.role == r then step.kind
                                 else if r in o.roles then o.roles[r].kind else Standalone)
    && (forall u, r :: Get(after.members, (u, r)) == MemberAfter(u, r, Get(o.members, (u, r)), step))
    && (forall g :: Get(after.grants, g) == GrantAfter(g, Get(o.grants, g), step))
    && (forall m :: Get(after.mappings, m) == MappingAfter(m, Get(o.mappings, m), step))
  }

  lemma ChangesUsers(o: Org, step: Step, u: Id)
    requires Mutate(o, step).Some?
    ensures Get(Mutate(o, step).value.users, u) == UserAfter(u, Get(o.users, u), step)
  {
  }

  lemma ChangesRoles(o: Org, step: Step, r: Id)
    requires Mutate(o, step).Some?
    ensures var after := Mutate(o, step).value;
            && Life(Get(after.roles, r)) == LifeAfter(r, Life(Get(o.roles, r)), step)
            && (r in after.roles ==>
                  after.roles[r].kind == if step.CreateRole? && step.role == r then step.kind
                                         else if r in o.roles then o.roles[r].kind else Standalone)
  {
  }

  lemma ChangesMembers(o: Org, step: Step, u: Id, r: Id)
    requires Mutate(o, step).Some?
    ensures Get(Mutate(o, step).value.members, (u, r)) == MemberAfter(u, r, Get(o.members, (u, r)), step)
  {
  }

  lemma ChangesGrants(o: Org, step: Step, g: Id)
    requires Mutate(o, step).Some?
    ensures Get(Mutate(o, step).value.grants, g) == GrantAfter(g, Get(o.grants, g), step)
  {
  }

  lemma ChangesMappings(o: Org, step: Step, m: Id)
    requires Mutate(o, step).Some?
    ensures Get(Mutate(o, step).value.mappings, m) == MappingAfter(m, Get(o.mappings, m), step)
  {
  }

  lemma StepChanges(o: Org, step: Step)
    requires Mutate(o, step).Some?
    ensures Changed(o, Mutate(o, step).value, step)
  {
    hide Mutate, UserAfter, LifeAfter, MemberAfter, GrantAfter, MappingAfter;
    forall u ensures Get(Mutate(o, step).value.users, u) == UserAfter(u, Get(o.users, u), step) {
      ChangesUsers(o, step, u);
    }
    forall r
      ensures Life(Get(Mutate(o, step).value.roles, r)) == LifeAfter(r, Life(Get(o.roles, r)), step)
      ensures r in Mutate(o, step).value.roles ==>
                Mutate(o, step).value.roles[r].kind == if step.CreateRole? && step.role == r then step.kind
                                                       else if r in o.roles then o.roles[r].kind else Standalone
    {
      ChangesRoles(o, step, r);
    }
    forall u, r ensures Get(Mutate(o, step).value.members, (u, r)) == MemberAfter(u, r, Get(o.members, (u, r)), step) {
      ChangesMembers(o, step, u, r);
    }
    forall g ensures Get(Mutate(o, step).value.grants, g) == GrantAfter(g, Get(o.grants, g), step) {
      ChangesGrants(o, step, g);
    }
    forall m ensures Get(Mutate(o, step).value.mappings, m) == MappingAfter(m, Get(o.mappings, m), step) {
      ChangesMappings(o, step, m);
    }
  }

  /* ---------- What is refused ---------- */

  /** The steps that the services refuse, or that find nothing to do. */
  predicate Refused(o: Org, step: Step) {
    match step
    case CreateGrant(_, grant) => grant.roleId !in o.roles || !grant.active
    case UpdateGrant(g, _, _, _) => g !in o.grants
    case RetireGrant(g) => g !in o.grants || !o.grants[g].active
    case ReviveGrant(g, inWindow) => g !in o.grants || o.grants[g].active || !inWindow
    case CreateUser(_, _) => false
    case GrantRole(u, r) => u !in o.users || r !in o.roles || (u, r) in o.members
    case RevokeRole(u, r) => u !in o.users || (u, r) !in o.members
    case DeactivateUser(u) => u !in o.users || o.users[u] == Deactivated
    case ReactivateUser(u) => u !in o.users || o.users[u] == Active
    case RetireUser(u) => u !in o.users || o.users[u] == Retired
    case ReviveUser(u, inWindow) => u !in o.users || o.users[u] != Retired || !inWindow
    case CreateRole(_, _) => false
    case RetireRole(r) => r !in o.roles || o.roles[r].kind == Inherent || o.roles[r].life == Retired
    case ReviveRole(r, inWindow) =>
      r !in o.roles || o.roles[r].kind == Inherent || o.roles[r].life != Retired || !inWindow
    case RetireGroup(r) => r !in o.roles || o.roles[r].kind == Standalone || o.roles[r].life == Retired
    case ReviveGroup(r, inWindow) =>
      r !in o.roles || o.roles[r].kind == Standalone || o.roles[r].life != Retired || !inWindow
    case CreateMapping(_, r) =>
      r !in o.roles || o.roles[r].life == Retired
      || exists g <- o.grants ::
           var row := o.grants[g];
           row.roleId == r && row.active && row.permit && row.global && IsAction(row.action)
    case DeleteMapping(m) => m !in o.mappings
    case SyncGrant(u, r) => u !in o.users || (u, r) in o.members
    case SyncRevoke(u, r) => (u, r) !in o.members || o.members[(u, r)] == Native
    case Unlink(_, _) => false
    case CollectUser(u, _) => u !in o.users || o.users[u] != Retired
    case CollectRole(r) =>
      || r !in o.roles || o.roles[r].life != Retired
      || (exists m <- o.mappings :: o.mappings[m] == r)
      || (exists g <- o.grants :: o.grants[g].roleId == r)
      || exists key <- o.members :: key.1 == r
  }

  lemma RefusedExactly(o: Org, step: Step)
    ensures Mutate(o, step).None? <==> Refused(o, step)
  {
  }

  /* ---------- What is applied ---------- */

  /** The guarded steps: a grant changed or retired, a role revoked or retired, a user deactivated or retired. */
  predicate NeedsFloor(step: Step) {
    match step
    case UpdateGrant(_, _, _, _) => true
    case RetireGrant(_) => true
    case RevokeRole(_, _) => true
    case RetireRole(_) => true
    case DeactivateUser(_) => true
    case RetireUser(_) => true
    case _ => false
  }

  /** A step is applied if it is not refused and, when guarded, leaves somebody who administers. */
  lemma AppliedExactly(o: Org, step: Step)
    ensures Refused(o, step) ==> Next(o, step) == o
    ensures !Refused(o, step) && !NeedsFloor(step) ==> Changed(o, Next(o, step), step)
    ensures !Refused(o, step) && NeedsFloor(step) ==>
              || Next(o, step) == o
              || (Changed(o, Next(o, step), step) && exists u :: Administers(Next(o, step), u))
    ensures !Refused(o, step) && NeedsFloor(step) && Next(o, step) == o ==>
              exists after :: Changed(o, after, step) && (after == o || forall u :: !Administers(after, u))
  {
    RefusedExactly(o, step);
    assert Guarded(step) <==> NeedsFloor(step);
    if !Refused(o, step) {
      StepChanges(o, step);
      AdminsAre(Mutate(o, step).value);
    }
    hide Mutate, Refused, Changed, Administers, AdminExists;
  }
}
