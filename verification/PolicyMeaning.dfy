/** One access decision: entities, merging, and what the compiled policies mean. */
module PolicyMeaning {
  import opened Common
  import opened Cedar
  import opened Policies

  /** A role that a user holds. */
  datatype RoleRow = RoleRow(id: Id, active: bool, divisionId: Option<Id>, teamId: Option<Id>)

  /* ---------- Entities ---------- */

  function RoleUids(held: seq<RoleRow>): (uids: seq<Uid>)
    ensures forall u :: u in uids <==> exists r <- held :: r.active && u == Uid(Role, r.id)
  {
    if held == [] then []
    else
      assert held == held[..|held| - 1] + [held[|held| - 1]];
      RoleUids(held[..|held| - 1]) + if held[|held| - 1].active then [Uid(Role, held[|held| - 1].id)] else []
  }

  function MemberDivisions(held: seq<RoleRow>): set<Uid> {
    set r | r in held && r.active && Given(r.divisionId) :: Uid(Division, r.divisionId.value)
  }

  function MemberTeams(held: seq<RoleRow>): set<Uid> {
    set r | r in held && r.active && Given(r.teamId) :: Uid(Team, r.teamId.value)
  }

  function PrincipalAttrs(held: seq<RoleRow>): map<string, Value> {
    map["memberDivisions" := Refs(MemberDivisions(held)), "memberTeams" := Refs(MemberTeams(held))]
  }

  function RoleEntities(uids: seq<Uid>): (es: seq<Entity>)
    ensures |es| == |uids| && forall i :: 0 <= i < |uids| ==> es[i] == Entity(uids[i], map[], [])
  {
    seq(|uids|, i requires 0 <= i < |uids| => Entity(uids[i], map[], []))
  }

  /** The principal and the roles it is in. */
  function PrincipalEntities(userId: Id, held: seq<RoleRow>): seq<Entity> {
    [Entity(Uid(User, userId), PrincipalAttrs(held), RoleUids(held))] + RoleEntities(RoleUids(held))
  }

  function ParentSet(parents: seq<Uid>): set<Uid> { set p | p in parents }

  lemma ParentSetSnoc(parents: seq<Uid>, p: Uid)
    ensures ParentSet(parents + [p]) == ParentSet(parents) + {p}
  {
  }

  function Merge(store: map<Uid, Facts>, e: Entity): map<Uid, Facts> {
    var prior := if e.uid in store then store[e.uid] else Facts(map[], {});
    store[e.uid := Facts(prior.attrs + e.attrs, prior.parents + ParentSet(e.parents))]
  }

  /** What a list of entities says: the last write of an attribute wins, parents are united. */
  function StoreOf(list: seq<Entity>): map<Uid, Facts> {
    if list == [] then map[] else Merge(StoreOf(Init(list)), Last(list))
  }

  predicate DistinctUids(list: seq<Entity>) {
    forall i, j :: 0 <= i < j < |list| ==> list[i].uid != list[j].uid
  }

  /** Lists a store once per entity. */
  ghost predicate Lists(list: seq<Entity>, store: map<Uid, Facts>) {
    && DistinctUids(list)
    && (forall uid :: uid in store <==> exists i :: 0 <= i < |list| && list[i].uid == uid)
    && (forall i :: 0 <= i < |list| ==>
          list[i].uid in store && store[list[i].uid] == Facts(list[i].attrs, ParentSet(list[i].parents)))
  }

  lemma {:induction false} ListedStore(list: seq<Entity>)
    requires DistinctUids(list)
    ensures Lists(list, StoreOf(list))
  {
    if list != [] {
      ListedStore(Init(list));
      assert list == Init(list) + [Last(list)];
      hide Merge;
      ListsNew(Init(list), StoreOf(Init(list)), Last(list));
    }
  }

  /** The entity that joins the earlier ones with its uid, in place. */
  method MergeInto(prior: Entity, e: Entity) returns (r: Entity)
    requires prior.uid == e.uid
    ensures r.uid == prior.uid && r.attrs == prior.attrs + e.attrs
    ensures ParentSet(r.parents) == ParentSet(prior.parents) + ParentSet(e.parents)
  {
    var seen := set p | p in prior.parents;
    var parents := prior.parents;
    for i := 0 to |e.parents|
      invariant ParentSet(parents) == ParentSet(prior.parents) + ParentSet(e.parents[..i])
    {
      assert e.parents[..i + 1] == e.parents[..i] + [e.parents[i]];
      ParentSetSnoc(e.parents[..i], e.parents[i]);
      ParentSetSnoc(parents, e.parents[i]);
      if e.parents[i] !in seen {
        parents := parents + [e.parents[i]];
      }
    }
    assert e.parents[..|e.parents|] == e.parents;
    r := Entity(prior.uid, prior.attrs + e.attrs, parents);
  }

  /** Merges the entities that share a uid, so that each uid is listed once. */
  method DedupeEntities(list: seq<Entity>) returns (merged: seq<Entity>)
    ensures Lists(merged, StoreOf(list))
    ensures StoreOf(merged) == StoreOf(list)
  {
    hide Lists, Merge, DistinctUids;
    merged := [];
    assert Lists([], StoreOf([])) by { NothingListed(); }
    assert list[..0] == [];
    for i := 0 to |list|
      invariant Lists(merged, StoreOf(list[..i]))
    {
      var e := list[i];
      assert Init(list[..i + 1]) == list[..i] && Last(list[..i + 1]) == e;
      var k := 0;
      while k < |merged| && merged[k].uid != e.uid
        invariant k <= |merged| && forall j :: 0 <= j < k ==> merged[j].uid != e.uid
      {
        k := k + 1;
      }
      ghost var before := merged;
      if k == |merged| {
        merged := merged + [e];
        ListsNew(before, StoreOf(list[..i]), e);
      } else {
        var joined := MergeInto(merged[k], e);
        merged := merged[k := joined];
        ListsMerged(before, StoreOf(list[..i]), e, k, joined);
      }
    }
    assert list[..|list|] == list;
    assert DistinctUids(merged) by { ListedDistinct(merged, StoreOf(list)); }
    ListedStore(merged);
    SameStore(merged, StoreOf(merged), StoreOf(list));
  }

  lemma NothingListed()
    ensures Lists([], StoreOf([]))
  {
  }

  lemma ListedDistinct(list: seq<Entity>, store: map<Uid, Facts>)
    requires Lists(list, store)
    ensures DistinctUids(list)
  {
  }

  lemma ListsNew(list: seq<Entity>, store: map<Uid, Facts>, e: Entity)
    requires Lists(list, store) && forall j :: 0 <= j < |list| ==> list[j].uid != e.uid
    ensures Lists(list + [e], Merge(store, e))
  {
    var after := list + [e];
    assert map[] + e.attrs == e.attrs && {} + ParentSet(e.parents) == ParentSet(e.parents);
    forall uid ensures uid in Merge(store, e) <==> exists i :: 0 <= i < |after| && after[i].uid == uid {
      if i :| 0 <= i < |list| && list[i].uid == uid {
        assert after[i].uid == uid;
      }
      assert after[|list|].uid == e.uid;
    }
  }

  lemma ListsMerged(list: seq<Entity>, store: map<Uid, Facts>, e: Entity, k: nat, joined: Entity)
    requires Lists(list, store) && k < |list| && list[k].uid == e.uid == joined.uid
    requires joined.attrs == list[k].attrs + e.attrs
    requires ParentSet(joined.parents) == ParentSet(list[k].parents) + ParentSet(e.parents)
    ensures Lists(list[k := joined], Merge(store, e))
  {
    var after := list[k := joined];
    forall uid ensures uid in Merge(store, e) <==> exists i :: 0 <= i < |after| && after[i].uid == uid {
      if i :| 0 <= i < |list| && list[i].uid == uid {
        assert after[i].uid == uid;
      }
      if i :| 0 <= i < |after| && after[i].uid == uid {
        assert list[i].uid == uid;
      }
    }
  }

  lemma SameStore(list: seq<Entity>, a: map<Uid, Facts>, b: map<Uid, Facts>)
    requires Lists(list, a) && Lists(list, b)
    ensures a == b
  {
  }

  /* ---------- The request ---------- */

  datatype Request = Request(userId: Id, held: seq<RoleRow>, action: string, resource: Uid, attrs: map<string, Value>)

  function EnvOf(q: Request): Env {
    Env(Uid(User, q.userId), q.action, q.resource,
        StoreOf(PrincipalEntities(q.userId, q.held) + [Entity(q.resource, q.attrs, [])]))
  }

  /** `decide`, given the policies: merge the entities and ask Cedar. */
  method Decide(q: Request, policies: seq<Policy>) returns (allowed: bool)
    ensures allowed == IsAuthorized(policies, EnvOf(q))
  {
    var entities := PrincipalEntities(q.userId, q.held);
    var merged := DedupeEntities(entities + [Entity(q.resource, q.attrs, [])]);
    allowed := IsAuthorized(policies, Env(Uid(User, q.userId), q.action, q.resource, StoreOf(merged)));
  }

  lemma {:induction false} RoleStore(store: map<Uid, Facts>, uids: seq<Uid>, base: seq<Entity>)
    requires StoreOf(base) == store && forall u <- uids :: u.kind == Role
    ensures var after := StoreOf(base + RoleEntities(uids));
            && (forall u: Uid | u.kind != Role :: u in after <==> u in store)
            && (forall u: Uid | u.kind != Role && u in store :: after[u] == store[u])
  {
    if uids == [] {
      assert base + RoleEntities(uids) == base;
    } else {
      RoleStore(store, Init(uids), base);
      assert Init(base + RoleEntities(uids)) == base + RoleEntities(Init(uids));
      assert Last(base + RoleEntities(uids)) == Entity(Last(uids), map[], []);
      assert Last(uids) in uids;
    }
  }

  /** Before the resource joins, the store knows the principal and no other user or object. */
  lemma PrincipalStore(q: Request)
    ensures var store := StoreOf(PrincipalEntities(q.userId, q.held));
            && (forall u: Uid | u.kind != Role :: u in store <==> u == Uid(User, q.userId))
            && store[Uid(User, q.userId)] == Facts(PrincipalAttrs(q.held), ParentSet(RoleUids(q.held)))
  {
    var me := Entity(Uid(User, q.userId), PrincipalAttrs(q.held), RoleUids(q.held));
    assert Init([me]) == [];
    assert StoreOf([me]) == Merge(map[], me);
    assert map[] + me.attrs == me.attrs && {} + ParentSet(me.parents) == ParentSet(me.parents);
    RoleStore(StoreOf([me]), RoleUids(q.held), [me]);
  }

  lemma ResourceJoins(q: Request)
    ensures EnvOf(q).store == Merge(StoreOf(PrincipalEntities(q.userId, q.held)), Entity(q.resource, q.attrs, []))
  {
  }

  /** The merged attributes of principal and resource, and the roles the principal is in. */
  lemma MergedFacts(q: Request)
    requires q.resource.kind != Role
    ensures var env := EnvOf(q);
            var self := env.principal == env.resource;
            && AttrsOf(env, env.resource) == (if self then PrincipalAttrs(q.held) + q.attrs else q.attrs)
            && AttrsOf(env, env.principal)
               == (if self then PrincipalAttrs(q.held) + q.attrs else PrincipalAttrs(q.held))
            && forall r: Id :: Within(env, env.principal, Uid(Role, r)) <==>
               exists row <- q.held :: row.active && row.id == r
  {
    MergedStore(q);
    var env := EnvOf(q);
    hide EnvOf, ParentSet, PrincipalAttrs;
    RolesWithin(q);
  }

  /** The principal's facts are found under its uid, merged with the resource's if they are one. */
  lemma MergedStore(q: Request)
    requires q.resource.kind != Role
    ensures var env := EnvOf(q);
            var self := env.principal == env.resource;
            && env.principal == Uid(User, q.userId) && env.resource == q.resource
            && env.principal in env.store && env.resource in env.store
            && env.store[env.resource].attrs == (if self then PrincipalAttrs(q.held) + q.attrs else q.attrs)
            && env.store[env.principal].attrs ==
               (if self then PrincipalAttrs(q.held) + q.attrs else PrincipalAttrs(q.held))
            && env.store[env.principal].parents == ParentSet(RoleUids(q.held))
  {
    PrincipalStore(q);
    ResourceJoins(q);
    var env, me, store := EnvOf(q), Uid(User, q.userId), StoreOf(PrincipalEntities(q.userId, q.held));
    assert env.principal == me && env.resource == q.resource
           && env.store == Merge(store, Entity(q.resource, q.attrs, []));
    hide EnvOf, PrincipalEntities, StoreOf, PrincipalAttrs, RoleUids;
    if me == q.resource {
      MergeKnown(store, q.resource, q.attrs);
    } else {
      MergeNew(store, q.resource, q.attrs);
    }
  }

  lemma MergeNew(store: map<Uid, Facts>, uid: Uid, attrs: map<string, Value>)
    requires uid !in store
    ensures Merge(store, Entity(uid, attrs, [])) == store[uid := Facts(attrs, {})]
  {
    assert map[] + attrs == attrs && {} + ParentSet([]) == {};
  }

  lemma MergeKnown(store: map<Uid, Facts>, uid: Uid, attrs: map<string, Value>)
    requires uid in store
    ensures Merge(store, Entity(uid, attrs, [])) == store[uid := Facts(store[uid].attrs + attrs, store[uid].parents)]
  {
    assert store[uid].parents + ParentSet([]) == store[uid].parents;
  }

  lemma RolesWithin(q: Request)
    requires var env := EnvOf(q);
             env.principal.kind == User && env.principal in env.store
             && env.store[env.principal].parents == ParentSet(RoleUids(q.held))
    ensures var env := EnvOf(q);
            forall r: Id :: Within(env, env.principal, Uid(Role, r)) <==>
                exists row <- q.held :: row.active && row.id == r
  {
    var env := EnvOf(q);
    hide EnvOf;
    forall r: Id
      ensures Within(env, env.principal, Uid(Role, r)) <==> exists row <- q.held :: row.active && row.id == r
    {
      assert Uid(Role, r) in RoleUids(q.held) <==>
             exists row <- q.held :: row.active && Uid(Role, r) == Uid(Role, row.id);
    }
  }

  /** An active role of the user is in this division. */
  predicate DivisionMember(held: seq<RoleRow>, id: Id) { exists r <- held :: r.active && r.divisionId == Some(id) }

  predicate TeamMember(held: seq<RoleRow>, id: Id) { exists r <- held :: r.active && r.teamId == Some(id) }

  lemma MemberSets(held: seq<RoleRow>, uid: Uid)
    ensures uid in MemberDivisions(held) <==> uid.kind == Division && uid.id != "" && DivisionMember(held, uid.id)
    ensures uid in MemberTeams(held) <==> uid.kind == Team && uid.id != "" && TeamMember(held, uid.id)
  {
  }

  /**
   * What the merged store tells about the principal and the resource, in terms of the rows: the
   * resource keeps its attributes, the principal is in exactly its active roles, and its two
   * membership sets name exactly the divisions and teams of its active roles, also when it is
   * itself the resource, unless that brings such a set of its own.
   */
  lemma EnvFacts(q: Request)
    requires q.resource.kind != Role
    ensures var env := EnvOf(q);
            var mine, theirs := AttrsOf(env, env.principal), AttrsOf(env, env.resource);
            && (forall a | a != "memberDivisions" && a != "memberTeams" ::
                  (a in theirs <==> a in q.attrs) && (a in q.attrs ==> theirs[a] == q.attrs[a]))
            && (forall r: Id :: Within(env, env.principal, Uid(Role, r)) <==>
                 exists row <- q.held :: row.active && row.id == r)
            && "memberDivisions" in mine && "memberTeams" in mine
            && ("memberDivisions" !in q.attrs ==>
                  && mine["memberDivisions"].Refs?
                  && forall u :: u in mine["memberDivisions"].uids <==>
                       u.kind == Division && u.id != "" && DivisionMember(q.held, u.id))
            && ("memberTeams" !in q.attrs ==>
                  && mine["memberTeams"].Refs?
                  && forall u :: u in mine["memberTeams"].uids <==>
                       u.kind == Team && u.id != "" && TeamMember(q.held, u.id))
  {
    MergedFacts(q);
    var env := EnvOf(q);
    var mine := AttrsOf(env, env.principal);
    hide EnvOf, MemberDivisions, MemberTeams, DivisionMember, TeamMember, Within;
    forall u
      ensures u in MemberDivisions(q.held) <==> u.kind == Division && u.id != "" && DivisionMember(q.held, u.id)
      ensures u in MemberTeams(q.held) <==> u.kind == Team && u.id != "" && TeamMember(q.held, u.id)
    {
      MemberSets(q.held, u);
    }
    assert "memberDivisions" !in q.attrs ==> mine["memberDivisions"] == Refs(MemberDivisions(q.held));
    assert "memberTeams" !in q.attrs ==> mine["memberTeams"] == Refs(MemberTeams(q.held));
  }

  /* ---------- What a grant means, on the rows ---------- */

  predicate Names(attrs: map<string, Value>, attr: string, uid: Uid) {
    attr in attrs && attrs[attr] == Ref(uid)
  }

  predicate NamesOneOf(attrs: map<string, Value>, attr: string, uids: set<Uid>) {
    attr in attrs && attrs[attr].Ref? && attrs[attr].uid in uids
  }

  predicate Flagged(attrs: map<string, Value>, attr: string) { attr in attrs && attrs[attr] == Bool(true) }

  /** The resource is in the division of an active role of the user. */
  predicate InOwnDivision(q: Request) {
    && "division" in q.attrs
    && exists r <- q.held ::
         r.active && r.divisionId.Some? && r.divisionId.value != ""
         && q.attrs["division"] == Ref(Uid(Division, r.divisionId.value))
  }

  predicate InOwnTeam(q: Request) {
    && "team" in q.attrs
    && exists r <- q.held ::
         r.active && r.teamId.Some? && r.teamId.value != "" && q.attrs["team"] == Ref(Uid(Team, r.teamId.value))
  }

  /** Two-sided claim eligibility: each group either leaves claims open or counts the user a member. */
  predicate Eligible(q: Request) {
    && (Flagged(q.attrs, "divisionRestrictsClaims") ==> InOwnDivision(q))
    && (Flagged(q.attrs, "teamRestrictsClaims") ==> InOwnTeam(q))
  }

  /** The resource names the row that a scope points at; a missing id is read as the empty one. */
  predicate NamesRow(attrs: map<string, Value>, attr: string, kind: EntityType, id: Option<Id>) {
    attr in attrs &&
    match id
    case Some(i) => attrs[attr] == Ref(Uid(kind, i))
    case None => attrs[attr] == Ref(Uid(kind, ""))
  }

  const TASK_ACTIONS: set<string> :=
    {"task:update", "task:retire", "task:revive", "task:configure_request_template", "task:manage_claims",
     "task:change_requester", "task:review", "task:retire_submission", "task:complete"}
  const MESSAGE_ACTIONS: set<string> := {"message:create", "message:update", "message:retire"}
  const ATTACHMENT_ACTIONS: set<string> := {"attachment:create", "attachment:retire", "attachment:revive"}

  /** Who owns the resource of an action: requester, sender, uploader or claimant. */
  predicate Owns(q: Request, action: string) {
    || (action in TASK_ACTIONS && Names(q.attrs, "requester", Uid(User, q.userId)))
    || (action in MESSAGE_ACTIONS && Names(q.attrs, "sender", Uid(User, q.userId)))
    || (action in ATTACHMENT_ACTIONS && Names(q.attrs, "uploader", Uid(User, q.userId)))
    || (action == "task:submit" && Names(q.attrs, "claimant", Uid(User, q.userId)))
  }

  predicate HasOwner(action: string) {
    action in TASK_ACTIONS || action in MESSAGE_ACTIONS || action in ATTACHMENT_ACTIONS || action == "task:submit"
  }

  predicate ScopeHolds(g: Grant, q: Request) {
    match g.scope
    case Global => true
    case SpecificDivision => NamesRow(q.attrs, "division", Division, g.divisionId)
    case SpecificTeam => NamesRow(q.attrs, "team", Team, g.teamId)
    case OwnDivision => InOwnDivision(q)
    case OwnTeam => InOwnTeam(q)
    case OfRole => NamesRow(q.attrs, "targetRole", Role, g.targetRoleId)
    case Own => if g.action == "task:assign" then Eligible(q) else Owns(q, g.action)
  }

  /** The attribute that an own policy compares is the owner of the action's resource. */
  lemma OwnAttrIsOwner(q: Request, action: string)
    ensures OwnAttr(action).Some? <==> HasOwner(action)
    ensures OwnAttr(action).Some? ==> (Owns(q, action) <==> Names(q.attrs, OwnAttr(action).value, Uid(User, q.userId)))
  {
  }

  lemma MembershipNamed(q: Request)
    ensures NamesOneOf(q.attrs, "division", MemberDivisions(q.held)) <==> InOwnDivision(q)
    ensures NamesOneOf(q.attrs, "team", MemberTeams(q.held)) <==> InOwnTeam(q)
  {
  }

  predicate Applies(g: Grant, q: Request) {
    && (exists r <- q.held :: r.active && r.id == g.roleId)
    && q.action == g.action
    && ScopeHolds(g, q)
  }

  /** What the policies may rely on: flags are booleans, and membership is the principal's to state. */
  predicate WellTyped(attrs: map<string, Value>) {
    && (forall flag <- ["retired", "divisionRestrictsClaims", "teamRestrictsClaims"] :: flag in attrs ==>
       attrs[flag].Bool?)
    && "memberDivisions" !in attrs && "memberTeams" !in attrs
  }

  predicate Allowed(selfReviewAllowed: bool, registered: seq<string>, grants: seq<Grant>, q: Request) {
    && ((q.action == "user:update" && q.resource == Uid(User, q.userId))
        || exists g <- grants :: g.effect == Permit && Applies(g, q))
    && !Flagged(q.attrs, "retired")
    && (forall g <- grants :: g.effect == Forbid ==> !Applies(g, q))
    && !(q.action == "task:review" && "task:review" in registered && !selfReviewAllowed
         && Names(q.attrs, "claimant", Uid(User, q.userId)))
  }

  /* ---------- The compiled conditions, evaluated ---------- */

  lemma EvalGuarded(env: Env, attr: string, body: Expr)
    ensures Eval(Guarded(attr, body), env) ==
            if attr in AttrsOf(env, env.resource) then AsBool(Eval(body, env)) else Val(Bool(false))
  {
    assert Eval(Has(Resource, attr), env) == Val(Bool(attr in AttrsOf(env, env.resource)));
  }

  lemma EvalGet(env: Env, attr: string)
    ensures Eval(Get(Resource, attr), env) ==
            if attr in AttrsOf(env, env.resource) then Val(AttrsOf(env, env.resource)[attr]) else MissingAttribute
    ensures Eval(Get(Principal, attr), env) ==
            if attr in AttrsOf(env, env.principal) then Val(AttrsOf(env, env.principal)[attr]) else MissingAttribute
  {
  }

  lemma EvalGuardedContains(env: Env, members: string, group: string)
    requires members in AttrsOf(env, env.principal)
    ensures var o := Eval(Guarded(group, Contains(Get(Principal, members), Get(Resource, group))), env);
            && o != MissingAttribute
            && (AttrsOf(env, env.principal)[members].Refs? ==>
                  o == Val(Bool(NamesOneOf(AttrsOf(env, env.resource), group,
                      AttrsOf(env, env.principal)[members].uids))))
  {
    EvalGuarded(env, group, Contains(Get(Principal, members), Get(Resource, group)));
    EvalGet(env, group);
    EvalGet(env, members);
  }

  lemma EvalGuardedEq(env: Env, attr: string, to: Expr, uid: Uid)
    requires Eval(to, env) == Val(Ref(uid))
    ensures Eval(Guarded(attr, Eq(Get(Resource, attr), to)), env)
            == Val(Bool(Names(AttrsOf(env, env.resource), attr, uid)))
  {
    EvalGuarded(env, attr, Eq(Get(Resource, attr), to));
    EvalGet(env, attr);
  }

  lemma EvalFlag(env: Env, flag: string)
    ensures var o := Eval(Guarded(flag, Get(Resource, flag)), env);
            && o != MissingAttribute
            && o == if flag in AttrsOf(env, env.resource) && !AttrsOf(env, env.resource)[flag].Bool? then TypeFault
                    else Val(Bool(Flagged(AttrsOf(env, env.resource), flag)))
  {
    EvalGuarded(env, flag, Get(Resource, flag));
    EvalGet(env, flag);
  }
}
