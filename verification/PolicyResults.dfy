/** Compilation preserves meaning: the projected policies decide what the grant rows say. */
module PolicyResults {
  import opened Common
  import opened Cedar
  import opened Policies
  import opened PolicyMeaning

  /* ---------- No missing attribute ---------- */

  lemma EvalAnd(env: Env, a: Expr, b: Expr)
    ensures Eval(And(a, b), env) ==
            match Eval(a, env)
            case Val(Bool(x)) => if x then AsBool(Eval(b, env)) else Val(Bool(false))
            case Val(_) => TypeFault
            case fault => fault
  {
  }

  lemma EvalSide(env: Env, restricts: string, group: string, members: string)
    requires members in AttrsOf(env, env.principal)
    ensures var o := Eval(EligibleSide(restricts, group, members), env);
            var attrs, mine := AttrsOf(env, env.resource), AttrsOf(env, env.principal)[members];
            && o != MissingAttribute
            && ((restricts in attrs ==> attrs[restricts].Bool?) && mine.Refs? ==>
                  o == Val(Bool(Flagged(attrs, restricts) ==> NamesOneOf(attrs, group, mine.uids))))
  {
    EvalFlag(env, restricts);
    EvalGuardedContains(env, members, group);
    var flag := Guarded(restricts, Get(Resource, restricts));
    var member := Guarded(group, Contains(Get(Principal, members), Get(Resource, group)));
    hide AttrsOf, Guarded;
    assert EligibleSide(restricts, group, members) == Or(Not(flag), member);
    assert Eval(Not(flag), env) ==
           match Eval(flag, env) case Val(Bool(x)) => Val(Bool(!x)) case Val(_) => TypeFault case fault => fault;
  }

  /** The principal always carries both membership sets, whatever attributes the resource brings. */
  lemma PrincipalHasMembers(q: Request)
    requires q.resource.kind != Role
    ensures "memberDivisions" in AttrsOf(EnvOf(q), EnvOf(q).principal)
    ensures "memberTeams" in AttrsOf(EnvOf(q), EnvOf(q).principal)
  {
    MergedFacts(q);
  }

  /**
   * Whatever attributes a resource has or lacks, of whatever types, and whoever asks, no projected
   * condition ever stops at a missing attribute, the self-targeting request included.
   */
  lemma NeverMissing(g: Grant, q: Request)
    requires q.resource.kind != Role && ScopeCondition(g).Some?
    ensures Eval(ScopeCondition(g).value, EnvOf(q)) != MissingAttribute
  {
    PrincipalHasMembers(q);
    var env := EnvOf(q);
    hide EnvOf;
    match g.scope
    case Global =>
    case SpecificDivision => EvalGuardedEq(env, "division", Lit(Ref(Uid(Division, IdOr(g.divisionId)))),
        Uid(Division, IdOr(g.divisionId)));
    case SpecificTeam => EvalGuardedEq(env, "team", Lit(Ref(Uid(Team, IdOr(g.teamId)))), Uid(Team, IdOr(g.teamId)));
    case OwnDivision => EvalGuardedContains(env, "memberDivisions", "division");
    case OwnTeam => EvalGuardedContains(env, "memberTeams", "team");
    case OfRole => EvalGuardedEq(env, "targetRole", Lit(Ref(Uid(Role, IdOr(g.targetRoleId)))),
        Uid(Role, IdOr(g.targetRoleId)));
    case Own =>
      if g.action == "task:assign" {
        var division := EligibleSide("divisionRestrictsClaims", "division", "memberDivisions");
        var team := EligibleSide("teamRestrictsClaims", "team", "memberTeams");
        EvalSide(env, "divisionRestrictsClaims", "division", "memberDivisions");
        EvalSide(env, "teamRestrictsClaims", "team", "memberTeams");
        hide EligibleSide;
        EvalAnd(env, division, team);
      } else {
        EvalGuardedEq(env, OwnAttr(g.action).value, Principal, env.principal);
      }
  }

  lemma StaticsNeverMissing(selfReviewAllowed: bool, registered: seq<string>, p: Policy, q: Request)
    requires p in Statics(selfReviewAllowed, registered)
    ensures Eval(p.condition, EnvOf(q)) != MissingAttribute
  {
    var env := EnvOf(q);
    hide EnvOf;
    EvalFlag(env, "retired");
    EvalGuardedEq(env, "claimant", Principal, env.principal);
  }

  /* ---------- Each condition means its scope ---------- */

  /** The attributes a policy reads of the resource are the request's, even when it is the principal. */
  lemma ReadsThrough(q: Request, attr: string)
    requires q.resource.kind != Role && attr != "memberDivisions" && attr != "memberTeams"
    ensures var seen := AttrsOf(EnvOf(q), q.resource);
            (attr in seen <==> attr in q.attrs) && (attr in q.attrs ==> seen[attr] == q.attrs[attr])
  {
    MergedFacts(q);
  }

  lemma MembersAre(q: Request)
    requires q.resource.kind != Role && WellTyped(q.attrs)
    ensures var mine := AttrsOf(EnvOf(q), EnvOf(q).principal);
            && "memberDivisions" in mine && mine["memberDivisions"] == Refs(MemberDivisions(q.held))
            && "memberTeams" in mine && mine["memberTeams"] == Refs(MemberTeams(q.held))
  {
    MergedFacts(q);
  }

  lemma OwnAttrIsPlain(action: string)
    ensures OwnAttr(action).Some? ==>
            OwnAttr(action).value != "memberDivisions" && OwnAttr(action).value != "memberTeams"
  {
  }

  lemma ConditionMeans(g: Grant, q: Request)
    requires q.resource.kind != Role && WellTyped(q.attrs) && ScopeCondition(g).Some?
    ensures Eval(ScopeCondition(g).value, EnvOf(q)) == Val(Bool(ScopeHolds(g, q)))
  {
    MembersAre(q);
    MembershipNamed(q);
    ReadsThrough(q, "division");
    ReadsThrough(q, "team");
    var env := EnvOf(q);
    match g.scope
    case Global =>
    case SpecificDivision =>
      hide EnvOf;
      EvalGuardedEq(env, "division", Lit(Ref(Uid(Division, IdOr(g.divisionId)))), Uid(Division, IdOr(g.divisionId)));
    case SpecificTeam =>
      hide EnvOf;
      EvalGuardedEq(env, "team", Lit(Ref(Uid(Team, IdOr(g.teamId)))), Uid(Team, IdOr(g.teamId)));
    case OwnDivision =>
      hide EnvOf;
      EvalGuardedContains(env, "memberDivisions", "division");
    case OwnTeam =>
      hide EnvOf;
      EvalGuardedContains(env, "memberTeams", "team");
    case OfRole =>
      ReadsThrough(q, "targetRole");
      hide EnvOf;
      EvalGuardedEq(env, "targetRole", Lit(Ref(Uid(Role, IdOr(g.targetRoleId)))), Uid(Role, IdOr(g.targetRoleId)));
    case Own =>
      if g.action == "task:assign" {
        ClaimMeansEligible(q);
      } else {
        OwnAttrIsPlain(g.action);
        OwnAttrIsOwner(q, g.action);
        ReadsThrough(q, OwnAttr(g.action).value);
        EvalGuardedEq(env, OwnAttr(g.action).value, Principal, env.principal);
        hide EnvOf;
      }
  }

  /** The claim condition is exactly the two-sided membership rule. */
  lemma ClaimMeansEligible(q: Request)
    requires q.resource.kind != Role && WellTyped(q.attrs)
    ensures Eval(ClaimEligibility(), EnvOf(q)) == Val(Bool(Eligible(q)))
  {
    MembersAre(q);
    MembershipNamed(q);
    ReadsThrough(q, "division");
    ReadsThrough(q, "team");
    ReadsThrough(q, "divisionRestrictsClaims");
    ReadsThrough(q, "teamRestrictsClaims");
    var env := EnvOf(q);
    assert env.resource == q.resource;
    hide EnvOf;
    var division := EligibleSide("divisionRestrictsClaims", "division", "memberDivisions");
    var team := EligibleSide("teamRestrictsClaims", "team", "memberTeams");
    EvalSide(env, "divisionRestrictsClaims", "division", "memberDivisions");
    EvalSide(env, "teamRestrictsClaims", "team", "memberTeams");
    assert ClaimEligibility() == And(division, team);
    hide EligibleSide, ClaimEligibility;
    assert "divisionRestrictsClaims" in ["retired", "divisionRestrictsClaims", "teamRestrictsClaims"];
    assert "teamRestrictsClaims" in ["retired", "divisionRestrictsClaims", "teamRestrictsClaims"];
    EvalAnd(env, division, team);
  }

  lemma GrantMeans(g: Grant, q: Request)
    requires q.resource.kind != Role && WellTyped(q.attrs) && GrantToPolicy(g).Some?
    ensures Satisfied(GrantToPolicy(g).value, EnvOf(q)) <==> Applies(g, q)
  {
    ConditionMeans(g, q);
    MergedFacts(q);
    hide ScopeCondition, ScopeHolds, AttrsOf;
    assert Within(EnvOf(q), EnvOf(q).principal, Uid(Role, g.roleId)) <==>
           exists r <- q.held :: r.active && r.id == g.roleId;
  }

  lemma StaticsMean(q: Request)
    requires q.resource.kind != Role && WellTyped(q.attrs)
    ensures var env := EnvOf(q);
            && (Satisfied(HardDeny(), env) <==> Flagged(q.attrs, "retired"))
            && (Satisfied(SelfAccess(), env) <==> q.action == "user:update" && q.resource == Uid(User, q.userId))
            && (Satisfied(SelfReviewForbid(), env) <==>
                  q.action == "task:review" && Names(q.attrs, "claimant", Uid(User, q.userId)))
  {
    var env := EnvOf(q);
    assert "retired" in ["retired", "divisionRestrictsClaims", "teamRestrictsClaims"];
    ReadsThrough(q, "retired");
    ReadsThrough(q, "claimant");
    assert env.resource == q.resource && env.action == q.action && env.principal == Uid(User, q.userId);
    hide EnvOf;
    EvalFlag(env, "retired");
    EvalGuardedEq(env, "claimant", Principal, env.principal);
    assert Eval(Principal, env) == Val(Ref(env.principal)) && Eval(Resource, env) == Val(Ref(env.resource));
    assert Eval(Eq(Principal, Resource), env) == Val(Bool(env.principal == env.resource));
  }

  /* ---------- The decision ---------- */

  lemma CompiledMembers(grants: seq<Grant>, p: Policy)
    requires forall g <- grants :: GrantToPolicy(g).Some?
    ensures p in Compiled(grants) <==> exists g <- grants :: p == GrantToPolicy(g).value
  {
  }

  /** Some grant policy with the effect is satisfied exactly when some grant with it applies. */
  lemma CompiledEffect(grants: seq<Grant>, q: Request, effect: Effect)
    requires q.resource.kind != Role && WellTyped(q.attrs)
    requires forall g <- grants :: GrantToPolicy(g).Some?
    ensures (exists p <- Compiled(grants) :: p.effect == effect && Satisfied(p, EnvOf(q))) <==>
            (exists g <- grants :: g.effect == effect && Applies(g, q))
  {
    hide EnvOf, Satisfied, Applies, Compiled;
    if p :| p in Compiled(grants) && p.effect == effect && Satisfied(p, EnvOf(q)) {
      CompiledMembers(grants, p);
      var g :| g in grants && p == GrantToPolicy(g).value;
      GrantMeans(g, q);
    }
    if g :| g in grants && g.effect == effect && Applies(g, q) {
      GrantMeans(g, q);
      CompiledMembers(grants, GrantToPolicy(g).value);
    }
  }

  /** Splits a policy set into its static and its grant part. */
  lemma AuthorizedParts(statics: seq<Policy>, rest: seq<Policy>, env: Env)
    ensures IsAuthorized(statics + rest, env) <==>
            && ((exists p <- statics :: p.effect == Permit && Satisfied(p, env))
                || exists p <- rest :: p.effect == Permit && Satisfied(p, env))
            && !(exists p <- statics :: p.effect == Forbid && Satisfied(p, env))
            && !(exists p <- rest :: p.effect == Forbid && Satisfied(p, env))
  {
  }

  lemma StaticPart(selfReviewAllowed: bool, registered: seq<string>, env: Env)
    ensures var statics := Statics(selfReviewAllowed, registered);
            && ((exists p <- statics :: p.effect == Permit && Satisfied(p, env)) <==> Satisfied(SelfAccess(), env))
            && ((exists p <- statics :: p.effect == Forbid && Satisfied(p, env)) <==>
                  || Satisfied(HardDeny(), env)
                  || (!selfReviewAllowed && "task:review" in registered && Satisfied(SelfReviewForbid(), env)))
  {
  }

  /**
   * The decision on the compiled policies is the one the rows call for: self-access or an
   * applicable permit, and neither a retired target, nor an applicable forbid, nor a forbidden
   * self-review.
   */
  lemma DecisionMeansRows(selfReviewAllowed: bool, registered: seq<string>, grants: seq<Grant>, q: Request)
    requires q.resource.kind != Role && WellTyped(q.attrs)
    requires Project(selfReviewAllowed, registered, grants).Some?
    ensures IsAuthorized(Project(selfReviewAllowed, registered, grants).value, EnvOf(q)) <==>
            Allowed(selfReviewAllowed, registered, grants, q)
  {
    StaticsMean(q);
    CompiledEffect(grants, q, Permit);
    CompiledEffect(grants, q, Forbid);
    AuthorizedParts(Statics(selfReviewAllowed, registered), Compiled(grants), EnvOf(q));
    StaticPart(selfReviewAllowed, registered, EnvOf(q));
    hide EnvOf, Satisfied, Applies, Compiled, IsAuthorized, Statics;
  }

  /**
   * A projection fails exactly when some grant is an own grant for an action without an owner
   * relation.
   */
  lemma ProjectionFailsIff(selfReviewAllowed: bool, registered: seq<string>, grants: seq<Grant>)
    ensures Project(selfReviewAllowed, registered, grants).None? <==>
            exists g <- grants :: g.scope == Own && g.action != "task:assign" && !HasOwner(g.action)
  {
  }

  predicate Present(id: Option<Id>) { id.Some? && id.value != "" }

  /** What `assertShape` lets through: the one id the scope needs, and a resource that can be so scoped. */
  predicate WellShaped(vocabulary: map<string, EntityType>, g: Grant) {
    && g.action in vocabulary
    && (Present(g.divisionId) <==> g.scope == SpecificDivision)
    && (Present(g.teamId) <==> g.scope == SpecificTeam)
    && (Present(g.targetRoleId) <==> g.scope == OfRole)
    && (g.scope in {SpecificDivision, SpecificTeam, OwnDivision, OwnTeam} ==>
          vocabulary[g.action] in {Task, Message, Attachment, Division})
    && (g.scope == OfRole ==> vocabulary[g.action] == User)
  }

  lemma AssertShapeIff(vocabulary: map<string, EntityType>, g: Grant)
    ensures AssertShape(vocabulary, g).None? <==> WellShaped(vocabulary, g)
  {
  }

  /** The complaint about a grant that does not pass: an unknown action before a missing id before the rest. */
  lemma AssertShapeComplains(vocabulary: map<string, EntityType>, g: Grant)
    requires !WellShaped(vocabulary, g)
    ensures var complaint := AssertShape(vocabulary, g);
            && (complaint == Some(UnknownAction) <==> g.action !in vocabulary)
            && (g.action in vocabulary ==>
                  var kind := vocabulary[g.action];
                  var lacks := (g.scope == SpecificDivision && !Present(g.divisionId))
                               || (g.scope == SpecificTeam && !Present(g.teamId))
                               || (g.scope == OfRole && !Present(g.targetRoleId));
                  var extra := (Present(g.divisionId) && g.scope != SpecificDivision)
                               || (Present(g.teamId) && g.scope != SpecificTeam)
                               || (Present(g.targetRoleId) && g.scope != OfRole);
                  && (complaint == Some(NeedsDivision) <==> lacks && g.scope == SpecificDivision)
                  && (complaint == Some(NeedsTeam) <==> lacks && g.scope == SpecificTeam)
                  && (complaint == Some(NeedsRole) <==> lacks && g.scope == OfRole)
                  && (complaint == Some(ExtraScopeId) <==> !lacks && extra)
                  && (complaint == Some(NotRoleScopable) <==> !lacks && !extra && g.scope == OfRole)
                  && (complaint == Some(NotGroupScopable) <==> !lacks && !extra && g.scope != OfRole))
  {
  }
}
