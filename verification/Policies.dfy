/** Projection of grant rows and the static policies into Cedar policies. */
module Policies {
  import opened Common
  import opened Cedar

  datatype ScopeKind = Global | Own | OwnDivision | OwnTeam | SpecificDivision | SpecificTeam | OfRole

  datatype Grant = Grant(
    id: Id, roleId: Id, action: string, effect: Effect, scope: ScopeKind,
    divisionId: Option<Id>, teamId: Option<Id>, targetRoleId: Option<Id>)

  function IdOr(id: Option<Id>): Id { if id.Some? then id.value else "" }

  /** The attribute that names the owner a resource has for an action of the own family. */
  function OwnAttr(action: string): Option<string> {
    if action in {"task:update", "task:retire", "task:revive", "task:configure_request_template",
                  "task:manage_claims", "task:change_requester",
                  "task:review", "task:retire_submission", "task:complete"} then Some("requester")
    else if action in {"message:create", "message:update", "message:retire"} then Some("sender")
    else if action in {"attachment:create", "attachment:retire", "attachment:revive"} then Some("uploader")
    else if action == "task:submit" then Some("claimant")
    else None
  }

  /** `resource has attr && then` */
  function Guarded(attr: string, body: Expr): Expr { And(Has(Resource, attr), body) }

  /** One side of claim eligibility: the group does not restrict claims, or the principal is in it. */
  function EligibleSide(restricts: string, group: string, members: string): Expr {
    Or(Not(Guarded(restricts, Get(Resource, restricts))),
       Guarded(group, Contains(Get(Principal, members), Get(Resource, group))))
  }

  function ClaimEligibility(): Expr {
    And(EligibleSide("divisionRestrictsClaims", "division", "memberDivisions"),
        EligibleSide("teamRestrictsClaims", "team", "memberTeams"))
  }

  /** The `when` clause of a grant; none when an own grant has no owner relation to project. */
  function ScopeCondition(g: Grant): Option<Expr> {
    match g.scope
    case Global => Some(Lit(Bool(true)))
    case SpecificDivision =>
      Some(Guarded("division", Eq(Get(Resource, "division"), Lit(Ref(Uid(Division, IdOr(g.divisionId)))))))
    case SpecificTeam => Some(Guarded("team", Eq(Get(Resource, "team"), Lit(Ref(Uid(Team, IdOr(g.teamId)))))))
    case OwnDivision =>
      Some(Guarded("division", Contains(Get(Principal, "memberDivisions"), Get(Resource, "division"))))
    case OwnTeam => Some(Guarded("team", Contains(Get(Principal, "memberTeams"), Get(Resource, "team"))))
    case OfRole =>
      Some(Guarded("targetRole", Eq(Get(Resource, "targetRole"), Lit(Ref(Uid(Role, IdOr(g.targetRoleId)))))))
    case Own =>
      if g.action == "task:assign" then Some(ClaimEligibility())
      else
        var attr := OwnAttr(g.action);
        if attr.None? then None
        else Some(Guarded(attr.value, Eq(Get(Resource, attr.value), Principal)))
  }

  function GrantToPolicy(g: Grant): Option<Policy> {
    var condition := ScopeCondition(g);
    if condition.None? then None
    else Some(Policy(g.effect, Some(Uid(Role, g.roleId)), Some(g.action), condition.value))
  }

  /** The policies that do not depend on grant rows. */
  method StaticPolicies(selfReviewAllowed: bool, registeredActions: seq<string>) returns (policies: seq<Policy>)
    ensures policies == Statics(selfReviewAllowed, registeredActions)
  {
    policies := [];
    policies := policies + [HardDeny()];
    policies := policies + [SelfAccess()];
    if !selfReviewAllowed && "task:review" in registeredActions {
      policies := policies + [SelfReviewForbid()];
    }
  }

  function HardDeny(): Policy { Policy(Forbid, None, None, Guarded("retired", Get(Resource, "retired"))) }

  function SelfAccess(): Policy { Policy(Permit, None, Some("user:update"), Eq(Principal, Resource)) }

  function SelfReviewForbid(): Policy {
    Policy(Forbid, None, Some("task:review"), Guarded("claimant", Eq(Get(Resource, "claimant"), Principal)))
  }

  function Statics(selfReviewAllowed: bool, registeredActions: seq<string>): seq<Policy> {
    [HardDeny(), SelfAccess()]
    + if !selfReviewAllowed && "task:review" in registeredActions then [SelfReviewForbid()] else []
  }

  /** All policies of a set of grants, or none when one of them cannot be projected. */
  function Project(selfReviewAllowed: bool, registeredActions: seq<string>, grants: seq<Grant>): Option<seq<Policy>> {
    if exists g <- grants :: GrantToPolicy(g).None? then None
    else Some(Statics(selfReviewAllowed, registeredActions) + Compiled(grants))
  }

  function Compiled(grants: seq<Grant>): (policies: seq<Policy>)
    requires forall g <- grants :: GrantToPolicy(g).Some?
    ensures |policies| == |grants|
    ensures forall i :: 0 <= i < |grants| ==> policies[i] == GrantToPolicy(grants[i]).value
  {
    if grants == [] then [] else Compiled(grants[..|grants| - 1]) + [GrantToPolicy(grants[|grants| - 1]).value]
  }

  /* ---------- The shape that grants.service accepts ---------- */

  datatype ShapeError =
    | UnknownAction
    | NeedsDivision | NeedsTeam | NeedsRole
    | ExtraScopeId
    | NotGroupScopable | NotRoleScopable

  /** A JavaScript truthy id. */
  predicate Given(id: Option<Id>) { id.Some? && id.value != "" }

  /** `assertShape`: the first complaint, in the order in which the checks are made. */
  function AssertShape(vocabulary: map<string, EntityType>, g: Grant): Option<ShapeError> {
    if g.action !in vocabulary then Some(UnknownAction)
    else
      var kind := vocabulary[g.action];
      var groupScopable := if kind in {Task, Message, Attachment, Division} then None else Some(NotGroupScopable);
      match g.scope
      case SpecificDivision =>
        if !Given(g.divisionId) then Some(NeedsDivision)
        else if Given(g.teamId) || Given(g.targetRoleId) then Some(ExtraScopeId)
        else groupScopable
      case SpecificTeam =>
        if !Given(g.teamId) then Some(NeedsTeam)
        else if Given(g.divisionId) || Given(g.targetRoleId) then Some(ExtraScopeId)
        else groupScopable
      case OwnDivision =>
        if Given(g.divisionId) || Given(g.teamId) || Given(g.targetRoleId) then Some(ExtraScopeId) else groupScopable
      case OwnTeam =>
        if Given(g.divisionId) || Given(g.teamId) || Given(g.targetRoleId) then Some(ExtraScopeId) else groupScopable
      case OfRole =>
        if !Given(g.targetRoleId) then Some(NeedsRole)
        else if Given(g.divisionId) || Given(g.teamId) then Some(ExtraScopeId)
        else if kind != User then Some(NotRoleScopable)
        else None
      case Global =>
        if Given(g.divisionId) || Given(g.teamId) || Given(g.targetRoleId) then Some(ExtraScopeId) else None
      case Own => if Given(g.divisionId) || Given(g.teamId) || Given(g.targetRoleId) then Some(ExtraScopeId) else None
  }
}
