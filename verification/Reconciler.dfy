/**
 * The desired-state planner of the two-way role sync.
 *
 * An edge is one (mapping, linked user) pair. It has an observed Discord bit, a Patrice
 * membership (absent, native or integration-sourced) and, when the baseline was loaded,
 * a baseline bit. `Plan` says what the planner decides edge by edge; `Reconcile` is the
 * nested loop over mappings and links that pushes onto five lists.
 */
module Reconciler {
  import opened Common

  datatype Direction = Inbound | Outbound | Bidirectional
  datatype Winner = PatriceWins | ExternalWins
  datatype Source = Native | Integration

  datatype Mapping = Mapping(
    id: Id, roleId: Id, groupId: Id, direction: Direction, isBroken: bool, winner: Winner)
  datatype Link = Link(userId: Id, externalUserId: Id)
  datatype Edge = Edge(mapping: Mapping, link: Link)

  datatype PaOp =
    | Grant(userId: Id, roleId: Id, groupId: Id)
    | Revoke(userId: Id, roleId: Id, groupId: Id)
  datatype ExternalOp = ExternalOp(externalUserId: Id, groupId: Id, add: bool)
  datatype BaselineRow = BaselineRow(mappingId: Id, externalUserId: Id, groupId: Id)

  datatype Input = Input(
    mappings: seq<Mapping>,
    links: seq<Link>,
    membership: map<Id, seq<Id>>,
    knownGroups: set<Id>,
    existingRoles: map<(Id, Id), Source>,
    roleRows: map<Id, Lifecycle>,
    baseline: Option<set<(Id, Id)>>)

  datatype Output = Output(
    paOps: seq<PaOp>,
    externalOps: seq<ExternalOp>,
    brokenMappingIds: seq<Id>,
    baselineUpserts: seq<BaselineRow>,
    baselineDeletes: seq<BaselineRow>)

  /* ---------- What the planner decides ---------- */

  /** What the planner wants done about one edge. */
  datatype Verdict = Keep | GrantPatrice | RevokePatrice | AddExternal | RemoveExternal

  /** What the planner knows of the two sides. */
  datatype View = View(
    held: set<(Id, Id)>,
    roles: map<(Id, Id), Source>,
    baseline: Option<set<(Id, Id)>>)

  function RoleKey(e: Edge): (Id, Id) { (e.link.userId, e.mapping.roleId) }
  function HeldKey(e: Edge): (Id, Id) { (e.link.externalUserId, e.mapping.groupId) }
  function RowOf(e: Edge): BaselineRow {
    BaselineRow(e.mapping.id, e.link.externalUserId, e.mapping.groupId)
  }

  function Lookup<K, V>(m: map<K, V>, k: K): Option<V> {
    if k in m then Some(m[k]) else None
  }

  function BaselineBit(e: Edge, v: View): Option<bool> {
    if v.baseline.None? then None else Some(HeldKey(e) in v.baseline.value)
  }

  /** The two sides of a bidirectional edge disagree and `desired` is the bit that should win. */
  function Settle(patrice: Option<Source>, external: bool, desired: bool): Verdict {
    if desired then if external then GrantPatrice else AddExternal
    else if external then RemoveExternal
    else RevokePatrice
  }

  /**
   * The decision for one edge. On a bidirectional edge with a baseline the bit that wins is
   * the one that differs from the baseline, unless Patrice holds the role natively: then the
   * role stays.
   */
  function Decide(m: Mapping, external: bool, patrice: Option<Source>, was: Option<bool>): Verdict {
    match m.direction
    case Inbound =>
      if external && patrice.None? then GrantPatrice
      else if !external && patrice == Some(Integration) then RevokePatrice
      else Keep
    case Outbound =>
      if patrice.Some? && !external then AddExternal
      else if patrice.None? && external then RemoveExternal
      else Keep
    case Bidirectional =>
      if external == patrice.Some? then Keep
      else if was.Some? then Settle(patrice, external, patrice == Some(Native) || !was.value)
      else if m.winner == PatriceWins then Settle(patrice, external, patrice.Some?)
      else if patrice == Some(Native) then Keep
      else Settle(patrice, external, external)
  }

  function VerdictOf(e: Edge, v: View): Verdict {
    Decide(e.mapping, HeldKey(e) in v.held, Lookup(v.roles, RoleKey(e)), BaselineBit(e, v))
  }

  function PaOpOf(e: Edge, v: View): seq<PaOp> {
    match VerdictOf(e, v)
    case GrantPatrice => [Grant(e.link.userId, e.mapping.roleId, e.mapping.groupId)]
    case RevokePatrice => [Revoke(e.link.userId, e.mapping.roleId, e.mapping.groupId)]
    case _ => []
  }

  function ExternalOpOf(e: Edge, v: View): seq<ExternalOp> {
    match VerdictOf(e, v)
    case AddExternal => [ExternalOp(e.link.externalUserId, e.mapping.groupId, true)]
    case RemoveExternal => [ExternalOp(e.link.externalUserId, e.mapping.groupId, false)]
    case _ => []
  }

  // The edge functions as values, so that one flat-map serves all five lists.
  function PaOpsIn(v: View): Edge -> seq<PaOp> { e => PaOpOf(e, v) }
  function ExternalOpsIn(v: View): Edge -> seq<ExternalOp> { e => ExternalOpOf(e, v) }
  function UpsertsIn(v: View): Edge -> seq<BaselineRow> {
    (e: Edge) => if HeldKey(e) in v.held then [RowOf(e)] else []
  }
  function DeletesIn(v: View): Edge -> seq<BaselineRow> {
    (e: Edge) => if HeldKey(e) in v.held then [] else [RowOf(e)]
  }

  /** The facts that decide which mappings take part in a run. */
  datatype Census = Census(anyMembers: bool, knownGroups: set<Id>, roleRows: map<Id, Lifecycle>)

  /** The provider answered and does not know this group any more. */
  predicate GroupGone(m: Mapping, c: Census) {
    c.anyMembers && m.groupId !in c.knownGroups
  }

  predicate Live(m: Mapping, c: Census) {
    !m.isBroken && !GroupGone(m, c) && m.roleId in c.roleRows && !c.roleRows[m.roleId].Retired?
  }

  function EdgesOfMapping(m: Mapping, links: seq<Link>): (es: seq<Edge>)
    ensures |es| == |links|
    ensures forall i :: 0 <= i < |links| ==> es[i] == Edge(m, links[i])
  {
    seq(|links|, i requires 0 <= i < |links| => Edge(m, links[i]))
  }

  /** The edges a run visits, mapping by mapping and user by user. */
  function EdgesIn(links: seq<Link>, c: Census): Mapping -> seq<Edge> {
    (m: Mapping) => if Live(m, c) then EdgesOfMapping(m, links) else []
  }

  function Edges(ms: seq<Mapping>, links: seq<Link>, c: Census): seq<Edge> {
    FlatMap(ms, EdgesIn(links, c))
  }

  function BrokenIn(c: Census): Mapping -> seq<Id> {
    (m: Mapping) => if !m.isBroken && GroupGone(m, c) then [m.id] else []
  }

  function PlanFor(es: seq<Edge>, v: View, broken: seq<Id>): Output {
    Output(
      FlatMap(es, PaOpsIn(v)), FlatMap(es, ExternalOpsIn(v)), broken,
      FlatMap(es, UpsertsIn(v)), FlatMap(es, DeletesIn(v)))
  }

  /** The (external user, group) pairs of a membership answer. */
  function HeldIn(membership: map<Id, seq<Id>>): set<(Id, Id)> {
    set u, g | u in membership && g in membership[u] :: (u, g)
  }

  function CensusOf(i: Input): Census {
    Census(|i.membership| > 0, i.knownGroups, i.roleRows)
  }

  function ViewOf(i: Input): View {
    View(HeldIn(i.membership), i.existingRoles, i.baseline)
  }

  function Plan(i: Input): Output {
    PlanFor(Edges(i.mappings, i.links, CensusOf(i)), ViewOf(i), FlatMap(i.mappings, BrokenIn(CensusOf(i))))
  }

  /** One more mapping: its edges if it is live, its id if its group is gone. */
  lemma EdgesSnoc(ms: seq<Mapping>, m: Mapping, links: seq<Link>, c: Census)
    ensures Edges(ms + [m], links, c) == Edges(ms, links, c) + EdgesIn(links, c)(m)
    ensures FlatMap(ms + [m], BrokenIn(c)) == FlatMap(ms, BrokenIn(c)) + BrokenIn(c)(m)
  {
  }

  /* ---------- The loops that compute the plan ---------- */

  /** The reverse index: group to the external users who hold it. */
  method IndexMembers(membership: map<Id, seq<Id>>) returns (membersOf: map<Id, set<Id>>)
    ensures forall g, u :: (g in membersOf && u in membersOf[g]) <==> (u, g) in HeldIn(membership)
  {
    membersOf := map[];
    var todo := membership.Keys;
    while todo != {}
      invariant todo <= membership.Keys
      invariant forall g, u :: (g in membersOf && u in membersOf[g]) <==>
                               (u in membership && u !in todo && g in membership[u])
    {
      var extUserId :| extUserId in todo;
      var groups := membership[extUserId];
      for k := 0 to |groups|
        invariant forall g, u :: (g in membersOf && u in membersOf[g]) <==>
                                 (u in membership && u !in todo && g in membership[u]) ||
                                 (u == extUserId && g in groups[..k])
      {
        var gid := groups[k];
        assert groups[..k + 1] == groups[..k] + [gid];
        if gid !in membersOf {
          membersOf := membersOf[gid := {}];
        }
        membersOf := membersOf[gid := membersOf[gid] + {extUserId}];
      }
      assert groups[..|groups|] == groups;
      todo := todo - {extUserId};
    }
  }

  /** Attribution of one bidirectional edge: appends to the lists it is given. */
  method ReconcileBidirectional(
    link: Link, mapping: Mapping, hasExternalRole: bool, existing: Option<Source>,
    baseline: Option<set<(Id, Id)>>, paOps: seq<PaOp>, externalOps: seq<ExternalOp>, ghost v: View)
    returns (paOps': seq<PaOp>, externalOps': seq<ExternalOp>)
    requires mapping.direction == Bidirectional
    requires v.baseline == baseline
    requires hasExternalRole == (HeldKey(Edge(mapping, link)) in v.held)
    requires existing == Lookup(v.roles, RoleKey(Edge(mapping, link)))
    ensures paOps' == paOps + PaOpOf(Edge(mapping, link), v)
    ensures externalOps' == externalOps + ExternalOpOf(Edge(mapping, link), v)
  {
    paOps', externalOps' := paOps, externalOps;
    ghost var e := Edge(mapping, link);
    assert VerdictOf(e, v) == Decide(mapping, hasExternalRole, existing, BaselineBit(e, v));
    assert paOps + [] == paOps && externalOps + [] == externalOps;
    assert existing.Some? ==> existing.value.Native? || existing.value.Integration?;
    assert mapping.winner.PatriceWins? || mapping.winner.ExternalWins?;
    var hasPatriceRole := existing.Some?;
    if hasExternalRole == hasPatriceRole {
      return;
    }
    if baseline.Some? {
      var wasInBaseline := (link.externalUserId, mapping.groupId) in baseline.value;
      assert BaselineBit(e, v) == Some(wasInBaseline);
      var externalDiverged := hasExternalRole != wasInBaseline;
      var patriceDiverged := hasPatriceRole != wasInBaseline;
      if externalDiverged && !patriceDiverged {
        if hasExternalRole {
          paOps' := paOps' + [Grant(link.userId, mapping.roleId, mapping.groupId)];
        } else if existing == Some(Integration) {
          paOps' := paOps' + [Revoke(link.userId, mapping.roleId, mapping.groupId)];
        } else {
          externalOps' := externalOps' + [ExternalOp(link.externalUserId, mapping.groupId, true)];
        }
      } else if patriceDiverged && !externalDiverged {
        externalOps' := externalOps' + [ExternalOp(link.externalUserId, mapping.groupId, hasPatriceRole)];
      }
      if !externalDiverged || !patriceDiverged {
        return;
      }
    }
    if mapping.winner == ExternalWins {
      if hasExternalRole && !hasPatriceRole {
        paOps' := paOps' + [Grant(link.userId, mapping.roleId, mapping.groupId)];
      } else if !hasExternalRole && existing == Some(Integration) {
        paOps' := paOps' + [Revoke(link.userId, mapping.roleId, mapping.groupId)];
      }
    } else {
      externalOps' := externalOps' + [ExternalOp(link.externalUserId, mapping.groupId, hasPatriceRole)];
    }
  }

  /** One more edge: what each of the five lists gains. */
  lemma PlanForSnoc(es: seq<Edge>, e: Edge, v: View, broken: seq<Id>)
    ensures PlanFor(es + [e], v, broken) == Output(
                PlanFor(es, v, broken).paOps + PaOpOf(e, v),
                PlanFor(es, v, broken).externalOps + ExternalOpOf(e, v), broken,
                PlanFor(es, v, broken).baselineUpserts + UpsertsIn(v)(e),
                PlanFor(es, v, broken).baselineDeletes + DeletesIn(v)(e))
  {
  }

  /** One link against one live mapping: a direct decision, or attribution. */
  method ReconcileEdge(
    link: Link, mapping: Mapping, hasExternalRole: bool, existing: Option<Source>,
    baseline: Option<set<(Id, Id)>>, plan: Output, ghost v: View, ghost before: seq<Edge>)
    returns (plan': Output)
    requires v.baseline == baseline
    requires hasExternalRole == (HeldKey(Edge(mapping, link)) in v.held)
    requires existing == Lookup(v.roles, RoleKey(Edge(mapping, link)))
    requires plan == PlanFor(before, v, plan.brokenMappingIds)
    ensures plan' == PlanFor(before + [Edge(mapping, link)], v, plan.brokenMappingIds)
    ensures plan'.brokenMappingIds == plan.brokenMappingIds
  {
    ghost var e := Edge(mapping, link);
    PlanForSnoc(before, e, v, plan.brokenMappingIds);
    assert VerdictOf(e, v) == Decide(mapping, hasExternalRole, existing, BaselineBit(e, v));

    var Output(paOps, externalOps, broken, upserts, deletes) := plan;
    var hasPatriceRole := existing.Some?;
    if mapping.direction == Inbound {
      if hasExternalRole && !hasPatriceRole {
        paOps := paOps + [Grant(link.userId, mapping.roleId, mapping.groupId)];
      } else if !hasExternalRole && existing == Some(Integration) {
        paOps := paOps + [Revoke(link.userId, mapping.roleId, mapping.groupId)];
      }
    } else if mapping.direction == Outbound {
      if hasPatriceRole && !hasExternalRole {
        externalOps := externalOps + [ExternalOp(link.externalUserId, mapping.groupId, true)];
      } else if !hasPatriceRole && hasExternalRole {
        externalOps := externalOps + [ExternalOp(link.externalUserId, mapping.groupId, false)];
      }
    } else {
      paOps, externalOps := ReconcileBidirectional(
        link, mapping, hasExternalRole, existing, baseline, paOps, externalOps, v);
    }
    assert paOps == plan.paOps + PaOpOf(e, v);
    assert externalOps == plan.externalOps + ExternalOpOf(e, v);

    var bk := BaselineRow(mapping.id, link.externalUserId, mapping.groupId);
    if hasExternalRole {
      upserts := upserts + [bk];
    } else {
      deletes := deletes + [bk];
    }
    plan' := Output(paOps, externalOps, broken, upserts, deletes);
  }

  /** The inner loop: every linked user against one live mapping. */
  method ReconcileMapping(
    mapping: Mapping, input: Input, externalMembers: set<Id>, plan: Output, ghost before: seq<Edge>)
    returns (plan': Output)
    requires plan == PlanFor(before, ViewOf(input), plan.brokenMappingIds)
    requires forall l <- input.links ::
               l.externalUserId in externalMembers <==>
               (l.externalUserId, mapping.groupId) in HeldIn(input.membership)
    ensures plan' == PlanFor(before + EdgesOfMapping(mapping, input.links), ViewOf(input), plan.brokenMappingIds)
  {
    hide PlanFor;
    plan' := plan;
    ghost var v, row := ViewOf(input), EdgesOfMapping(mapping, input.links);
    assert before + row[..0] == before;
    for j := 0 to |input.links|
      invariant plan' == PlanFor(before + row[..j], v, plan.brokenMappingIds)
      invariant plan'.brokenMappingIds == plan.brokenMappingIds
    {
      var link := input.links[j];
      assert before + row[..j + 1] == (before + row[..j]) + [Edge(mapping, link)];
      var hasExternalRole := link.externalUserId in externalMembers;
      var existing := Lookup(input.existingRoles, (link.userId, mapping.roleId));
      plan' := ReconcileEdge(
        link, mapping, hasExternalRole, existing, input.baseline, plan', v, before + row[..j]);
    }
    assert row[..|input.links|] == row;
  }

  /** The plan over the first `i` mappings. */
  function PlanUpTo(input: Input, i: nat): Output
    requires i <= |input.mappings|
  {
    Plan(input.(mappings := input.mappings[..i]))
  }

  /** What mapping `i` adds to the plan: nothing, its id as broken, or its edges. */
  lemma PlanUpToStep(input: Input, i: nat)
    requires i < |input.mappings|
    ensures var m, c := input.mappings[i], CensusOf(input);
            && (!m.isBroken && GroupGone(m, c) ==>
                  PlanUpTo(input, i + 1) ==
                  PlanUpTo(input, i).(brokenMappingIds := PlanUpTo(input, i).brokenMappingIds + [m.id]))
            && (!m.isBroken && !GroupGone(m, c) ==>
                  PlanUpTo(input, i + 1).brokenMappingIds == PlanUpTo(input, i).brokenMappingIds)
            && (Live(m, c) ==>
                  PlanUpTo(input, i + 1) ==
                  PlanFor(Edges(input.mappings[..i], input.links, c) + EdgesOfMapping(m, input.links),
                          ViewOf(input), PlanUpTo(input, i).brokenMappingIds))
            && ((!Live(m, c) && !GroupGone(m, c)) || m.isBroken ==> PlanUpTo(input, i + 1) == PlanUpTo(input, i))
  {
    assert input.mappings[..i + 1] == input.mappings[..i] + [input.mappings[i]];
    var ms, c := input.mappings[..i], CensusOf(input);
    EdgesSnoc(ms, input.mappings[i], input.links, c);
    assert Edges(ms, input.links, c) + [] == Edges(ms, input.links, c);
    assert FlatMap(ms, BrokenIn(c)) + [] == FlatMap(ms, BrokenIn(c));
  }

  method Reconcile(input: Input) returns (output: Output)
    ensures output == Plan(input)
  {
    output := Output([], [], [], [], []);
    var membersOf := IndexMembers(input.membership);
    for i := 0 to |input.mappings|
      invariant output == PlanUpTo(input, i)
    {
      var mapping := input.mappings[i];
      PlanUpToStep(input, i);
      if mapping.isBroken {
        continue;
      }
      var hasMemberData := |input.membership| > 0;
      if hasMemberData && mapping.groupId !in input.knownGroups {
        output := output.(brokenMappingIds := output.brokenMappingIds + [mapping.id]);
        continue;
      }
      if mapping.roleId !in input.roleRows || input.roleRows[mapping.roleId].Retired? {
        continue;
      }
      var externalMembers := if mapping.groupId in membersOf then membersOf[mapping.groupId] else {};
      output := ReconcileMapping(
        mapping, input, externalMembers, output, Edges(input.mappings[..i], input.links, CensusOf(input)));
    }
    assert input.mappings[..|input.mappings|] == input.mappings;
  }
}
