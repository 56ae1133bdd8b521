/**
 * Executing a plan. The apply phase is not one transaction: it is a sequence of separate
 * writes (broken flags, Patrice rows, Discord calls, baseline rows), so a crash leaves the
 * state that some prefix of that sequence produces.
 */
module SyncRun {
  import opened Common
  import opened Reconciler

  /** What a sync run reads and writes: the mapping rows, both sides of every edge, the baseline. */
  datatype State = State(
    mappings: seq<Mapping>,
    roles: map<(Id, Id), Source>,
    held: set<(Id, Id)>,
    baseline: set<BaselineRow>)

  /** What stays the same across the runs that are compared. */
  datatype World = World(links: seq<Link>, census: Census)

  datatype Step =
    | Flag(mappingId: Id)
    | Pa(paOp: PaOp)
    | Ext(externalOp: ExternalOp)
    | Upsert(row: BaselineRow)
    | DeleteMany(rows: seq<BaselineRow>)

  function KeyOf(op: PaOp): (Id, Id) { (op.userId, op.roleId) }
  function TargetOf(op: ExternalOp): (Id, Id) { (op.externalUserId, op.groupId) }

  function MarkBroken(ms: seq<Mapping>, id: Id): seq<Mapping> {
    seq(|ms|, i requires 0 <= i < |ms| => if ms[i].id == id then ms[i].(isBroken := true) else ms[i])
  }

  function RowSet(rows: seq<BaselineRow>): set<BaselineRow> { set r | r in rows }

  function Do(s: State, step: Step): State {
    match step
    case Flag(id) => s.(mappings := MarkBroken(s.mappings, id))
    case Pa(Grant(u, r, _)) => s.(roles := s.roles[(u, r) := Integration])
    case Pa(Revoke(u, r, _)) => s.(roles := s.roles - {(u, r)})
    case Ext(op) => s.(held := if op.add then s.held + {TargetOf(op)} else s.held - {TargetOf(op)})
    case Upsert(row) => s.(baseline := s.baseline + {row})
    case DeleteMany(rows) => s.(baseline := s.baseline - RowSet(rows))
  }

  /** The unique (user, role) index refuses a second row; deleting a missing row throws. */
  predicate Rejected(s: State, step: Step) {
    step.Pa? && (step.paOp.Grant? <==> KeyOf(step.paOp) in s.roles)
  }

  /** Runs the steps; a rejected step throws, and nothing after it happens. */
  function Exec(s: State, steps: seq<Step>): State
    decreases |steps|
  {
    if steps == [] || Rejected(s, steps[0]) then s else Exec(Do(s, steps[0]), steps[1..])
  }

  predicate Accepts(s: State, steps: seq<Step>)
    decreases |steps|
  {
    steps == [] || (!Rejected(s, steps[0]) && Accepts(Do(s, steps[0]), steps[1..]))
  }

  /* ---------- The plan of a state ---------- */

  function BidirectionalIds(ms: seq<Mapping>): set<Id> {
    set m | m in ms && !m.isBroken && m.direction == Bidirectional :: m.id
  }

  /** The baseline is loaded only when some active mapping is bidirectional. */
  function LoadedBaseline(s: State): Option<set<(Id, Id)>> {
    if BidirectionalIds(s.mappings) == {} then None
    else Some(set r | r in s.baseline && r.mappingId in BidirectionalIds(s.mappings)
                :: (r.externalUserId, r.groupId))
  }

  function StateView(s: State): View { View(s.held, s.roles, LoadedBaseline(s)) }

  function LiveEdges(s: State, w: World): seq<Edge> { Edges(s.mappings, w.links, w.census) }

  function StatePlan(s: State, w: World): Output {
    PlanFor(LiveEdges(s, w), StateView(s), FlatMap(s.mappings, BrokenIn(w.census)))
  }

  /* ---------- Outbound calls ---------- */

  /** How Discord answers one role call. */
  datatype Outcome = Delivered | Unauthorized | Forbidden | NotFound | OtherStatus | Unreachable

  predicate Permanent(o: Outcome) { o == Forbidden || o == NotFound }

  /** What the outbound loop reports. An invalid token aborts it. */
  datatype ApplyResult = ApplyResult(
    appliedOps: seq<ExternalOp>, failed: nat, brokenGroupIds: seq<Id>, tokenInvalid: bool)

  /** The operations before the first 401, paired with their outcomes. */
  function Reached(ops: seq<ExternalOp>, outcomes: seq<Outcome>): (n: nat)
    requires |ops| == |outcomes|
    ensures n <= |ops|
    ensures forall i :: 0 <= i < n ==> outcomes[i] != Unauthorized
    ensures n < |ops| ==> outcomes[n] == Unauthorized
  {
    if ops == [] || outcomes[0] == Unauthorized then 0 else 1 + Reached(ops[1..], outcomes[1..])
  }

  function DeliveredOps(ops: seq<ExternalOp>, outcomes: seq<Outcome>): (applied: seq<ExternalOp>)
    requires |ops| == |outcomes|
    ensures |applied| <= |ops|
    ensures forall op <- applied :: op in ops
  {
    if ops == [] then []
    else
      assert ops == Init(ops) + [Last(ops)];
      DeliveredOps(Init(ops), Init(outcomes)) + if Last(outcomes) == Delivered then [Last(ops)] else []
  }

  /** The groups Discord refused for good, each once, in order of first refusal. */
  function RefusedGroups(ops: seq<ExternalOp>, outcomes: seq<Outcome>): seq<Id>
    requires |ops| == |outcomes|
  {
    if ops == [] then []
    else
      var before := RefusedGroups(Init(ops), Init(outcomes));
      if Permanent(Last(outcomes)) && Last(ops).groupId !in before then before + [Last(ops).groupId] else before
  }

  function OutboundReport(ops: seq<ExternalOp>, outcomes: seq<Outcome>): (r: ApplyResult)
    requires |ops| == |outcomes|
    ensures |r.appliedOps| + r.failed == |ops|
  {
    var n := Reached(ops, outcomes);
    var applied := DeliveredOps(ops[..n], outcomes[..n]);
    ApplyResult(applied, |ops| - |applied|, RefusedGroups(ops[..n], outcomes[..n]), n < |ops|)
  }

  /* ---------- The write sequence ---------- */

  function Flags(ids: seq<Id>): seq<Step> { seq(|ids|, i requires 0 <= i < |ids| => Flag(ids[i])) }
  function PaSteps(ops: seq<PaOp>): seq<Step> { seq(|ops|, i requires 0 <= i < |ops| => Pa(ops[i])) }
  function ExtSteps(ops: seq<ExternalOp>): seq<Step> { seq(|ops|, i requires 0 <= i < |ops| => Ext(ops[i])) }
  function UpsertSteps(rows: seq<BaselineRow>): seq<Step> {
    seq(|rows|, i requires 0 <= i < |rows| => Upsert(rows[i]))
  }
  function DeleteSteps(rows: seq<BaselineRow>): seq<Step> { if rows == [] then [] else [DeleteMany(rows)] }

  /** The mappings of refused groups that are not broken yet. */
  function RefusedMappings(ms: seq<Mapping>): Id -> seq<Id> {
    (g: Id) => FlatMap(ms, IdIfOfGroup(g))
  }
  function IdIfOfGroup(g: Id): Mapping -> seq<Id> {
    (m: Mapping) => if m.groupId == g && !m.isBroken then [m.id] else []
  }

  /** The writes of one apply phase, in the order the code makes them. */
  function Trace(ms: seq<Mapping>, plan: Output, outbound: ApplyResult): seq<Step> {
    Flags(plan.brokenMappingIds) + PaSteps(plan.paOps) + ExtSteps(outbound.appliedOps)
    + Flags(FlatMap(outbound.brokenGroupIds, RefusedMappings(ms)))
    + UpsertSteps(plan.baselineUpserts) + DeleteSteps(plan.baselineDeletes)
  }

  /** The writes of a run against Discord answers `outcomes`. */
  function RunSteps(s: State, w: World, outcomes: seq<Outcome>): seq<Step>
    requires |outcomes| == |StatePlan(s, w).externalOps|
  {
    Trace(s.mappings, StatePlan(s, w), OutboundReport(StatePlan(s, w).externalOps, outcomes))
  }

  function AllDelivered(n: nat): seq<Outcome> { seq(n, _ => Delivered) }

  /** One fully successful run. */
  function Run(s: State, w: World): State {
    Exec(s, RunSteps(s, w, AllDelivered(|StatePlan(s, w).externalOps|)))
  }
}
