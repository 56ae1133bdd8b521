/** The main results about the role sync: convergence, recovery, and whose change wins. */
module SyncResults {
  import opened Common
  import opened Reconciler
  import opened SyncRun
  import opened SyncTheorems

  /* ---------- Every stopping point of a run is an allowed progress ---------- */

  /** No refusal that marks a mapping broken: retries, outages and an invalid token remain. */
  predicate Transient(outcomes: seq<Outcome>) {
    forall o <- outcomes :: !Permanent(o)
  }

  lemma {:induction false} NoRefusals(ops: seq<ExternalOp>, outcomes: seq<Outcome>)
    requires |ops| == |outcomes| && Transient(outcomes)
    ensures RefusedGroups(ops, outcomes) == []
  {
    if ops != [] {
      NoRefusals(Init(ops), Init(outcomes));
      assert Last(outcomes) in outcomes;
    }
  }

  lemma {:induction false} AllDeliveredOps(ops: seq<ExternalOp>, outcomes: seq<Outcome>)
    requires |ops| == |outcomes| && forall i :: 0 <= i < |ops| ==> outcomes[i] == Delivered
    ensures DeliveredOps(ops, outcomes) == ops
  {
    if ops != [] {
      AllDeliveredOps(Init(ops), Init(outcomes));
      assert ops == Init(ops) + [Last(ops)];
    }
  }

  lemma DeliverySucceeds(ops: seq<ExternalOp>)
    ensures OutboundReport(ops, AllDelivered(|ops|)).appliedOps == ops
  {
    var outcomes := AllDelivered(|ops|);
    var n := Reached(ops, outcomes);
    assert forall i :: 0 <= i < |ops| ==> outcomes[i] != Unauthorized;
    assert ops[..n] == ops && outcomes[..n] == outcomes;
    AllDeliveredOps(ops, outcomes);
  }

  function Clamp(k: int, n: nat): nat {
    if k < 0 then 0 else if k > n then n else k
  }

  /** The part of a progress that its first `k` writes cover. */
  function CutAt(p: Progress, k: nat): Progress {
    var k1, k2, k3 := k - |p.flags|, k - |p.flags| - |p.pa|, k - |p.flags| - |p.pa| - |p.ext|;
    Progress(
      p.flags[..Clamp(k, |p.flags|)], p.pa[..Clamp(k1, |p.pa|)], p.ext[..Clamp(k2, |p.ext|)],
      p.upserts[..Clamp(k3, |p.upserts|)], if k3 - |p.upserts| > 0 then p.deletes else [])
  }

  /** The part of the plan that `k` writes cover, when these calls are delivered. */
  function ProgressAt(plan: Output, applied: seq<ExternalOp>, k: nat): Progress {
    CutAt(Progress(plan.brokenMappingIds, plan.paOps, applied, plan.baselineUpserts, plan.baselineDeletes), k)
  }

  lemma TakeTwo<T>(a: seq<T>, b: seq<T>, k: int)
    requires k <= |a| + |b|
    ensures (a + b)[..Clamp(k, |a + b|)] == a[..Clamp(k, |a|)] + b[..Clamp(k - |a|, |b|)]
  {
  }

  /** A prefix of five segments, segment by segment. */
  lemma TakeFive<T>(
    a: seq<T>, b: seq<T>, c: seq<T>, d: seq<T>, e: seq<T>, k: nat,
    a': seq<T>, b': seq<T>, c': seq<T>, d': seq<T>, e': seq<T>)
    requires k <= |a| + |b| + |c| + |d| + |e|
    requires a' == a[..Clamp(k, |a|)] && b' == b[..Clamp(k - |a|, |b|)] && c' == c[..Clamp(k - |a| - |b|, |c|)]
    requires d' == d[..Clamp(k - |a| - |b| - |c|, |d|)] && e' == e[..Clamp(k - |a| - |b| - |c| - |d|, |e|)]
    ensures (a + (b + (c + (d + e))))[..k] == a' + (b' + (c' + (d' + e')))
  {
    TakeTwo(a, b + (c + (d + e)), k);
    TakeTwo(b, c + (d + e), k - |a|);
    TakeTwo(c, d + e, k - |a| - |b|);
    TakeTwo(d, e, k - |a| - |b| - |c|);
  }

  // Cutting the steps of a list is taking the steps of the list cut.
  lemma FlagsOfPrefix(ids: seq<Id>, k: int)
    ensures |Flags(ids)| == |ids| && Flags(ids)[..Clamp(k, |ids|)] == Flags(ids[..Clamp(k, |ids|)])
  {
  }

  lemma PaOfPrefix(ops: seq<PaOp>, k: int)
    ensures |PaSteps(ops)| == |ops| && PaSteps(ops)[..Clamp(k, |ops|)] == PaSteps(ops[..Clamp(k, |ops|)])
  {
  }

  lemma ExtOfPrefix(ops: seq<ExternalOp>, k: int)
    ensures |ExtSteps(ops)| == |ops| && ExtSteps(ops)[..Clamp(k, |ops|)] == ExtSteps(ops[..Clamp(k, |ops|)])
  {
  }

  lemma UpsertsOfPrefix(rows: seq<BaselineRow>, k: int)
    ensures |UpsertSteps(rows)| == |rows|
    ensures UpsertSteps(rows)[..Clamp(k, |rows|)] == UpsertSteps(rows[..Clamp(k, |rows|)])
  {
  }

  lemma DeletesOfPrefix(rows: seq<BaselineRow>, k: int)
    ensures DeleteSteps(rows)[..Clamp(k, |DeleteSteps(rows)|)] == DeleteSteps(if k > 0 then rows else [])
  {
  }

  /** The writes of a run without a permanent refusal, segment by segment. */
  lemma TraceSegments(ms: seq<Mapping>, plan: Output, outbound: ApplyResult)
    requires outbound.brokenGroupIds == []
    ensures Trace(ms, plan, outbound) ==
            StepsOf(Progress(plan.brokenMappingIds, plan.paOps, outbound.appliedOps,
                             plan.baselineUpserts, plan.baselineDeletes))
  {
    var F, P, X := Flags(plan.brokenMappingIds), PaSteps(plan.paOps), ExtSteps(outbound.appliedOps);
    assert Flags(FlatMap([], RefusedMappings(ms))) == [];
    assert F + P + X + [] == F + P + X;
  }

  lemma CrashPoint(ms: seq<Mapping>, plan: Output, outbound: ApplyResult, k: nat)
    requires outbound.brokenGroupIds == []
    requires k <= |Trace(ms, plan, outbound)|
    ensures Trace(ms, plan, outbound)[..k] == StepsOf(ProgressAt(plan, outbound.appliedOps, k))
  {
    TraceSegments(ms, plan, outbound);
    var whole := Progress(plan.brokenMappingIds, plan.paOps, outbound.appliedOps,
                          plan.baselineUpserts, plan.baselineDeletes);
    hide Trace, StepsOf;
    StepsUpTo(whole, k);
  }

  /** The first `k` steps of a progress are the steps of the progress cut at `k`. */
  lemma StepsUpTo(p: Progress, k: nat)
    requires k <= |StepsOf(p)|
    ensures StepsOf(p)[..k] == StepsOf(CutAt(p, k))
  {
    var k1, k2, k3 := k - |p.flags|, k - |p.flags| - |p.pa|, k - |p.flags| - |p.pa| - |p.ext|;
    FlagsOfPrefix(p.flags, k);
    PaOfPrefix(p.pa, k1);
    ExtOfPrefix(p.ext, k2);
    UpsertsOfPrefix(p.upserts, k3);
    DeletesOfPrefix(p.deletes, k3 - |p.upserts|);
    var c := CutAt(p, k);
    hide Flags, PaSteps, ExtSteps, UpsertSteps, DeleteSteps, Clamp;
    TakeFive(
      Flags(p.flags), PaSteps(p.pa), ExtSteps(p.ext), UpsertSteps(p.upserts), DeleteSteps(p.deletes), k,
      Flags(c.flags), PaSteps(c.pa), ExtSteps(c.ext), UpsertSteps(c.upserts), DeleteSteps(c.deletes));
  }

  /** Deliveries of planned calls are never ahead of the Patrice writes. */
  lemma AllowedAt(s: State, w: World, applied: seq<ExternalOp>, k: nat)
    requires forall op <- applied :: op in StatePlan(s, w).externalOps
    ensures Allowed(s, w, ProgressAt(StatePlan(s, w), applied, k))
  {
    hide StatePlan;
  }

  /** A run that stops after `k` of its writes leaves the state partway, never inconsistent. */
  lemma StoppedRun(s: State, w: World, outcomes: seq<Outcome>, k: nat) returns (t: State)
    requires Sound(s, w) && |outcomes| == |StatePlan(s, w).externalOps| && Transient(outcomes)
    requires k <= |RunSteps(s, w, outcomes)|
    ensures t == Exec(s, RunSteps(s, w, outcomes)[..k])
    ensures Partway(s, t, w)
  {
    var plan, outbound := StatePlan(s, w), OutboundReport(StatePlan(s, w).externalOps, outcomes);
    var n := Reached(plan.externalOps, outcomes);
    NoRefusals(plan.externalOps[..n], outcomes[..n]);
    CrashPoint(s.mappings, plan, outbound, k);
    AllowedAt(s, w, outbound.appliedOps, k);
    hide ProgressAt, Partway, Exec, Allowed, Sound;
    t := ProgressPartway(s, w, ProgressAt(plan, outbound.appliedOps, k));
  }

  /** A run in which everything succeeds: no write is rejected and the whole plan is in. */
  lemma WholeRun(s: State, w: World)
    requires Sound(s, w)
    ensures Applied(s, Run(s, w), w)
    ensures Accepts(s, RunSteps(s, w, AllDelivered(|StatePlan(s, w).externalOps|)))
  {
    var plan := StatePlan(s, w);
    var p := Progress(plan.brokenMappingIds, plan.paOps, plan.externalOps, plan.baselineUpserts, plan.baselineDeletes);
    WholeTrace(s, w);
    hide StatePlan, RunSteps, Exec, Accepts, Applied, Sound, StepsOf;
    var t := ProgressPartway(s, w, p);
  }

  /** With every call delivered, the writes of a run are its whole plan. */
  lemma WholeTrace(s: State, w: World)
    ensures var plan := StatePlan(s, w);
            RunSteps(s, w, AllDelivered(|plan.externalOps|)) ==
              StepsOf(Progress(plan.brokenMappingIds, plan.paOps, plan.externalOps, plan.baselineUpserts,
                  plan.baselineDeletes))
    ensures Sound(s, w) ==>
              var plan := StatePlan(s, w);
              Allowed(s, w, Progress(plan.brokenMappingIds, plan.paOps, plan.externalOps, plan.baselineUpserts,
                  plan.baselineDeletes))
  {
    var plan := StatePlan(s, w);
    var outcomes := AllDelivered(|plan.externalOps|);
    var n := Reached(plan.externalOps, outcomes);
    DeliverySucceeds(plan.externalOps);
    NoRefusals(plan.externalOps[..n], outcomes[..n]);
    hide StatePlan, Sound, Reached, DeliveredOps, RefusedGroups, AllDelivered;
    TraceSegments(s.mappings, plan, OutboundReport(plan.externalOps, outcomes));
  }

  /* ---------- A run from a partway state ---------- */

  lemma {:induction false} SameEdges(ms: seq<Mapping>, ms': seq<Mapping>, links: seq<Link>, c: Census)
    requires FlaggedWithin(ms, ms', c)
    ensures Edges(ms, links, c) == Edges(ms', links, c)
  {
    if ms != [] {
      SameEdges(Init(ms), Init(ms'), links, c);
    }
  }

  /** Flagging the mappings of vanished groups changes no live edge. */
  lemma PartwaySound(s: State, t: State, w: World)
    requires Sound(s, w) && FlaggedWithin(s.mappings, t.mappings, w.census)
    ensures Sound(t, w) && LiveEdges(t, w) == LiveEdges(s, w)
  {
    SameEdges(s.mappings, t.mappings, w.links, w.census);
  }

  /* ---------- The baseline bit an edge is decided with ---------- */

  /**
   * Another active bidirectional mapping has a row for the edge's user and group. Loading
   * keys rows by user and group alone, so this row counts as the edge's own. Re-pointing a
   * mapping at another group leaves such rows behind.
   */
  ghost predicate Lingering(s: State, e: Edge) {
    exists r :: r in s.baseline && r.mappingId in BidirectionalIds(s.mappings) && Foreign(r, e)
  }

  predicate Foreign(r: BaselineRow, e: Edge) {
    r.mappingId != e.mapping.id && (r.externalUserId, r.groupId) == HeldKey(e)
  }

  ghost predicate Recorded(s: State, e: Edge) {
    RowOf(e) in s.baseline || Lingering(s, e)
  }

  /** On a live bidirectional edge the loaded bit is its own row or a lingering one. */
  lemma LoadedBit(s: State, w: World, e: Edge)
    requires e in LiveEdges(s, w) && e.mapping.direction == Bidirectional
    ensures BaselineBit(e, StateView(s)) == Some(Recorded(s, e))
  {
    EdgesAreLive(s.mappings, w.links, w.census, e);
    var ids := BidirectionalIds(s.mappings);
    assert e.mapping.id in ids;
    if RowOf(e) in s.baseline {
      assert HeldKey(e) in LoadedBaseline(s).value;
    } else if r :| r in s.baseline && r.mappingId in ids && Foreign(r, e) {
      assert HeldKey(e) in LoadedBaseline(s).value;
    }
    if HeldKey(e) in LoadedBaseline(s).value {
      var r :| r in s.baseline && r.mappingId in ids && (r.externalUserId, r.groupId) == HeldKey(e);
      assert r == RowOf(e) || Foreign(r, e);
    }
  }

  /** No live edge of a sound state writes a lingering row. */
  lemma ForeignRowsStay(s: State, w: World, e: Edge, r: BaselineRow)
    requires Sound(s, w) && e in LiveEdges(s, w) && Foreign(r, e)
    ensures NoRow(LiveEdges(s, w), r)
  {
    forall d | d in LiveEdges(s, w) ensures RowOf(d) != r {
      EdgesAreLive(s.mappings, w.links, w.census, d);
      EdgesAreLive(s.mappings, w.links, w.census, e);
    }
  }

  /* ---------- Runs that end alike ---------- */

  /** The role state of both sides; the baseline is bookkeeping. */
  ghost predicate SameRoles(s: State, t: State) {
    s.roles == t.roles && s.held == t.held
  }

  lemma MapExtensionality<K, V>(m: map<K, V>, n: map<K, V>)
    requires forall k :: Lookup(m, k) == Lookup(n, k)
    ensures m == n
  {
    forall k ensures k in m <==> k in n {
      assert Lookup(m, k) == Lookup(n, k);
    }
    forall k | k in m ensures m[k] == n[k] {
      assert Lookup(m, k) == Lookup(n, k);
    }
  }

  /** Two applied runs that aim at the same edge values over agreeing frames end alike. */
  lemma AppliedAlike(s: State, s': State, t: State, t': State, w: World)
    requires Applied(s, s', w) && Applied(t, t', w) && LiveEdges(t, w) == LiveEdges(s, w)
    requires forall k :: NoRole(LiveEdges(s, w), k) ==> Lookup(t.roles, k) == Lookup(s.roles, k)
    requires forall k :: NoHeld(LiveEdges(s, w), k) ==> (k in t.held <==> k in s.held)
    requires forall e <- LiveEdges(s, w) ::
               && NextPatrice(e, StateView(t)) == NextPatrice(e, StateView(s))
               && NextExternal(e, StateView(t)) == NextExternal(e, StateView(s))
    ensures SameRoles(s', t')
  {
    var es := LiveEdges(s, w);
    forall k ensures Lookup(s'.roles, k) == Lookup(t'.roles, k) {
      if !NoRole(es, k) {
        var e :| e in es && RoleKey(e) == k;
        assert PatriceDone(s, s', e) && PatriceDone(t, t', e);
      }
    }
    MapExtensionality(s'.roles, t'.roles);
    forall k ensures k in s'.held <==> k in t'.held {
      if !NoHeld(es, k) {
        var e :| e in es && HeldKey(e) == k;
        assert ExternalDone(s, s', e) && ExternalDone(t, t', e);
      }
    }
  }

  /* ---------- Convergence ---------- */

  /** One run settles an edge: whatever the baseline says next, both sides are left alone. */
  lemma EdgeSettles(m: Mapping, x: bool, p: Option<Source>, was: Option<bool>, was': Option<bool>)
    requires m.direction == Bidirectional ==> was.Some?
    ensures var d := Decide(m, x, p, was);
            Decide(m, ExternalNext(d, x), PatriceNext(d, p), was') == Keep
  {
  }

  lemma {:induction false} NoOps(es: seq<Edge>, v: View)
    requires forall e <- es :: VerdictOf(e, v) == Keep
    ensures FlatMap(es, PaOpsIn(v)) == [] && FlatMap(es, ExternalOpsIn(v)) == []
  {
    if es != [] {
      assert Last(es) in es;
      NoOps(Init(es), v);
    }
  }

  /** From any state, after one successful run the next plan changes neither side. */
  lemma Converges(s: State, w: World)
    requires Sound(s, w)
    ensures Sound(Run(s, w), w)
    ensures StatePlan(Run(s, w), w).paOps == [] && StatePlan(Run(s, w), w).externalOps == []
  {
    var t := Run(s, w);
    WholeRun(s, w);
    PartwaySound(s, t, w);
    forall e | e in LiveEdges(t, w) ensures VerdictOf(e, StateView(t)) == Keep {
      if e.mapping.direction == Bidirectional {
        LoadedBit(s, w, e);
      }
      hide Decide;
      EdgeSettles(e.mapping, HeldKey(e) in s.held, Lookup(s.roles, RoleKey(e)),
                  BaselineBit(e, StateView(s)), BaselineBit(e, StateView(t)));
      assert PatriceDone(s, t, e) && ExternalDone(s, t, e);
    }
    NoOps(LiveEdges(t, w), StateView(t));
  }

  /** The plan has no operation on either side, and the baseline rows already say what Discord holds. */
  ghost predicate AtRest(s: State, w: World) {
    && StatePlan(s, w).paOps == [] && StatePlan(s, w).externalOps == []
    && forall e <- LiveEdges(s, w) :: RowOf(e) in s.baseline <==> HeldKey(e) in s.held
  }

  lemma {:induction false} NoOpsMeansKeep(es: seq<Edge>, v: View, e: Edge)
    requires FlatMap(es, PaOpsIn(v)) == [] && FlatMap(es, ExternalOpsIn(v)) == [] && e in es
    ensures VerdictOf(e, v) == Keep
  {
    PlannedPaOp(es, v, e);
    PlannedExternalOp(es, v, e);
  }

  /** A state at rest is a fixed point: roles, Discord and baseline rows all stay. */
  lemma AtRestIsFixed(s: State, w: World)
    requires Sound(s, w) && AtRest(s, w)
    ensures SameRoles(s, Run(s, w)) && Run(s, w).baseline == s.baseline && AtRest(Run(s, w), w)
  {
    var t, es := Run(s, w), LiveEdges(s, w);
    QuietRun(s, w);
    Converges(s, w);
    WholeRun(s, w);
    PartwaySound(s, t, w);
    forall r ensures r in t.baseline <==> r in s.baseline {
      if e :| e in es && RowOf(e) == r {
        assert BaselineDone(s, t, e);
      } else {
        assert NoRow(es, r);
      }
    }
  }

  /** Two successful runs reach a fixed point; from then on no run changes anything. */
  lemma SecondRunRests(s: State, w: World)
    requires Sound(s, w)
    ensures AtRest(Run(Run(s, w), w), w)
  {
    var t := Run(s, w);
    Converges(s, w);
    Converges(t, w);
    WholeRun(t, w);
    PartwaySound(t, Run(t, w), w);
    forall e | e in LiveEdges(Run(t, w), w)
      ensures RowOf(e) in Run(t, w).baseline <==> HeldKey(e) in Run(t, w).held
    {
      NoOpsMeansKeep(LiveEdges(t, w), StateView(t), e);
      assert BaselineDone(t, Run(t, w), e) && ExternalDone(t, Run(t, w), e);
    }
  }

  ghost function RunTimes(s: State, w: World, n: nat): State
    decreases n
  {
    if n == 0 then s else RunTimes(Run(s, w), w, n - 1)
  }

  /** However often the sync runs, it ends with the roles the first run reached. */
  lemma {:induction false} RunsAgree(s: State, w: World, n: nat)
    requires Sound(s, w) && n >= 1
    ensures SameRoles(RunTimes(s, w, n), Run(s, w))
    decreases n
  {
    hide Run, Sound, StatePlan;
    var t := Run(s, w);
    if n == 1 {
      assert RunTimes(s, w, 1) == RunTimes(t, w, 0);
    } else {
      Converges(s, w);
      RunsAgree(t, w, n - 1);
      QuietRun(t, w);
    }
  }

  /** A key that only settled edges could write stays as it is. */
  lemma KeptKeys(s: State, t: State, w: World, k: (Id, Id))
    requires Applied(s, t, w)
    ensures (forall d <- LiveEdges(s, w) :: RoleKey(d) == k ==> VerdictOf(d, StateView(s)) == Keep) ==>
              Lookup(t.roles, k) == Lookup(s.roles, k)
    ensures (forall d <- LiveEdges(s, w) :: HeldKey(d) == k ==> VerdictOf(d, StateView(s)) == Keep) ==>
              (k in t.held <==> k in s.held)
  {
    hide VerdictOf, LiveEdges;
    var es := LiveEdges(s, w);
    if d :| d in es && RoleKey(d) == k {
      assert PatriceDone(s, t, d);
    } else {
      assert NoRole(es, k);
    }
    if d :| d in es && HeldKey(d) == k {
      assert ExternalDone(s, t, d);
    } else {
      assert NoHeld(es, k);
    }
  }

  /** A run whose plan has no operations leaves both sides as they are. */
  lemma QuietRun(s: State, w: World)
    requires Sound(s, w) && StatePlan(s, w).paOps == [] && StatePlan(s, w).externalOps == []
    ensures SameRoles(s, Run(s, w))
  {
    var t, es := Run(s, w), LiveEdges(s, w);
    WholeRun(s, w);
    forall e | e in es ensures VerdictOf(e, StateView(s)) == Keep {
      NoOpsMeansKeep(es, StateView(s), e);
    }
    hide Run, Applied, LiveEdges, VerdictOf;
    forall k ensures Lookup(t.roles, k) == Lookup(s.roles, k) ensures k in t.held <==> k in s.held {
      KeptKeys(s, t, w, k);
    }
    MapExtensionality(t.roles, s.roles);
  }

  /* ---------- What steps leave alone ---------- */

  predicate NoPaAt(steps: seq<Step>, k: (Id, Id)) { forall st <- steps :: st.Pa? ==> KeyOf(st.paOp) != k }
  predicate NoExtAt(steps: seq<Step>, h: (Id, Id)) { forall st <- steps :: st.Ext? ==> TargetOf(st.externalOp) != h }

  /** What steps leave alone, wherever they stop. No step makes a membership native. */
  lemma {:induction false} StepsKeep(s: State, steps: seq<Step>, k: (Id, Id), h: (Id, Id))
    ensures var t := Exec(s, steps);
            && (NoPaAt(steps, k) ==> Lookup(t.roles, k) == Lookup(s.roles, k))
            && (Lookup(s.roles, k) != Some(Native) ==> Lookup(t.roles, k) != Some(Native))
            && (NoExtAt(steps, h) ==> (h in t.held <==> h in s.held))
    decreases |steps|
  {
    if steps != [] && !Rejected(s, steps[0]) {
      StepsKeep(Do(s, steps[0]), steps[1..], k, h);
    }
  }

  lemma PaOpNotNative(e: Edge, v: View)
    ensures PaOpOf(e, v) != [] ==> Lookup(v.roles, RoleKey(e)) != Some(Native)
  {
    VerdictFits(e.mapping, HeldKey(e) in v.held, Lookup(v.roles, RoleKey(e)), BaselineBit(e, v));
  }

  /** No edge asks for a write to a native membership. */
  lemma NativeIsNotPlanned(es: seq<Edge>, v: View, k: (Id, Id))
    requires Lookup(v.roles, k) == Some(Native)
    ensures NoPa(FlatMap(es, PaOpsIn(v)), k)
  {
    PaOpsComeFrom(es, v);
    hide PaOpOf, FlatMap;
    forall op | op in FlatMap(es, PaOpsIn(v)) ensures KeyOf(op) != k {
      var e :| e in es && PaOpOf(e, v) == [op];
      PaOpNotNative(e, v);
      OpsOfEdge(e, v);
    }
  }

  predicate NoPaStep(steps: seq<Step>) { forall st <- steps :: !st.Pa? }

  /** Steps that write no Patrice row are never rejected and leave the rows alone. */
  lemma {:induction false} OnlyPaMovesRoles(s: State, steps: seq<Step>)
    requires NoPaStep(steps)
    ensures Exec(s, steps).roles == s.roles
    decreases |steps|
  {
    if steps != [] {
      OnlyPaMovesRoles(Do(s, steps[0]), steps[1..]);
    }
  }
}
