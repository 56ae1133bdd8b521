/**
 * Mappings that share a role or a group and all go the same way. Each plans for itself, so two
 * inbound ones can undo each other on a shared role for ever, and two outbound ones on a shared
 * group. Even when two inbound ones agree, the second grant of the pair is rejected and cuts the
 * run short. Here: when the sync comes to rest nevertheless.
 */
module SyncSharedRole {
  import opened Common
  import opened Reconciler
  import opened SyncRun
  import opened SyncTheorems
  import opened SyncResults

  /** Two active mappings share neither role nor group, unless both are inbound or both outbound. */
  predicate Compatible(a: Mapping, b: Mapping) {
    || a.isBroken || b.isBroken
    || (a.roleId != b.roleId && a.groupId != b.groupId)
    || SameWay(a, b)
  }

  predicate SameWay(a: Mapping, b: Mapping) { a.direction == b.direction && a.direction != Bidirectional }

  ghost predicate OneWayShared(s: State, w: World) {
    && DistinctIds(s.mappings) && DistinctLinks(w.links)
    && forall i, j :: 0 <= i < j < |s.mappings| ==> Compatible(s.mappings[i], s.mappings[j])
  }

  /** Two inbound edges on one membership, which is not native, and the user is in one group only. */
  predicate Contested(s: State, d: Edge, e: Edge) {
    && d.mapping.direction == Inbound && e.mapping.direction == Inbound
    && RoleKey(d) == RoleKey(e) && Lookup(s.roles, RoleKey(d)) != Some(Native)
    && (HeldKey(d) in s.held) != (HeldKey(e) in s.held)
  }

  /** Two outbound edges on one Discord membership, and the user has one of their roles only. */
  predicate Disputed(s: State, d: Edge, e: Edge) {
    && d.mapping.direction == Outbound && e.mapping.direction == Outbound
    && HeldKey(d) == HeldKey(e) && (RoleKey(d) in s.roles) != (RoleKey(e) in s.roles)
  }

  ghost predicate SidesAgree(s: State, w: World) {
    forall d, e :: d in LiveEdges(s, w) && e in LiveEdges(s, w) ==> !Contested(s, d, e) && !Disputed(s, d, e)
  }

  /* ---------- A contested membership never rests ---------- */

  /** What an inbound edge asks for. */
  lemma InboundOp(e: Edge, v: View)
    requires e.mapping.direction == Inbound
    ensures var held, p := HeldKey(e) in v.held, Lookup(v.roles, RoleKey(e));
            PaOpOf(e, v) != [] <==> (held && p.None?) || (!held && p == Some(Integration))
    ensures ExternalOpOf(e, v) == []
  {
  }

  /** Whatever else is mapped and linked, the plan is not empty. */
  lemma ContestedHasWork(s: State, w: World, d: Edge, e: Edge)
    requires d in LiveEdges(s, w) && e in LiveEdges(s, w) && Contested(s, d, e)
    ensures StatePlan(s, w).paOps != []
  {
    var p := Lookup(s.roles, RoleKey(d));
    assert p.Some? ==> p.value.Native? || p.value.Integration?;
    InboundOp(d, StateView(s));
    InboundOp(e, StateView(s));
    hide PaOpOf;
    PlannedPaOp(LiveEdges(s, w), StateView(s), d);
    PlannedPaOp(LiveEdges(s, w), StateView(s), e);
  }

  /** What an outbound edge asks for. */
  lemma OutboundOp(e: Edge, v: View)
    requires e.mapping.direction == Outbound
    ensures PaOpOf(e, v) == []
    ensures var given := RoleKey(e) in v.roles;
            ExternalOpOf(e, v) ==
            if given == (HeldKey(e) in v.held) then []
            else [ExternalOp(e.link.externalUserId, e.mapping.groupId, given)]
  {
  }

  lemma DisputedHasWork(s: State, w: World, d: Edge, e: Edge)
    requires d in LiveEdges(s, w) && e in LiveEdges(s, w) && Disputed(s, d, e)
    ensures StatePlan(s, w).externalOps != []
  {
    OutboundOp(d, StateView(s));
    OutboundOp(e, StateView(s));
    hide ExternalOpOf;
    PlannedExternalOp(LiveEdges(s, w), StateView(s), d);
    PlannedExternalOp(LiveEdges(s, w), StateView(s), e);
  }

  predicate NoFlag(steps: seq<Step>) { forall st <- steps :: !st.Flag? }

  lemma {:induction false} StepsKeepMappings(s: State, steps: seq<Step>)
    requires NoFlag(steps)
    ensures Exec(s, steps).mappings == s.mappings
    decreases |steps|
  {
    if steps != [] && !Rejected(s, steps[0]) {
      StepsKeepMappings(Do(s, steps[0]), steps[1..]);
    }
  }

  function WholePlan(s: State, w: World): Progress {
    var plan := StatePlan(s, w);
    Progress(plan.brokenMappingIds, plan.paOps, plan.externalOps, plan.baselineUpserts, plan.baselineDeletes)
  }

  /** What a run writes once the flags are in. */
  function AfterFlagging(p: Progress): seq<Step> {
    PaSteps(p.pa) + (ExtSteps(p.ext) + (UpsertSteps(p.upserts) + DeleteSteps(p.deletes)))
  }

  ghost predicate NoneGone(ms: seq<Mapping>, c: Census) { forall m <- ms :: m.isBroken || !GroupGone(m, c) }

  /** The writes after the flags, by kind. */
  lemma KindsOfWrites(p: Progress, k: (Id, Id), h: (Id, Id))
    ensures NoFlag(AfterFlagging(p))
    ensures NoPa(p.pa, k) ==> NoPaAt(AfterFlagging(p), k)
    ensures NoExt(p.ext, h) ==> NoExtAt(AfterFlagging(p), h)
  {
    forall st | st in AfterFlagging(p)
      ensures !st.Flag? && (st.Pa? ==> st.paOp in p.pa) && (st.Ext? ==> st.externalOp in p.ext)
    {
      assert st in PaSteps(p.pa) || st in ExtSteps(p.ext) || st in UpsertSteps(p.upserts)
             || st in DeleteSteps(p.deletes);
    }
  }

  function Flagged(s: State, w: World): State { Exec(s, Flags(StatePlan(s, w).brokenMappingIds)) }

  lemma FlaggedFirst(s: State, w: World)
    requires DistinctIds(s.mappings)
    ensures var f := Flagged(s, w);
            && f == s.(mappings := f.mappings) && FlaggedWithin(s.mappings, f.mappings, w.census)
            && NoneGone(f.mappings, w.census) && Accepts(s, Flags(StatePlan(s, w).brokenMappingIds))
  {
    FlagPhase(s, StatePlan(s, w).brokenMappingIds);
    FlagsOfPlan(s.mappings, Flagged(s, w).mappings, w.census);
  }

  /** A run flags the mappings of vanished groups, and then its other writes begin. */
  lemma RunAfterFlags(s: State, w: World)
    requires DistinctIds(s.mappings)
    ensures var f := Flagged(s, w);
            && f == s.(mappings := f.mappings) && FlaggedWithin(s.mappings, f.mappings, w.census)
            && NoneGone(f.mappings, w.census)
            && Run(s, w) == Exec(f, AfterFlagging(WholePlan(s, w))) && Run(s, w).mappings == f.mappings
  {
    var p := WholePlan(s, w);
    WholeTrace(s, w);
    FlaggedFirst(s, w);
    hide Exec, StatePlan, Accepts, FlaggedWithin, NoneGone;
    ExecAppend(s, Flags(p.flags), AfterFlagging(p));
    KindsOfWrites(p, ("", ""), ("", ""));
    StepsKeepMappings(Flagged(s, w), AfterFlagging(p));
  }

  /** A call on a Discord membership comes from an edge on it that is not inbound. */
  lemma CallComesFrom(es: seq<Edge>, v: View, op: ExternalOp) returns (e: Edge)
    requires op in FlatMap(es, ExternalOpsIn(v))
    ensures e in es && e.mapping.direction != Inbound && HeldKey(e) == TargetOf(op) && ExternalOpOf(e, v) == [op]
  {
    FlatMapMember(es, ExternalOpsIn(v), op);
    hide ExternalOpOf, FlatMap;
    var i :| 0 <= i < |es| && op in ExternalOpOf(es[i], v);
    e := es[i];
    OpsOfEdge(e, v);
    if e.mapping.direction == Inbound {
      InboundOp(e, v);
    }
  }

  lemma OpsOfPlan(s: State, w: World, k: (Id, Id), h: (Id, Id))
    ensures Lookup(s.roles, k) == Some(Native) || UnwrittenRole(s, w, k) ==> NoPa(StatePlan(s, w).paOps, k)
    ensures Unwritten(s, w, h) ==> NoExt(StatePlan(s, w).externalOps, h)
  {
    if Lookup(s.roles, k) == Some(Native) {
      NativeIsNotPlanned(LiveEdges(s, w), StateView(s), k);
    }
    if UnwrittenRole(s, w, k) {
      OutboundWritesNothing(LiveEdges(s, w), StateView(s), k);
    }
    hide FlatMap;
    forall op | op in StatePlan(s, w).externalOps && Unwritten(s, w, h) ensures TargetOf(op) != h {
      var e := CallComesFrom(LiveEdges(s, w), StateView(s), op);
    }
  }

  lemma OutboundWritesNothing(es: seq<Edge>, v: View, k: (Id, Id))
    requires forall e <- es :: e.mapping.direction != Outbound ==> RoleKey(e) != k
    ensures NoPa(FlatMap(es, PaOpsIn(v)), k)
  {
    PaOpsComeFrom(es, v);
    hide PaOpOf, FlatMap;
    forall op | op in FlatMap(es, PaOpsIn(v)) ensures KeyOf(op) != k {
      var e :| e in es && PaOpOf(e, v) == [op];
      OpsOfEdge(e, v);
      if e.mapping.direction == Outbound {
        OutboundOp(e, v);
      }
    }
  }

  /** No live mapping writes this Patrice membership. */
  ghost predicate UnwrittenRole(s: State, w: World, k: (Id, Id)) {
    forall e <- LiveEdges(s, w) :: e.mapping.direction != Outbound ==> RoleKey(e) != k
  }

  /** No live mapping writes this Discord membership. */
  ghost predicate Unwritten(s: State, w: World, h: (Id, Id)) {
    forall e <- LiveEdges(s, w) :: e.mapping.direction != Inbound ==> HeldKey(e) != h
  }

  lemma RunKeeps(s: State, w: World, k: (Id, Id), h: (Id, Id))
    requires DistinctIds(s.mappings)
    ensures var t := Run(s, w);
            && FlaggedWithin(s.mappings, t.mappings, w.census) && NoneGone(t.mappings, w.census)
            && (Lookup(s.roles, k) == Some(Native) <==> Lookup(t.roles, k) == Some(Native))
            && (UnwrittenRole(s, w, k) ==> Lookup(t.roles, k) == Lookup(s.roles, k))
            && (Unwritten(s, w, h) ==> (h in t.held <==> h in s.held))
  {
    hide AfterFlagging, Run, Exec, FlaggedWithin, NoneGone, StatePlan, Flagged;
    RunAfterFlags(s, w);
    OpsOfPlan(s, w, k, h);
    KindsOfWrites(WholePlan(s, w), k, h);
    StepsKeep(Flagged(s, w), AfterFlagging(WholePlan(s, w)), k, h);
  }

  /** A contested membership whose groups nothing writes keeps the sync busy in every run. */
  lemma {:induction false} ContestedNeverRests(s: State, w: World, d: Edge, e: Edge, n: nat)
    requires DistinctIds(s.mappings) && d in LiveEdges(s, w) && e in LiveEdges(s, w) && Contested(s, d, e)
    requires Unwritten(s, w, HeldKey(d)) && Unwritten(s, w, HeldKey(e))
    ensures StatePlan(RunTimes(s, w, n), w).paOps != []
    decreases n
  {
    hide StatePlan, Run;
    if n == 0 {
      ContestedHasWork(s, w, d, e);
    } else {
      RunKeeps(s, w, RoleKey(d), HeldKey(d));
      RunKeeps(s, w, RoleKey(d), HeldKey(e));
      SameEdges(s.mappings, Run(s, w).mappings, w.links, w.census);
      ContestedNeverRests(Run(s, w), w, d, e, n - 1);
    }
  }

  /** The same of a disputed Discord membership whose roles nothing writes. */
  lemma {:induction false} DisputedNeverRests(s: State, w: World, d: Edge, e: Edge, n: nat)
    requires DistinctIds(s.mappings) && d in LiveEdges(s, w) && e in LiveEdges(s, w) && Disputed(s, d, e)
    requires UnwrittenRole(s, w, RoleKey(d)) && UnwrittenRole(s, w, RoleKey(e))
    ensures StatePlan(RunTimes(s, w, n), w).externalOps != []
    decreases n
  {
    hide StatePlan, Run;
    if n == 0 {
      DisputedHasWork(s, w, d, e);
    } else {
      RunKeeps(s, w, RoleKey(d), HeldKey(d));
      RunKeeps(s, w, RoleKey(e), HeldKey(e));
      SameEdges(s.mappings, Run(s, w).mappings, w.links, w.census);
      DisputedNeverRests(Run(s, w), w, d, e, n - 1);
    }
  }

  /* ---------- A run that a rejected write cuts short ---------- */

  function Toggled(roles: map<(Id, Id), Source>, k: (Id, Id)): Option<Source> {
    if k in roles then None else Some(Integration)
  }

  /**
   * Operations planned on `orig`, run until one is rejected: every membership is as before or
   * toggled by one of them.
   */
  lemma {:induction false} UntilRejected(orig: map<(Id, Id), Source>, s: State, ops: seq<PaOp>)
    requires forall op <- ops :: Fits(op, orig)
    requires forall k :: Lookup(s.roles, k) == Lookup(orig, k) || Lookup(s.roles, k) == Toggled(orig, k)
    ensures var t := Exec(s, PaSteps(ops));
            && t == s.(roles := t.roles)
            && forall k :: Lookup(t.roles, k) == Lookup(s.roles, k) ||
                           (!NoPa(ops, k) && Lookup(t.roles, k) == Toggled(orig, k))
    decreases |ops|
  {
    if ops != [] && !Rejected(s, Pa(ops[0])) {
      var next := Do(s, Pa(ops[0]));
      assert PaSteps(ops)[1..] == PaSteps(ops[1..]);
      assert ops[0] in ops;
      UntilRejected(orig, next, ops[1..]);
    }
  }

  /** The first operation of a plan is never rejected. */
  lemma FirstOpCounts(s: State, ops: seq<PaOp>)
    requires ops != [] && forall op <- ops :: Fits(op, s.roles)
    ensures Lookup(Exec(s, PaSteps(ops)).roles, KeyOf(ops[0])) == Toggled(s.roles, KeyOf(ops[0]))
  {
    var next := Do(s, Pa(ops[0]));
    assert ops[0] in ops;
    assert PaSteps(ops)[1..] == PaSteps(ops[1..]);
    UntilRejected(s.roles, next, ops[1..]);
  }

  lemma {:induction false} MisfitsAreRejected(s: State, ops: seq<PaOp>, k: (Id, Id))
    requires Accepts(s, PaSteps(ops)) && forall op <- ops :: KeyOf(op) == k ==> !Fits(op, s.roles)
    ensures NoPa(ops, k)
    decreases |ops|
  {
    if ops != [] {
      assert ops[0] in ops && PaSteps(ops)[0] == Pa(ops[0]) && PaSteps(ops)[1..] == PaSteps(ops[1..]);
      MisfitsAreRejected(Do(s, Pa(ops[0])), ops[1..], k);
    }
  }

  /** Two planned operations on one membership: the second is rejected. */
  lemma {:induction false} AcceptedAreDistinct(s: State, ops: seq<PaOp>)
    requires Accepts(s, PaSteps(ops)) && forall op <- ops :: Fits(op, s.roles)
    ensures DistinctPaOps(ops)
    decreases |ops|
  {
    if ops != [] {
      var next := Do(s, Pa(ops[0]));
      assert ops[0] in ops && PaSteps(ops)[1..] == PaSteps(ops[1..]);
      assert forall op <- ops[1..] :: op in ops;
      MisfitsAreRejected(next, ops[1..], KeyOf(ops[0]));
      AcceptedAreDistinct(next, ops[1..]);
      forall j | 1 <= j < |ops| ensures KeyOf(ops[j]) != KeyOf(ops[0]) {
        assert ops[1..][j - 1] in ops[1..];
      }
    }
  }

  lemma {:induction false} StopsInside(s: State, a: seq<Step>, b: seq<Step>)
    requires !Accepts(s, a)
    ensures Exec(s, a + b) == Exec(s, a)
    decreases |a|
  {
    if !Rejected(s, a[0]) {
      assert (a + b)[1..] == a[1..] + b;
      StopsInside(Do(s, a[0]), a[1..], b);
    }
  }

  /** What a cut-short run leaves: some memberships toggled, Discord and baseline untouched. */
  lemma CutRun(s: State, w: World)
    requires DistinctIds(s.mappings) && !DistinctPaOps(StatePlan(s, w).paOps)
    ensures var t, ops := Run(s, w), StatePlan(s, w).paOps;
            && t.held == s.held && t.baseline == s.baseline
            && (forall k :: Lookup(t.roles, k) == Lookup(s.roles, k) ||
                            (!NoPa(ops, k) && Lookup(t.roles, k) == Toggled(s.roles, k)))
            && ops != [] && Lookup(t.roles, KeyOf(ops[0])) == Toggled(s.roles, KeyOf(ops[0]))
  {
    var f, ops, p := Flagged(s, w), StatePlan(s, w).paOps, WholePlan(s, w);
    PaOpsComeFrom(LiveEdges(s, w), StateView(s));
    RunAfterFlags(s, w);
    hide StatePlan, Exec, Run, Accepts, Flagged, FlaggedWithin, NoneGone;
    if Accepts(f, PaSteps(ops)) {
      AcceptedAreDistinct(f, ops);
    }
    StopsInside(f, PaSteps(ops), ExtSteps(p.ext) + (UpsertSteps(p.upserts) + DeleteSteps(p.deletes)));
    UntilRejected(s.roles, f, ops);
    FirstOpCounts(f, ops);
  }

  /* ---------- A run that goes through ---------- */

  lemma DifferentLinks(links: seq<Link>, a: Link, b: Link)
    requires DistinctLinks(links) && a in links && b in links && a != b
    ensures a.userId != b.userId && a.externalUserId != b.externalUserId
  {
  }

  /** Two different live edges share a key only if they go the same way; their baseline rows differ. */
  lemma SharedKeys(s: State, w: World, d: Edge, e: Edge)
    requires OneWayShared(s, w) && d in LiveEdges(s, w) && e in LiveEdges(s, w) && d != e
    ensures RowOf(d) != RowOf(e)
    ensures RoleKey(d) == RoleKey(e) || HeldKey(d) == HeldKey(e) ==> SameWay(d.mapping, e.mapping)
  {
    EdgesAreLive(s.mappings, w.links, w.census, d);
    EdgesAreLive(s.mappings, w.links, w.census, e);
    if d.link != e.link {
      DifferentLinks(w.links, d.link, e.link);
    } else {
      var i :| 0 <= i < |s.mappings| && s.mappings[i] == d.mapping;
      var j :| 0 <= j < |s.mappings| && s.mappings[j] == e.mapping;
      assert Compatible(s.mappings[if i < j then i else j], s.mappings[if i < j then j else i]);
    }
  }

  /** When the roles agree, two planned calls on one Discord membership are the same call. */
  lemma CallsAgree(s: State, w: World)
    requires OneWayShared(s, w) && SidesAgree(s, w)
    ensures ConsistentExtOps(StatePlan(s, w).externalOps)
  {
    hide OneWayShared, LiveEdges, FlatMap, ExternalOpOf;
    var ops := StatePlan(s, w).externalOps;
    forall a, b | a in ops && b in ops && TargetOf(a) == TargetOf(b) ensures a == b {
      var d := CallComesFrom(LiveEdges(s, w), StateView(s), a);
      var e := CallComesFrom(LiveEdges(s, w), StateView(s), b);
      if d != e {
        SharedKeys(s, w, d, e);
        assert !Disputed(s, d, e);
        OutboundOp(d, StateView(s));
        OutboundOp(e, StateView(s));
      }
    }
  }

  lemma RunIsWholePlan(s: State, w: World)
    ensures Run(s, w) == Exec(s, StepsOf(WholePlan(s, w)))
  {
    WholeTrace(s, w);
    hide StatePlan, Exec, StepsOf, RunSteps;
  }

  /** The operations of a plan, and that each fits the rows it was planned on. */
  lemma PlanFits(s: State, w: World)
    ensures WholePlan(s, w).pa == StatePlan(s, w).paOps && WholePlan(s, w).ext == StatePlan(s, w).externalOps
    ensures forall op <- StatePlan(s, w).paOps :: Fits(op, s.roles)
  {
    PaOpsComeFrom(LiveEdges(s, w), StateView(s));
  }

  /** With at most one operation on each membership the whole plan is carried out. */
  lemma WholeRunEffect(s: State, w: World)
    requires DistinctPaOps(StatePlan(s, w).paOps) && ConsistentExtOps(StatePlan(s, w).externalOps)
    ensures Effect(s, Run(s, w), WholePlan(s, w))
  {
    hide *;
    RunIsWholePlan(s, w);
    PlanFits(s, w);
    var t := ProgressEffect(s, WholePlan(s, w));
  }

  /** When the groups agree, an operation on a membership is what every edge on it asks for. */
  lemma SharedOp(s: State, w: World, e: Edge, op: PaOp)
    requires OneWayShared(s, w) && SidesAgree(s, w) && e in LiveEdges(s, w)
    requires op in StatePlan(s, w).paOps && KeyOf(op) == RoleKey(e)
    ensures PaOpOf(e, StateView(s)) != []
  {
    var es, v := LiveEdges(s, w), StateView(s);
    PaOpsComeFrom(es, v);
    hide OneWayShared, LiveEdges, PaOpOf, FlatMap;
    var d :| d in es && PaOpOf(d, v) == [op];
    OpsOfEdge(d, v);
    if d.mapping.direction == Outbound {
      OutboundOp(d, v);
    }
    if d != e {
      SharedKeys(s, w, d, e);
      PaOpNotNative(d, v);
      assert !Contested(s, d, e);
      InboundOp(d, v);
      InboundOp(e, v);
    }
  }

  /** An operation of an edge toggles its membership, to what the edge wants. */
  lemma OpToggles(e: Edge, v: View)
    ensures PaOpOf(e, v) != [] ==> NextPatrice(e, v) == Toggled(v.roles, RoleKey(e))
    ensures PaOpOf(e, v) == [] ==> NextPatrice(e, v) == Lookup(v.roles, RoleKey(e))
  {
    OpsOfEdge(e, v);
    ValueOfPaOp(e, v);
  }

  lemma MembershipDone(s: State, t: State, w: World, e: Edge)
    requires OneWayShared(s, w) && SidesAgree(s, w) && e in LiveEdges(s, w)
    requires PaEffect(s.roles, t.roles, StatePlan(s, w).paOps)
    ensures PatriceDone(s, t, e)
  {
    var ops, v := StatePlan(s, w).paOps, StateView(s);
    OpToggles(e, v);
    PaOpsComeFrom(LiveEdges(s, w), v);
    PlannedPaOp(LiveEdges(s, w), v, e);
    hide OneWayShared, SidesAgree, PaOpOf, StatePlan, NextPatrice;
    if op :| op in ops && KeyOf(op) == RoleKey(e) {
      SharedOp(s, w, e, op);
      assert Fits(op, s.roles);
    } else {
      assert NoPa(ops, RoleKey(e));
    }
  }

  lemma CallDone(s: State, t: State, w: World, e: Edge)
    requires OneWayShared(s, w) && SidesAgree(s, w) && e in LiveEdges(s, w)
    requires ExtEffect(s.held, t.held, StatePlan(s, w).externalOps)
    ensures ExternalDone(s, t, e)
  {
    var ops, es, v := StatePlan(s, w).externalOps, LiveEdges(s, w), StateView(s);
    PlannedExternalOp(es, v, e);
    ValueOfCall(e, v);
    hide OneWayShared, ExternalOpOf, FlatMap, LiveEdges, NextExternal;
    if op :| op in ops && TargetOf(op) == HeldKey(e) {
      var d := CallComesFrom(es, v, op);
      if d != e {
        SharedKeys(s, w, d, e);
        assert !Disputed(s, d, e);
        OutboundOp(d, v);
        OutboundOp(e, v);
      }
    } else {
      assert NoExt(ops, HeldKey(e));
    }
  }

  lemma ValueOfCall(e: Edge, v: View)
    ensures ExternalOpOf(e, v) != [] ==> ExternalOpOf(e, v)[0].add == NextExternal(e, v)
    ensures ExternalOpOf(e, v) == [] ==> NextExternal(e, v) == (HeldKey(e) in v.held)
  {
  }

  lemma RowDone(s: State, t: State, w: World, e: Edge)
    requires OneWayShared(s, w) && e in LiveEdges(s, w)
    requires var plan := StatePlan(s, w);
             t.baseline == s.baseline + RowSet(plan.baselineUpserts) - RowSet(plan.baselineDeletes)
    ensures BaselineDone(s, t, e)
  {
    RowsOfPlan(s, w, RowOf(e));
    hide OneWayShared, StatePlan;
    if d :| d in LiveEdges(s, w) && RowOf(d) == RowOf(e) && d != e {
      SharedKeys(s, w, d, e);
    }
  }

  /** When the groups agree and no write is rejected, every live edge gets what it asked for. */
  lemma EdgesDone(s: State, w: World, e: Edge)
    requires OneWayShared(s, w) && SidesAgree(s, w) && DistinctPaOps(StatePlan(s, w).paOps) && e in LiveEdges(s, w)
    ensures var t := Run(s, w); PatriceDone(s, t, e) && ExternalDone(s, t, e) && BaselineDone(s, t, e)
  {
    CallsAgree(s, w);
    WholeRunEffect(s, w);
    hide Run, OneWayShared, SidesAgree, StatePlan, PaEffect, ExtEffect, PatriceDone, ExternalDone, BaselineDone;
    MembershipDone(s, Run(s, w), w, e);
    CallDone(s, Run(s, w), w, e);
    RowDone(s, Run(s, w), w, e);
  }

  /* ---------- Coming to rest ---------- */

  /** A run keeps the configuration, its edges, and which memberships are contested. */
  lemma RunKeepsAgreement(s: State, w: World)
    requires OneWayShared(s, w)
    ensures OneWayShared(Run(s, w), w) && LiveEdges(Run(s, w), w) == LiveEdges(s, w)
    ensures NoneGone(Run(s, w).mappings, w.census)
    ensures SidesAgree(s, w) ==> SidesAgree(Run(s, w), w)
  {
    var t, es := Run(s, w), LiveEdges(s, w);
    hide Run;
    RunKeeps(s, w, ("", ""), ("", ""));
    SameEdges(s.mappings, t.mappings, w.links, w.census);
    hide LiveEdges, NoneGone;
    forall d, e | d in es && e in es && Contested(t, d, e) ensures Contested(s, d, e) {
      InboundReadsOnly(s, w, d);
      InboundReadsOnly(s, w, e);
      RunKeeps(s, w, RoleKey(d), HeldKey(d));
      RunKeeps(s, w, RoleKey(d), HeldKey(e));
    }
    forall d, e | d in es && e in es && Disputed(t, d, e) ensures Disputed(s, d, e) {
      OutboundReadsOnly(s, w, d);
      OutboundReadsOnly(s, w, e);
      RunKeeps(s, w, RoleKey(d), HeldKey(d));
      RunKeeps(s, w, RoleKey(e), HeldKey(d));
    }
  }

  lemma OutboundReadsOnly(s: State, w: World, e: Edge)
    requires OneWayShared(s, w) && e in LiveEdges(s, w) && e.mapping.direction == Outbound
    ensures UnwrittenRole(s, w, RoleKey(e))
  {
    forall d | d in LiveEdges(s, w) && RoleKey(d) == RoleKey(e) ensures d.mapping.direction == Outbound {
      if d != e {
        SharedKeys(s, w, d, e);
      }
    }
  }

  lemma InboundReadsOnly(s: State, w: World, e: Edge)
    requires OneWayShared(s, w) && e in LiveEdges(s, w) && e.mapping.direction == Inbound
    ensures Unwritten(s, w, HeldKey(e))
  {
    forall d | d in LiveEdges(s, w) && HeldKey(d) == HeldKey(e) ensures d.mapping.direction == Inbound {
      if d != e {
        SharedKeys(s, w, d, e);
      }
    }
  }

  lemma ThroughThenQuiet(s: State, w: World)
    requires OneWayShared(s, w) && SidesAgree(s, w) && DistinctPaOps(StatePlan(s, w).paOps)
    ensures StatePlan(Run(s, w), w).paOps == [] && StatePlan(Run(s, w), w).externalOps == []
  {
    var t := Run(s, w);
    RunKeepsAgreement(s, w);
    hide Run, OneWayShared, SidesAgree, LiveEdges, Decide;
    forall e | e in LiveEdges(t, w) ensures VerdictOf(e, StateView(t)) == Keep {
      EdgesDone(s, w, e);
      if e.mapping.direction == Bidirectional {
        LoadedBit(s, w, e);
      }
      EdgeSettles(e.mapping, HeldKey(e) in s.held, Lookup(s.roles, RoleKey(e)),
                  BaselineBit(e, StateView(s)), BaselineBit(e, StateView(t)));
    }
    NoOps(LiveEdges(t, w), StateView(t));
  }

  /** Once the plan is empty on both sides, one more run brings the baseline in line. */
  lemma QuietThenRest(s: State, w: World)
    requires OneWayShared(s, w) && StatePlan(s, w).paOps == [] && StatePlan(s, w).externalOps == []
    ensures AtRest(Run(s, w), w)
  {
    var t, es := Run(s, w), LiveEdges(s, w);
    forall d, e | d in es && e in es ensures !Contested(s, d, e) && !Disputed(s, d, e) {
      if Contested(s, d, e) {
        ContestedHasWork(s, w, d, e);
      }
      if Disputed(s, d, e) {
        DisputedHasWork(s, w, d, e);
      }
    }
    RunKeepsAgreement(s, w);
    ThroughThenQuiet(s, w);
    hide Run, OneWayShared, SidesAgree, LiveEdges, Decide;
    forall e | e in es ensures RowOf(e) in t.baseline <==> HeldKey(e) in t.held {
      NoOpsMeansKeep(es, StateView(s), e);
      EdgesDone(s, w, e);
    }
  }

  lemma {:induction false} FewerOps<S, T>(xs: seq<S>, f: S -> seq<T>, g: S -> seq<T>)
    requires forall x <- xs :: g(x) == f(x) || g(x) == []
    ensures |FlatMap(xs, g)| <= |FlatMap(xs, f)|
    ensures (exists x :: x in xs && g(x) != f(x)) ==> |FlatMap(xs, g)| < |FlatMap(xs, f)|
  {
    if xs != [] {
      assert xs == Init(xs) + [Last(xs)];
      FewerOps(Init(xs), f, g);
    }
  }

  /** After a cut-short run an edge is settled if its membership was written, and else as before. */
  lemma CutEdge(s: State, t: State, w: World, e: Edge)
    requires OneWayShared(s, w) && SidesAgree(s, w) && e in LiveEdges(s, w)
    requires t == s.(roles := t.roles)
    requires var k := RoleKey(e);
             || Lookup(t.roles, k) == Lookup(s.roles, k)
             || (!NoPa(StatePlan(s, w).paOps, k) && Lookup(t.roles, k) == Toggled(s.roles, k))
    ensures PaOpOf(e, StateView(t)) ==
            if Lookup(t.roles, RoleKey(e)) == Lookup(s.roles, RoleKey(e)) then PaOpOf(e, StateView(s)) else []
  {
    if Lookup(t.roles, RoleKey(e)) != Lookup(s.roles, RoleKey(e)) {
      var op :| op in StatePlan(s, w).paOps && KeyOf(op) == RoleKey(e);
      SharedOp(s, w, e, op);
      SettledOnceToggled(e, StateView(s), StateView(t));
    }
  }

  lemma SettledOnceToggled(e: Edge, v: View, v': View)
    requires PaOpOf(e, v) != [] && v' == v.(roles := v'.roles)
    requires Lookup(v'.roles, RoleKey(e)) == Toggled(v.roles, RoleKey(e))
    ensures PaOpOf(e, v') == []
  {
  }

  /** A cut-short run still makes progress: the next plan is shorter. */
  lemma CutShrinks(s: State, w: World)
    requires OneWayShared(s, w) && SidesAgree(s, w) && NoneGone(s.mappings, w.census)
    requires !DistinctPaOps(StatePlan(s, w).paOps)
    ensures |StatePlan(Run(s, w), w).paOps| < |StatePlan(s, w).paOps|
  {
    var t, es, ops := Run(s, w), LiveEdges(s, w), StatePlan(s, w).paOps;
    var v, v' := StateView(s), StateView(t);
    CutRun(s, w);
    RunKeepsAgreement(s, w);
    NothingToFlag(s, w);
    PaOpsComeFrom(es, v);
    hide Run, OneWayShared, SidesAgree, PaOpOf, LiveEdges, FlatMap, NoneGone;
    forall e | e in es ensures PaOpOf(e, v') == PaOpOf(e, v) || PaOpOf(e, v') == [] {
      CutEdge(s, t, w, e);
    }
    var d :| d in es && PaOpOf(d, v) == [ops[0]];
    OpsOfEdge(d, v);
    CutEdge(s, t, w, d);
    assert PaOpsIn(v')(d) != PaOpsIn(v)(d);
    FewerOps(es, PaOpsIn(v), PaOpsIn(v'));
  }

  lemma NothingToFlag(s: State, w: World)
    requires DistinctIds(s.mappings) && NoneGone(s.mappings, w.census)
    ensures Run(s, w).mappings == s.mappings
  {
    hide Run;
    RunKeeps(s, w, ("", ""), ("", ""));
  }

  /** As long as a run is cut short the next plan is shorter, so some run goes through. */
  lemma {:induction false} ComesToRest(s: State, w: World) returns (n: nat)
    requires OneWayShared(s, w) && SidesAgree(s, w) && NoneGone(s.mappings, w.census)
    ensures AtRest(RunTimes(s, w, n), w)
    decreases |StatePlan(s, w).paOps|
  {
    hide Run, OneWayShared, SidesAgree, NoneGone, LiveEdges, AtRest, DistinctPaOps;
    var t := Run(s, w);
    RunKeepsAgreement(s, w);
    if DistinctPaOps(StatePlan(s, w).paOps) {
      ThroughThenQuiet(s, w);
      QuietThenRest(t, w);
      assert RunTimes(s, w, 2) == RunTimes(t, w, 1) == RunTimes(Run(t, w), w, 0);
      n := 2;
    } else {
      CutShrinks(s, w);
      var k := ComesToRest(t, w);
      n := k + 1;
    }
  }

  /**
   * Convergence, exactly. Among any other mappings and links, some number of runs comes to
   * rest if and only if nothing is contested or disputed: where inbound mappings meet on one
   * membership it is native, or the user is in all their groups or in none; where outbound
   * mappings meet on one group the user has all their roles or none.
   */
  lemma ComesToRestIff(s: State, w: World)
    requires OneWayShared(s, w)
    ensures (exists n: nat :: AtRest(RunTimes(s, w, n), w)) <==> SidesAgree(s, w)
  {
    hide Run, AtRest;
    if SidesAgree(s, w) {
      RunKeepsAgreement(s, w);
      var k := ComesToRest(Run(s, w), w);
      assert RunTimes(s, w, k + 1) == RunTimes(Run(s, w), w, k);
    } else {
      var d, e :| d in LiveEdges(s, w) && e in LiveEdges(s, w) && (Contested(s, d, e) || Disputed(s, d, e));
      forall n: nat ensures !AtRest(RunTimes(s, w, n), w) {
        DisagreementStays(s, w, d, e, n);
        RestIsQuiet(RunTimes(s, w, n), w);
      }
    }
  }

  lemma DisagreementStays(s: State, w: World, d: Edge, e: Edge, n: nat)
    requires OneWayShared(s, w) && d in LiveEdges(s, w) && e in LiveEdges(s, w)
    requires Contested(s, d, e) || Disputed(s, d, e)
    ensures var plan := StatePlan(RunTimes(s, w, n), w); plan.paOps != [] || plan.externalOps != []
  {
    hide StatePlan, RunTimes;
    if Contested(s, d, e) {
      InboundReadsOnly(s, w, d);
      InboundReadsOnly(s, w, e);
      ContestedNeverRests(s, w, d, e, n);
    } else {
      OutboundReadsOnly(s, w, d);
      OutboundReadsOnly(s, w, e);
      DisputedNeverRests(s, w, d, e, n);
    }
  }

  lemma RestIsQuiet(s: State, w: World)
    ensures AtRest(s, w) ==> StatePlan(s, w).paOps == [] && StatePlan(s, w).externalOps == []
  {
  }

  /** Without a repeated operation all Patrice writes of a run are accepted, whatever Discord is asked. */
  lemma PatriceGoesThrough(s: State, w: World)
    requires DistinctIds(s.mappings) && DistinctPaOps(StatePlan(s, w).paOps)
    ensures PaEffect(s.roles, Run(s, w).roles, StatePlan(s, w).paOps)
  {
    hide *;
    RunAfterFlags(s, w);
    PlanFits(s, w);
    PatriceFirst(Flagged(s, w), WholePlan(s, w));
  }

  lemma PatriceFirst(s: State, p: Progress)
    requires DistinctPaOps(p.pa) && forall op <- p.pa :: Fits(op, s.roles)
    ensures PaEffect(s.roles, Exec(s, AfterFlagging(p)).roles, p.pa)
  {
    var rest := ExtSteps(p.ext) + (UpsertSteps(p.upserts) + DeleteSteps(p.deletes));
    var t := Exec(s, PaSteps(p.pa));
    PaPhase(s, p.pa);
    assert NoPaStep(rest);
    hide Exec, PaEffect, ExtSteps, UpsertSteps, DeleteSteps, DistinctPaOps, Accepts;
    ExecAppend(s, PaSteps(p.pa), rest);
    OnlyPaMovesRoles(t, rest);
  }

  /** A run that goes through flips every contested membership, so two of them undo each other. */
  lemma ContestedFlips(s: State, w: World, d: Edge, e: Edge)
    requires OneWayShared(s, w) && d in LiveEdges(s, w) && e in LiveEdges(s, w) && Contested(s, d, e)
    requires DistinctPaOps(StatePlan(s, w).paOps)
    ensures Lookup(Run(s, w).roles, RoleKey(d)) == Toggled(s.roles, RoleKey(d))
    ensures Contested(Run(s, w), d, e)
  {
    var es, v, ops := LiveEdges(s, w), StateView(s), StatePlan(s, w).paOps;
    PatriceGoesThrough(s, w);
    InboundReadsOnly(s, w, d);
    InboundReadsOnly(s, w, e);
    PaOpsComeFrom(es, v);
    var p := Lookup(s.roles, RoleKey(d));
    assert p.Some? ==> p.value.Native? || p.value.Integration?;
    InboundOp(d, v);
    InboundOp(e, v);
    var x := if PaOpOf(d, v) != [] then d else e;
    PlannedPaOp(es, v, x);
    hide Run, OneWayShared, PaOpOf, StatePlan, LiveEdges;
    assert PaOpOf(x, v)[0] in ops && Fits(PaOpOf(x, v)[0], s.roles);
    RunKeeps(s, w, RoleKey(d), HeldKey(d));
    RunKeeps(s, w, RoleKey(d), HeldKey(e));
  }

  /** Two runs in a row that go through leave a contested membership where it was. */
  lemma ContestedReturns(s: State, w: World, d: Edge, e: Edge)
    requires OneWayShared(s, w) && d in LiveEdges(s, w) && e in LiveEdges(s, w) && Contested(s, d, e)
    requires DistinctPaOps(StatePlan(s, w).paOps) && DistinctPaOps(StatePlan(Run(s, w), w).paOps)
    ensures Lookup(Run(s, w).roles, RoleKey(d)) != Lookup(s.roles, RoleKey(d))
    ensures Lookup(Run(Run(s, w), w).roles, RoleKey(d)) == Lookup(s.roles, RoleKey(d))
  {
    var p := Lookup(s.roles, RoleKey(d));
    assert p.Some? ==> p.value.Native? || p.value.Integration?;
    hide Run, OneWayShared, LiveEdges, StatePlan;
    RunKeepsAgreement(s, w);
    ContestedFlips(s, w, d, e);
    ContestedFlips(Run(s, w), w, d, e);
  }

  /** What has come to rest stays so, on both sides. */
  lemma RestIsKept(s: State, w: World)
    requires OneWayShared(s, w) && AtRest(s, w)
    ensures AtRest(Run(s, w), w) && SameRoles(s, Run(s, w))
  {
    QuietThenRest(s, w);
    assert DistinctPaOps([]);
    WholeRunEffect(s, w);
    hide Run, OneWayShared, StatePlan;
    var t := Run(s, w);
    forall k ensures Lookup(t.roles, k) == Lookup(s.roles, k) ensures k in t.held <==> k in s.held {
      assert NoPa([], k) && NoExt([], k);
    }
    MapExtensionality(s.roles, t.roles);
  }

  /* ---------- One run is not enough ---------- */

  const OnRole1 := Mapping("1", "role", "group 1", Inbound, false, PatriceWins)
  const AlsoOnRole := Mapping("2", "role", "group 2", Inbound, false, PatriceWins)
  const OnRole3 := Mapping("3", "other role", "group 3", Inbound, false, PatriceWins)
  const TheLink := Link("user", "member")
  const NoMembership := State([OnRole1, AlsoOnRole, OnRole3], map[],
                              {("member", "group 1"), ("member", "group 2"), ("member", "group 3")}, {})
  const AllKnown := World([TheLink],
      Census(true, {"group 1", "group 2", "group 3"}, map["role" := Active, "other role" := Active]))

  lemma ThreeEdges()
    ensures LiveEdges(NoMembership, AllKnown)
            == [Edge(OnRole1, TheLink), Edge(AlsoOnRole, TheLink), Edge(OnRole3, TheLink)]
  {
    var f := EdgesIn([TheLink], AllKnown.census);
    FlatMapSnoc([], OnRole1, f);
    FlatMapSnoc([OnRole1], AlsoOnRole, f);
    FlatMapSnoc([OnRole1, AlsoOnRole], OnRole3, f);
    assert [] + [OnRole1] == [OnRole1];
    assert NoMembership.mappings == [OnRole1, AlsoOnRole] + [OnRole3];
    assert [OnRole1] + [AlsoOnRole] == [OnRole1, AlsoOnRole];
    assert f(OnRole1) == [Edge(OnRole1, TheLink)] && f(AlsoOnRole) == [Edge(AlsoOnRole, TheLink)]
           && f(OnRole3) == [Edge(OnRole3, TheLink)];
  }

  lemma ThreeGrants()
    ensures StatePlan(NoMembership, AllKnown).paOps ==
            [Grant("user", "role", "group 1"), Grant("user", "role", "group 2"), Grant("user", "other role", "group 3")]
  {
    ThreeEdges();
    var f := PaOpsIn(StateView(NoMembership));
    var a, b, c := Edge(OnRole1, TheLink), Edge(AlsoOnRole, TheLink), Edge(OnRole3, TheLink);
    hide LiveEdges;
    FlatMapSnoc([], a, f);
    FlatMapSnoc([a], b, f);
    FlatMapSnoc([a, b], c, f);
    assert [] + [a] == [a] && [a] + [b] == [a, b] && [a, b] + [c] == [a, b, c];
  }

  /**
   * The groups agree, but the second grant of the shared role is rejected and the run ends
   * there: the grant planned after it has to wait for the next run.
   */
  lemma AgreeingGroupsCanTakeTwoRuns() returns (s: State, w: World)
    ensures OneWayShared(s, w) && SidesAgree(s, w)
    ensures StatePlan(Run(s, w), w).paOps != []
  {
    s, w := NoMembership, AllKnown;
    var e := Edge(OnRole3, TheLink);
    ThreeEdges();
    ThreeGrants();
    OnlyFirstOf(s, w);
    NoneDisagree();
    hide StatePlan, Flagged, LiveEdges, Run, OneWayShared;
    RunKeepsAgreement(s, w);
    InboundOp(e, StateView(Run(s, w)));
    StillPlanned(Run(s, w), w, e);
  }

  lemma NoneDisagree()
    ensures OneWayShared(NoMembership, AllKnown) && SidesAgree(NoMembership, AllKnown)
  {
    ThreeEdges();
    hide LiveEdges;
  }

  /** When the second operation repeats the first, the first is all that a run writes. */
  lemma OnlyFirstOf(s: State, w: World)
    requires DistinctIds(s.mappings)
    requires var ops := StatePlan(s, w).paOps;
             |ops| >= 2 && KeyOf(ops[0]) == KeyOf(ops[1]) && ops[0].Grant? && ops[1].Grant?
    ensures Run(s, w).held == s.held
    ensures forall k :: k != KeyOf(StatePlan(s, w).paOps[0]) ==> Lookup(Run(s, w).roles, k) == Lookup(s.roles, k)
  {
    var f, ops, p := Flagged(s, w), StatePlan(s, w).paOps, WholePlan(s, w);
    RunAfterFlags(s, w);
    assert AfterFlagging(p)[0] == Pa(ops[0]) && AfterFlagging(p)[1..][0] == Pa(ops[1]);
    hide StatePlan, Flagged, FlaggedWithin, NoneGone, LiveEdges, AfterFlagging, Run;
    RepeatedGrant(f, AfterFlagging(p));
  }

  lemma RepeatedGrant(s: State, steps: seq<Step>)
    requires |steps| >= 2 && steps[0].Pa? && steps[1].Pa? && steps[0].paOp.Grant? && steps[1].paOp.Grant?
    requires KeyOf(steps[0].paOp) == KeyOf(steps[1].paOp)
    ensures Exec(s, steps) == s || Exec(s, steps) == Do(s, steps[0])
  {
    assert steps[1..][0] == steps[1];
  }

  lemma StillPlanned(s: State, w: World, e: Edge)
    requires e in LiveEdges(s, w) && PaOpOf(e, StateView(s)) != []
    ensures StatePlan(s, w).paOps != []
  {
    PlannedPaOp(LiveEdges(s, w), StateView(s), e);
  }
}
