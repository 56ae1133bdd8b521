/** Runs in which Discord refuses, fails or aborts calls: what is in afterwards, call by call. */
module SyncRefusals {
  import opened Common
  import opened Reconciler
  import opened SyncRun
  import opened SyncTheorems
  import opened SyncResults

  /* ---------- The outbound loop, told from the calls and their outcomes ---------- */

  /** The loop got as far as the i-th call: no earlier one, nor this one, met an invalid token. */
  predicate Made(outcomes: seq<Outcome>, i: nat) {
    i < |outcomes| && forall j :: 0 <= j <= i ==> outcomes[j] != Unauthorized
  }

  /** A call on the group was answered 403 or 404. */
  predicate GroupRefused(ops: seq<ExternalOp>, outcomes: seq<Outcome>, groupId: Id)
    requires |ops| == |outcomes|
  {
    exists i :: 0 <= i < |ops| && Made(outcomes, i) && ops[i].groupId == groupId
                && (outcomes[i] == Forbidden || outcomes[i] == NotFound)
  }

  lemma {:induction false} RefusedGroupsAre(ops: seq<ExternalOp>, outcomes: seq<Outcome>, g: Id)
    requires |ops| == |outcomes|
    ensures g in RefusedGroups(ops, outcomes) <==>
            exists i :: 0 <= i < |ops| && ops[i].groupId == g && (outcomes[i] == Forbidden || outcomes[i] == NotFound)
    ensures forall i, j :: 0 <= i < j < |RefusedGroups(ops, outcomes)| ==>
              RefusedGroups(ops, outcomes)[i] != RefusedGroups(ops, outcomes)[j]
  {
    if ops != [] {
      RefusedGroupsAre(Init(ops), Init(outcomes), g);
      RefusedGroupsAre(Init(ops), Init(outcomes), Last(ops).groupId);
      if i :| 0 <= i < |ops| - 1 && ops[i].groupId == g && (outcomes[i] == Forbidden || outcomes[i] == NotFound) {
        assert Init(ops)[i] == ops[i] && Init(outcomes)[i] == outcomes[i];
      }
    }
  }

  lemma MadeIsReached(ops: seq<ExternalOp>, outcomes: seq<Outcome>, i: nat)
    requires |ops| == |outcomes| && i < |ops|
    ensures i < Reached(ops, outcomes) <==> Made(outcomes, i)
  {
  }

  /** Being refused within the calls that were reached. */
  lemma RefusedUpTo(ops: seq<ExternalOp>, outcomes: seq<Outcome>, n: nat, g: Id)
    requires |ops| == |outcomes| && n <= |ops| && forall i: nat | i < |ops| :: i < n <==> Made(outcomes, i)
    ensures GroupRefused(ops, outcomes, g) <==>
            exists i :: 0 <= i < n && ops[..n][i].groupId == g
                        && (outcomes[..n][i] == Forbidden || outcomes[..n][i] == NotFound)
  {
    hide Made;
    if i :| 0 <= i < |ops| && Made(outcomes, i) && ops[i].groupId == g
            && (outcomes[i] == Forbidden || outcomes[i] == NotFound) {
      assert ops[..n][i] == ops[i] && outcomes[..n][i] == outcomes[i];
    }
  }

  lemma TokenInvalidIff(ops: seq<ExternalOp>, outcomes: seq<Outcome>)
    requires |ops| == |outcomes|
    ensures Reached(ops, outcomes) < |ops| <==> Unauthorized in outcomes
  {
  }

  /** The report names a group exactly if a call on it was refused for good, and names it once. */
  lemma ReportNamesRefused(ops: seq<ExternalOp>, outcomes: seq<Outcome>, g: Id)
    requires |ops| == |outcomes|
    ensures g in OutboundReport(ops, outcomes).brokenGroupIds <==> GroupRefused(ops, outcomes, g)
    ensures var ids := OutboundReport(ops, outcomes).brokenGroupIds;
            forall i, j :: 0 <= i < j < |ids| ==> ids[i] != ids[j]
    ensures OutboundReport(ops, outcomes).tokenInvalid <==> Unauthorized in outcomes
  {
    var n := Reached(ops, outcomes);
    hide RefusedGroups, DeliveredOps, Reached, Made, GroupRefused;
    RefusedGroupsAre(ops[..n], outcomes[..n], g);
    TokenInvalidIff(ops, outcomes);
    forall i: nat | i < |ops| ensures i < n <==> Made(outcomes, i) {
      MadeIsReached(ops, outcomes, i);
    }
    RefusedUpTo(ops, outcomes, n, g);
  }

  /* ---------- Which mappings are broken after a run ---------- */

  /**
   * The planner flags exactly the active mappings whose group is unknown, and none at all when the
   * membership answer is empty, since then the provider may not have answered.
   */
  lemma PlannerFlagsExactly(i: Input, id: Id)
    ensures id in Plan(i).brokenMappingIds <==>
            i.membership != map[]
            && exists m :: m in i.mappings && m.id == id && !m.isBroken && m.groupId !in i.knownGroups
  {
    var c := CensusOf(i);
    assert c.knownGroups == i.knownGroups;
    assert c.anyMembers <==> i.membership != map[];
    FlatMapMember(i.mappings, BrokenIn(c), id);
    assert Plan(i).brokenMappingIds == FlatMap(i.mappings, BrokenIn(c));
    hide FlatMap, Plan, CensusOf;
    if m :| m in i.mappings && m.id == id && !m.isBroken && m.groupId !in i.knownGroups {
      var k :| 0 <= k < |i.mappings| && i.mappings[k] == m;
      assert c.anyMembers ==> id in BrokenIn(c)(i.mappings[k]);
    }
  }

  /** Steps that are all accepted flag exactly the mappings that their flag steps name. */
  lemma {:induction false} FlagsDecide(s: State, steps: seq<Step>)
    requires Accepts(s, steps)
    ensures var t := Exec(s, steps);
            && |t.mappings| == |s.mappings|
            && forall i :: 0 <= i < |s.mappings| ==>
                 t.mappings[i] ==
                 s.mappings[i].(isBroken := s.mappings[i].isBroken || Flag(s.mappings[i].id) in steps)
    decreases |steps|
  {
    if steps != [] {
      assert steps == [steps[0]] + steps[1..];
      FlagsDecide(Do(s, steps[0]), steps[1..]);
    }
  }

  /** The flag steps of a run: the plan's, and the active mappings of the groups that were refused. */
  lemma FlagSteps(ms: seq<Mapping>, plan: Output, outbound: ApplyResult, id: Id)
    ensures Flag(id) in Trace(ms, plan, outbound) <==>
            id in plan.brokenMappingIds || id in FlatMap(outbound.brokenGroupIds, RefusedMappings(ms))
  {
    var a, b := plan.brokenMappingIds, FlatMap(outbound.brokenGroupIds, RefusedMappings(ms));
    hide FlatMap;
    FlagIn(a, id);
    FlagIn(b, id);
    assert Flag(id) in Trace(ms, plan, outbound) <==>
           Flag(id) in Flags(a) || Flag(id) in PaSteps(plan.paOps) || Flag(id) in ExtSteps(outbound.appliedOps)
           || Flag(id) in Flags(b) || Flag(id) in UpsertSteps(plan.baselineUpserts)
           || Flag(id) in DeleteSteps(plan.baselineDeletes);
  }

  lemma FlagIn(ids: seq<Id>, id: Id)
    ensures Flag(id) in Flags(ids) <==> id in ids
  {
    if id in ids {
      var i :| 0 <= i < |ids| && ids[i] == id;
      assert Flags(ids)[i] == Flag(id);
    }
  }

  lemma GoneFlags(ms: seq<Mapping>, c: Census, i: nat)
    requires DistinctIds(ms) && i < |ms|
    ensures ms[i].id in FlatMap(ms, BrokenIn(c)) <==> !ms[i].isBroken && GroupGone(ms[i], c)
  {
    FlatMapMember(ms, BrokenIn(c), ms[i].id);
    hide FlatMap;
    if j :| 0 <= j < |ms| && ms[i].id in BrokenIn(c)(ms[j]) {
      assert i == j;
    }
    assert !ms[i].isBroken && GroupGone(ms[i], c) ==> ms[i].id in BrokenIn(c)(ms[i]);
  }

  lemma RefusedFlags(ms: seq<Mapping>, groups: seq<Id>, i: nat)
    requires DistinctIds(ms) && i < |ms|
    ensures ms[i].id in FlatMap(groups, RefusedMappings(ms)) <==> !ms[i].isBroken && ms[i].groupId in groups
  {
    FlatMapMember(groups, RefusedMappings(ms), ms[i].id);
    hide FlatMap;
    forall k | 0 <= k < |groups|
      ensures ms[i].id in RefusedMappings(ms)(groups[k]) <==> !ms[i].isBroken && ms[i].groupId == groups[k]
    {
      FlatMapMember(ms, IdIfOfGroup(groups[k]), ms[i].id);
      if j :| 0 <= j < |ms| && ms[i].id in IdIfOfGroup(groups[k])(ms[j]) {
        assert i == j;
      }
      assert !ms[i].isBroken && ms[i].groupId == groups[k] ==> ms[i].id in IdIfOfGroup(groups[k])(ms[i]);
    }
  }

  /**
   * However Discord answers: after a run whose writes are accepted a mapping is broken exactly if
   * it was, if its group was gone, or if a call on its group was answered 403 or 404 before any
   * 401; and nothing else about the mappings has changed.
   */
  lemma BrokenAfterRun(s: State, w: World, outcomes: seq<Outcome>)
    requires DistinctIds(s.mappings) && |outcomes| == |StatePlan(s, w).externalOps|
    requires Accepts(s, RunSteps(s, w, outcomes))
    ensures var t, ops := Exec(s, RunSteps(s, w, outcomes)), StatePlan(s, w).externalOps;
            && |t.mappings| == |s.mappings|
            && forall i :: 0 <= i < |s.mappings| ==>
                 var m := s.mappings[i];
                 t.mappings[i] == m.(isBroken :=
                   m.isBroken
                   || (w.census.anyMembers && m.groupId !in w.census.knownGroups)
                   || GroupRefused(ops, outcomes, m.groupId))
  {
    var plan := StatePlan(s, w);
    var report := OutboundReport(plan.externalOps, outcomes);
    FlagsDecide(s, RunSteps(s, w, outcomes));
    hide Exec, Accepts, OutboundReport, FlatMap, GroupRefused, LiveEdges, Trace;
    forall i | 0 <= i < |s.mappings|
      ensures var m := s.mappings[i];
              Flag(m.id) in RunSteps(s, w, outcomes) <==>
              !m.isBroken && (GroupGone(m, w.census) || GroupRefused(plan.externalOps, outcomes, m.groupId))
    {
      FlagSteps(s.mappings, plan, report, s.mappings[i].id);
      GoneFlags(s.mappings, w.census, i);
      RefusedFlags(s.mappings, report.brokenGroupIds, i);
      ReportNamesRefused(plan.externalOps, outcomes, s.mappings[i].groupId);
    }
  }

  /* ---------- Which calls have taken effect ---------- */

  predicate DeliveredAt(ops: seq<ExternalOp>, outcomes: seq<Outcome>, i: nat, h: (Id, Id))
    requires |ops| == |outcomes|
  {
    i < |ops| && Made(outcomes, i) && outcomes[i] == Delivered && TargetOf(ops[i]) == h
  }

  /** The i-th call is the last delivered one on the membership. */
  ghost predicate LastDelivered(ops: seq<ExternalOp>, outcomes: seq<Outcome>, i: nat, h: (Id, Id))
    requires |ops| == |outcomes|
  {
    DeliveredAt(ops, outcomes, i, h) && forall j: nat :: i < j ==> !DeliveredAt(ops, outcomes, j, h)
  }

  /** What the delivered calls leave of one Discord membership. */
  ghost predicate CallsLeave(
    ops: seq<ExternalOp>, outcomes: seq<Outcome>, h: (Id, Id), before: bool, after: bool)
    requires |ops| == |outcomes|
  {
    && ((forall i: nat :: !DeliveredAt(ops, outcomes, i, h)) ==> after == before)
    && forall i: nat | LastDelivered(ops, outcomes, i, h) :: after == ops[i].add
  }

  lemma {:induction false} ExtAccepted(s: State, ops: seq<ExternalOp>)
    ensures Accepts(s, ExtSteps(ops))
    decreases |ops|
  {
    if ops != [] {
      assert ExtSteps(ops)[1..] == ExtSteps(ops[1..]);
      ExtAccepted(Do(s, Ext(ops[0])), ops[1..]);
    }
  }

  /** One more delivered call decides its own membership. */
  lemma OneMoreCall(s: State, before: seq<ExternalOp>, op: ExternalOp, h: (Id, Id))
    ensures h in Exec(s, ExtSteps(before + [op])).held <==>
            if TargetOf(op) == h then op.add else h in Exec(s, ExtSteps(before)).held
  {
    var t := Exec(s, ExtSteps(before));
    ExtAccepted(s, before);
    assert ExtSteps(before + [op]) == ExtSteps(before) + [Ext(op)];
    ExecAppend(s, ExtSteps(before), [Ext(op)]);
    assert [Ext(op)][1..] == [];
    assert Exec(t, [Ext(op)]) == Do(t, Ext(op));
  }

  lemma SnocCall(ops: seq<ExternalOp>, outcomes: seq<Outcome>, h: (Id, Id), before: bool, mid: bool, after: bool)
    requires |ops| == |outcomes| && ops != [] && Made(outcomes, |ops| - 1)
    requires CallsLeave(Init(ops), Init(outcomes), h, before, mid)
    requires after == if Last(outcomes) == Delivered && TargetOf(Last(ops)) == h then Last(ops).add else mid
    ensures CallsLeave(ops, outcomes, h, before, after)
  {
    var a, b, n := Init(ops), Init(outcomes), |ops| - 1;
    assert DeliveredAt(ops, outcomes, n, h) <==> Last(outcomes) == Delivered && TargetOf(Last(ops)) == h;
    forall i: nat ensures DeliveredAt(a, b, i, h) <==> i < n && DeliveredAt(ops, outcomes, i, h) {
    }
    forall i: nat | LastDelivered(ops, outcomes, i, h) ensures after == ops[i].add {
      assert DeliveredAt(ops, outcomes, i, h);
      if i < n {
        assert !DeliveredAt(ops, outcomes, n, h);
        assert LastDelivered(a, b, i, h);
      }
    }
  }

  lemma {:induction false} LastDeliveryWins(s: State, ops: seq<ExternalOp>, outcomes: seq<Outcome>, h: (Id, Id))
    requires |ops| == |outcomes| && forall i :: 0 <= i < |ops| ==> outcomes[i] != Unauthorized
    ensures CallsLeave(ops, outcomes, h, h in s.held, h in Exec(s, ExtSteps(DeliveredOps(ops, outcomes))).held)
  {
    hide Exec, ExtSteps, TargetOf, CallsLeave;
    if ops == [] {
      NoCalls(s, h);
    } else {
      LastDeliveryWins(s, Init(ops), Init(outcomes), h);
      var before := DeliveredOps(Init(ops), Init(outcomes));
      var mid := h in Exec(s, ExtSteps(before)).held;
      if Last(outcomes) == Delivered {
        OneMoreCall(s, before, Last(ops), h);
      } else {
        assert before + [] == before;
      }
      SnocCall(ops, outcomes, h, h in s.held, mid, h in Exec(s, ExtSteps(DeliveredOps(ops, outcomes))).held);
    }
  }

  lemma NoCalls(s: State, h: (Id, Id))
    ensures CallsLeave([], [], h, h in s.held, h in Exec(s, ExtSteps(DeliveredOps([], []))).held)
  {
  }

  /** Nothing after the first 401 counts. */
  lemma CallsUpTo(ops: seq<ExternalOp>, outcomes: seq<Outcome>, h: (Id, Id), before: bool, after: bool)
    requires |ops| == |outcomes|
    requires var n := Reached(ops, outcomes); CallsLeave(ops[..n], outcomes[..n], h, before, after)
    ensures CallsLeave(ops, outcomes, h, before, after)
  {
    var n := Reached(ops, outcomes);
    forall i: nat ensures DeliveredAt(ops[..n], outcomes[..n], i, h) <==> DeliveredAt(ops, outcomes, i, h) {
      if i < |ops| {
        MadeIsReached(ops, outcomes, i);
      }
    }
    forall i: nat ensures LastDelivered(ops[..n], outcomes[..n], i, h) <==> LastDelivered(ops, outcomes, i, h) {
    }
  }

  predicate NoExtStep(steps: seq<Step>) { forall st <- steps :: !st.Ext? }

  lemma {:induction false} OnlyExtMovesDiscord(s: State, steps: seq<Step>)
    requires NoExtStep(steps)
    ensures Exec(s, steps).held == s.held
    decreases |steps|
  {
    if steps != [] && !Rejected(s, steps[0]) {
      OnlyExtMovesDiscord(Do(s, steps[0]), steps[1..]);
    }
  }

  lemma TraceAroundCalls(ms: seq<Mapping>, plan: Output, outbound: ApplyResult)
    returns (head: seq<Step>, tail: seq<Step>)
    ensures Trace(ms, plan, outbound) == head + (ExtSteps(outbound.appliedOps) + tail)
    ensures NoExtStep(head) && NoExtStep(tail)
  {
    hide FlatMap;
    head := Flags(plan.brokenMappingIds) + PaSteps(plan.paOps);
    tail := Flags(FlatMap(outbound.brokenGroupIds, RefusedMappings(ms)))
          + UpsertSteps(plan.baselineUpserts) + DeleteSteps(plan.baselineDeletes);
    assert Trace(ms, plan, outbound) == head + (ExtSteps(outbound.appliedOps) + tail);
  }

  lemma {:induction false} AcceptsPrefix(s: State, a: seq<Step>, b: seq<Step>)
    requires Accepts(s, a + b)
    ensures Accepts(s, a)
    decreases |a|
  {
    if a != [] {
      assert (a + b)[1..] == a[1..] + b;
      AcceptsPrefix(Do(s, a[0]), a[1..], b);
    }
  }

  /**
   * However Discord answers: after a run whose writes are accepted each Discord membership is as
   * the last delivered call on it says, and as before if none was delivered before any 401.
   */
  lemma DiscordAfterRun(s: State, w: World, outcomes: seq<Outcome>, h: (Id, Id))
    requires |outcomes| == |StatePlan(s, w).externalOps|
    requires Accepts(s, RunSteps(s, w, outcomes))
    ensures CallsLeave(StatePlan(s, w).externalOps, outcomes, h,
                       h in s.held, h in Exec(s, RunSteps(s, w, outcomes)).held)
  {
    var plan := StatePlan(s, w);
    var ops, report := plan.externalOps, OutboundReport(plan.externalOps, outcomes);
    var n := Reached(ops, outcomes);
    var head, tail := TraceAroundCalls(s.mappings, plan, report);
    var calls := ExtSteps(report.appliedOps);
    assert RunSteps(s, w, outcomes) == head + (calls + tail);
    hide Exec, Accepts, Trace, StatePlan, ExtSteps, CallsLeave, RunSteps;
    AcceptsPrefix(s, head, calls + tail);
    var mid := Exec(s, head);
    ExecAppend(s, head, calls + tail);
    OnlyExtMovesDiscord(s, head);
    ExtAccepted(mid, report.appliedOps);
    ExecAppend(mid, calls, tail);
    OnlyExtMovesDiscord(Exec(mid, calls), tail);
    LastDeliveryWins(mid, ops[..n], outcomes[..n], h);
    CallsUpTo(ops, outcomes, h, h in s.held, h in Exec(mid, calls).held);
  }
}
