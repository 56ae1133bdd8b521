/** The adapter: loads what the planner needs and applies the plan write by write. */
module DiscordAdapter {
  import opened Common
  import opened Reconciler
  import opened SyncRun
  import opened SyncTheorems
  import opened FastPath

  function NotBroken(): Mapping -> bool { (m: Mapping) => !m.isBroken }

  /** Dropping elements that contribute nothing changes nothing. */
  lemma {:induction false} FilterSkips<S, T>(xs: seq<S>, p: S -> bool, f: S -> seq<T>)
    requires forall x <- xs :: !p(x) ==> f(x) == []
    ensures FlatMap(Filter(xs, p), f) == FlatMap(xs, f)
  {
    if xs != [] {
      var x, before := Last(xs), Filter(Init(xs), p);
      FilterSkips(Init(xs), p, f);
      assert x in xs;
      if p(x) {
        FlatMapSnoc(before, x, f);
      } else {
        assert before + [] == before && FlatMap(Init(xs), f) + [] == FlatMap(Init(xs), f);
      }
    }
  }

  /** Dropping the broken mappings before planning changes nothing: the planner skips them. */
  lemma FilteredMappings(ms: seq<Mapping>, links: seq<Link>, c: Census)
    ensures Edges(Filter(ms, NotBroken()), links, c) == Edges(ms, links, c)
    ensures FlatMap(Filter(ms, NotBroken()), BrokenIn(c)) == FlatMap(ms, BrokenIn(c))
  {
    FilterSkips(ms, NotBroken(), EdgesIn(links, c));
    FilterSkips(ms, NotBroken(), BrokenIn(c));
  }

  /** The planner only looks up memberships of linked users in mapped roles. */
  ghost predicate Covers(part: map<(Id, Id), Source>, whole: map<(Id, Id), Source>, es: seq<Edge>) {
    forall e <- es :: Lookup(part, RoleKey(e)) == Lookup(whole, RoleKey(e))
  }

  lemma SamePlan(es: seq<Edge>, v: View, part: map<(Id, Id), Source>, broken: seq<Id>)
    requires Covers(part, v.roles, es)
    ensures PlanFor(es, v.(roles := part), broken) == PlanFor(es, v, broken)
  {
    hide Decide;
    var u := v.(roles := part);
    forall e | e in es ensures VerdictOf(e, u) == VerdictOf(e, v) {
      assert BaselineBit(e, u) == BaselineBit(e, v);
    }
    FlatMapCongruence(es, PaOpsIn(u), PaOpsIn(v));
    FlatMapCongruence(es, ExternalOpsIn(u), ExternalOpsIn(v));
    FlatMapCongruence(es, UpsertsIn(u), UpsertsIn(v));
    FlatMapCongruence(es, DeletesIn(u), DeletesIn(v));
  }

  /** One more step after accepted ones: it runs, or it throws and ends everything. */
  lemma ExecSnoc(s: State, done: seq<Step>, step: Step)
    requires Accepts(s, done)
    ensures Accepts(s, done + [step]) <==> !Rejected(Exec(s, done), step)
    ensures !Rejected(Exec(s, done), step) ==> Exec(s, done + [step]) == Do(Exec(s, done), step)
  {
    ExecAppend(s, done, [step]);
  }

  lemma ExecStuck(s: State, done: seq<Step>, rest: seq<Step>)
    requires Accepts(s, done) && rest != [] && Rejected(Exec(s, done), rest[0])
    ensures Exec(s, done + rest) == Exec(s, done) && !Accepts(s, done + rest)
  {
    ExecAppend(s, done, rest);
  }

  /** How many of the operations grant a role. */
  function Grants(ops: seq<PaOp>): (n: nat)
    ensures n <= |ops|
  {
    if ops == [] then 0 else Grants(Init(ops)) + if Last(ops).Grant? then 1 else 0
  }

  class Adapter {
    var mappings: seq<Mapping>
    var userRoles: map<(Id, Id), Source>
    var baselineRows: set<BaselineRow>
    /** What the guild's members hold; only Discord itself stores this. */
    var discord: set<(Id, Id)>
    var connectionBroken: bool

    function Snapshot(): State
      reads this
    {
      State(mappings, userRoles, discord, baselineRows)
    }

    constructor (ms: seq<Mapping>, roles: map<(Id, Id), Source>, held: set<(Id, Id)>, rows: set<BaselineRow>)
      ensures Snapshot() == State(ms, roles, held, rows)
    {
      mappings, userRoles, discord, baselineRows, connectionBroken := ms, roles, held, rows, false;
    }

    /** One REST call per operation; a failure is counted and the loop goes on, except after a 401. */
    method ApplyOutbound(ops: seq<ExternalOp>, outcomes: seq<Outcome>) returns (result: ApplyResult)
      requires |ops| == |outcomes|
      modifies this`discord, this`connectionBroken
      ensures result == OutboundReport(ops, outcomes)
      ensures Snapshot() == Exec(old(Snapshot()), ExtSteps(result.appliedOps))
      ensures Accepts(old(Snapshot()), ExtSteps(result.appliedOps))
      ensures connectionBroken == (old(connectionBroken) || result.tokenInvalid)
    {
      hide Exec, Accepts, Reached, DeliveredOps, RefusedGroups, OutboundReport, ExtSteps, TargetOf;
      var failed := 0;
      var appliedOps: seq<ExternalOp>, brokenGroupIds: seq<Id> := [], [];
      ghost var before := Snapshot();
      NothingSent(ops, outcomes, before);
      for i := 0 to |ops|
        invariant i <= Reached(ops, outcomes)
        invariant appliedOps == DeliveredOps(ops[..i], outcomes[..i])
        invariant brokenGroupIds == RefusedGroups(ops[..i], outcomes[..i])
        invariant |appliedOps| + failed == i
        invariant Accepts(before, ExtSteps(appliedOps))
        invariant Snapshot() == Exec(before, ExtSteps(appliedOps))
        invariant connectionBroken == old(connectionBroken)
      {
        var op, outcome := ops[i], outcomes[i];
        OneSent(ops, outcomes, i);
        match outcome {
          case Delivered =>
            SentStep(before, appliedOps, op);
            discord := if op.add then discord + {TargetOf(op)} else discord - {TargetOf(op)};
            appliedOps := appliedOps + [op];
          case Unauthorized =>
            connectionBroken := true;
            return ApplyResult(appliedOps, |ops| - |appliedOps|, brokenGroupIds, true);
          case Forbidden | NotFound =>
            if op.groupId !in brokenGroupIds {
              brokenGroupIds := brokenGroupIds + [op.groupId];
            }
            failed := failed + 1;
          case _ =>
            failed := failed + 1;
        }
      }
      AllSent(ops, outcomes);
      result := ApplyResult(appliedOps, failed, brokenGroupIds, false);
    }

    /** Sets `is_broken` on the named mappings, one update each. */
    method FlagBroken(ids: seq<Id>, ghost start: State, ghost done: seq<Step>)
      requires Accepts(start, done) && Snapshot() == Exec(start, done)
      modifies this`mappings
      ensures Accepts(start, done + Flags(ids)) && Snapshot() == Exec(start, done + Flags(ids))
    {
      assert done + Flags([]) == done;
      for i := 0 to |ids|
        invariant Accepts(start, done + Flags(ids[..i])) && Snapshot() == Exec(start, done + Flags(ids[..i]))
      {
        assert done + Flags(ids[..i + 1]) == (done + Flags(ids[..i])) + [Flag(ids[i])];
        ExecSnoc(start, done + Flags(ids[..i]), Flag(ids[i]));
        mappings := MarkBroken(mappings, ids[i]);
      }
      assert ids[..|ids|] == ids;
    }

    /** Creates and deletes membership rows; a write the database refuses ends the loop. */
    method ApplyPaOps(ops: seq<PaOp>, ghost start: State, ghost done: seq<Step>)
      returns (granted: nat, revoked: nat, ok: bool)
      requires Accepts(start, done) && Snapshot() == Exec(start, done)
      modifies this`userRoles
      ensures ok <==> Accepts(start, done + PaSteps(ops))
      ensures Snapshot() == Exec(start, done + PaSteps(ops))
      ensures ok ==> granted == Grants(ops) && revoked == |ops| - Grants(ops)
    {
      hide Exec, Accepts, PaSteps, Grants;
      granted, revoked, ok := 0, 0, true;
      NoPaYet(start, done, ops);
      for i := 0 to |ops|
        invariant Accepts(start, done + PaSteps(ops[..i])) && Snapshot() == Exec(start, done + PaSteps(ops[..i]))
        invariant granted == Grants(ops[..i]) && granted + revoked == i && ok
      {
        var op := ops[i];
        OnePaOp(start, done, ops, i);
        if op.Grant? {
          if (op.userId, op.roleId) in userRoles {
            return granted, revoked, false;
          }
          userRoles := userRoles[(op.userId, op.roleId) := Integration];
          granted := granted + 1;
        } else {
          if (op.userId, op.roleId) !in userRoles {
            return granted, revoked, false;
          }
          userRoles := userRoles - {(op.userId, op.roleId)};
          revoked := revoked + 1;
        }
      }
      assert ops[..|ops|] == ops;
    }

    method WriteBaseline(
      upserts: seq<BaselineRow>, deletes: seq<BaselineRow>, ghost start: State, ghost done: seq<Step>)
      requires Accepts(start, done) && Snapshot() == Exec(start, done)
      modifies this`baselineRows
      ensures Snapshot() == Exec(start, done + UpsertSteps(upserts) + DeleteSteps(deletes))
      ensures Accepts(start, done + UpsertSteps(upserts) + DeleteSteps(deletes))
    {
      assert done + UpsertSteps([]) == done;
      for i := 0 to |upserts|
        invariant Accepts(start, done + UpsertSteps(upserts[..i]))
        invariant Snapshot() == Exec(start, done + UpsertSteps(upserts[..i]))
      {
        assert done + UpsertSteps(upserts[..i + 1]) == (done + UpsertSteps(upserts[..i])) + [Upsert(upserts[i])];
        ExecSnoc(start, done + UpsertSteps(upserts[..i]), Upsert(upserts[i]));
        baselineRows := baselineRows + {upserts[i]};
      }
      assert upserts[..|upserts|] == upserts;
      ghost var before := done + UpsertSteps(upserts);
      assert before + [] == before;
      if |deletes| > 0 {
        ExecSnoc(start, before, DeleteMany(deletes));
        baselineRows := baselineRows - RowSet(deletes);
      }
    }

    /** The mappings that point at a refused group, read from the rows loaded at the start. */
    method RefusedIds(loaded: seq<Mapping>, groups: seq<Id>) returns (ids: seq<Id>)
      ensures ids == FlatMap(groups, RefusedMappings(loaded))
    {
      ids := [];
      for g := 0 to |groups|
        invariant ids == FlatMap(groups[..g], RefusedMappings(loaded))
      {
        assert groups[..g + 1] == groups[..g] + [groups[g]];
        FlatMapSnoc(groups[..g], groups[g], RefusedMappings(loaded));
        ids := ids + FlatMap(loaded, IdIfOfGroup(groups[g]));
      }
      assert groups[..|groups|] == groups;
    }

    /** The Discord calls, then the broken flags of refused groups. */
    method Push(ops: seq<ExternalOp>, outcomes: seq<Outcome>, loaded: seq<Mapping>,
                ghost start: State, ghost done: seq<Step>)
      requires |ops| == |outcomes|
      requires Accepts(start, done) && Snapshot() == Exec(start, done)
      modifies this`discord, this`connectionBroken, this`mappings
      ensures var after := done + ExtSteps(OutboundReport(ops, outcomes).appliedOps)
                           + Flags(FlatMap(OutboundReport(ops, outcomes).brokenGroupIds, RefusedMappings(loaded)));
              Accepts(start, after) && Snapshot() == Exec(start, after)
    {
      var result := ApplyOutbound(ops, outcomes);
      ExecAppend(start, done, ExtSteps(result.appliedOps));
      var ids := RefusedIds(loaded, result.brokenGroupIds);
      FlagBroken(ids, start, done + ExtSteps(result.appliedOps));
    }

    /** The whole apply phase. `ok` is false when a Patrice write threw and ended the run. */
    method ApplyReconcileResult(plan: Output, outcomes: seq<Outcome>)
      returns (totalGranted: nat, totalRevoked: nat, ok: bool)
      requires |outcomes| == |plan.externalOps|
      modifies this
      ensures var trace := Trace(old(mappings), plan, OutboundReport(plan.externalOps, outcomes));
              && Snapshot() == Exec(old(Snapshot()), trace)
              && (ok <==> Accepts(old(Snapshot()), trace))
      ensures ok ==> totalGranted == Grants(plan.paOps) && totalRevoked == |plan.paOps| - Grants(plan.paOps)
    {
      hide Exec, Accepts, OutboundReport;
      ghost var start := Snapshot();
      var loaded := mappings;
      ghost var report := OutboundReport(plan.externalOps, outcomes);
      ghost var flags := Flags(plan.brokenMappingIds);
      ghost var head := flags + PaSteps(plan.paOps);
      ghost var refused := Flags(FlatMap(report.brokenGroupIds, RefusedMappings(loaded)));
      ghost var tail := ExtSteps(report.appliedOps) + refused
        + UpsertSteps(plan.baselineUpserts) + DeleteSteps(plan.baselineDeletes);
      assert Trace(loaded, plan, report) == head + tail;
      assert [] + flags == flags;
      ExecNothing(start);
      FlagBroken(plan.brokenMappingIds, start, []);
      totalGranted, totalRevoked, ok := ApplyPaOps(plan.paOps, start, flags);
      if !ok {
        StuckHead(start, head, tail);
        return;
      }
      Push(plan.externalOps, outcomes, loaded, start, head);
      ghost var done := head + ExtSteps(report.appliedOps) + refused;
      WriteBaseline(plan.baselineUpserts, plan.baselineDeletes, start, done);
      assert done + UpsertSteps(plan.baselineUpserts) + DeleteSteps(plan.baselineDeletes) == head + tail;
    }

    /** The full sweep, given what the two fetches returned. */
    method Sync(links: seq<Link>, membership: map<Id, seq<Id>>, knownGroups: set<Id>,
                roleRows: map<Id, Lifecycle>, outcomes: seq<Outcome>)
      returns (granted: nat, revoked: nat, ok: bool)
      requires HeldIn(membership) == discord
      requires |outcomes| == |StatePlan(Snapshot(),
               World(links, Census(|membership| > 0, knownGroups, roleRows))).externalOps|
      modifies this
      ensures var w := World(links, Census(|membership| > 0, knownGroups, roleRows));
              && Snapshot() == Exec(old(Snapshot()), RunSteps(old(Snapshot()), w, outcomes))
              && (ok <==> Accepts(old(Snapshot()), RunSteps(old(Snapshot()), w, outcomes)))
              && (ok ==> var ops := StatePlan(old(Snapshot()), w).paOps;
                         granted == Grants(ops) && revoked == |ops| - Grants(ops))
    {
      hide Plan, StatePlan, Exec, Accepts, Trace, OutboundReport, LoadedBaseline, Filter;
      var linkedUserIds := set l | l in links :: l.userId;
      var mappedRoleIds := set m | m in mappings :: m.roleId;
      var existingRoles := map k | k in userRoles && k.0 in linkedUserIds && k.1 in mappedRoleIds :: userRoles[k];
      var baseline := LoadBaseline();
      var input := Input(
        Filter(mappings, NotBroken()), links, membership, knownGroups, existingRoles, roleRows, baseline);
      var plan := Reconcile(input);

      SweepInputPlan(Snapshot(), World(links, CensusOf(input)), input);
      granted, revoked, ok := ApplyReconcileResult(plan, outcomes);
    }

    /** The rows of bidirectional mappings, or nothing when no active mapping is bidirectional. */
    method LoadBaseline() returns (baseline: Option<set<(Id, Id)>>)
      ensures baseline == LoadedBaseline(Snapshot())
    {
      var ids := BidirectionalIds(mappings);
      if |ids| == 0 {
        return None;
      }
      baseline := Some(set r | r in baselineRows && r.mappingId in ids :: (r.externalUserId, r.groupId));
    }

    /** Plans for one linked user from that member's roles and that user's rows. */
    method PlanUser(link: Link, memberRoles: seq<Id>, roleRows: map<Id, Lifecycle>, ghost w: World)
      returns (plan: Output)
      requires forall g :: g in memberRoles <==> (link.externalUserId, g) in discord
      requires w.census.roleRows == roleRows
      ensures plan == UserPlan(Snapshot(), w, link)
    {
      hide Plan, UserPlan, Filter, HeldIn;
      var active := Filter(mappings, NotBroken());
      var membership := map[link.externalUserId := memberRoles];
      var mappedRoleIds := set m | m in mappings :: m.roleId;
      var existingRoles := map k | k in userRoles && k.0 == link.userId && k.1 in mappedRoleIds :: userRoles[k];
      var ids := BidirectionalIds(mappings);
      var baseline := None;
      if |ids| > 0 {
        baseline := Some(set r | r in baselineRows && r.mappingId in ids && r.externalUserId == link.externalUserId
          :: (r.externalUserId, r.groupId));
      }
      var knownGroups := set m | m in active :: m.groupId;
      var input := Input(active, [link], membership, knownGroups, existingRoles, roleRows, baseline);
      plan := Reconcile(input);

      UserInputPlan(Snapshot(), w, link, input);
    }

    /** The targeted reconcile of one linked user. */
    method SyncUser(link: Link, memberRoles: seq<Id>, roleRows: map<Id, Lifecycle>,
                    ghost w: World, outcomes: seq<Outcome>)
      returns (granted: nat, revoked: nat, ok: bool)
      requires forall g :: g in memberRoles <==> (link.externalUserId, g) in discord
      requires w.census.roleRows == roleRows
      requires |outcomes| == |UserPlan(Snapshot(), w, link).externalOps|
      modifies this
      ensures var plan := UserPlan(old(Snapshot()), w, link);
              var trace := Trace(old(mappings), plan, OutboundReport(plan.externalOps, outcomes));
              && Snapshot() == Exec(old(Snapshot()), trace)
              && (ok <==> Accepts(old(Snapshot()), trace))
    {
      var plan := PlanUser(link, memberRoles, roleRows, w);
      granted, revoked, ok := ApplyReconcileResult(plan, outcomes);
    }
  }

  lemma NoPaYet(start: State, done: seq<Step>, ops: seq<PaOp>)
    requires Accepts(start, done)
    ensures done + PaSteps(ops[..0]) == done && Grants(ops[..0]) == 0
  {
  }

  /** The next Patrice write: it is rejected and ends the run there, or it is made. */
  lemma OnePaOp(start: State, done: seq<Step>, ops: seq<PaOp>, i: nat)
    requires i < |ops| && Accepts(start, done + PaSteps(ops[..i]))
    ensures var s := Exec(start, done + PaSteps(ops[..i]));
            if Rejected(s, Pa(ops[i]))
            then Exec(start, done + PaSteps(ops)) == s && !Accepts(start, done + PaSteps(ops))
            else && Accepts(start, done + PaSteps(ops[..i + 1]))
                 && Exec(start, done + PaSteps(ops[..i + 1])) == Do(s, Pa(ops[i]))
    ensures Grants(ops[..i + 1]) == Grants(ops[..i]) + if ops[i].Grant? then 1 else 0
  {
    var before, rest := done + PaSteps(ops[..i]), PaSteps(ops[i..]);
    assert done + PaSteps(ops) == before + rest;
    assert done + PaSteps(ops[..i + 1]) == before + [Pa(ops[i])];
    assert Init(ops[..i + 1]) == ops[..i] && Last(ops[..i + 1]) == ops[i];
    hide Exec, Accepts, Do, Rejected;
    ExecSnoc(start, before, Pa(ops[i]));
    if Rejected(Exec(start, before), Pa(ops[i])) {
      ExecStuck(start, before, rest);
    }
  }

  lemma NothingSent(ops: seq<ExternalOp>, outcomes: seq<Outcome>, s: State)
    requires |ops| == |outcomes|
    ensures DeliveredOps(ops[..0], outcomes[..0]) == [] && RefusedGroups(ops[..0], outcomes[..0]) == []
    ensures Exec(s, ExtSteps([])) == s && Accepts(s, ExtSteps([]))
  {
  }

  /** What one call, answered, adds to the report. */
  lemma OneSent(ops: seq<ExternalOp>, outcomes: seq<Outcome>, i: nat)
    requires |ops| == |outcomes| && i < |ops| && i <= Reached(ops, outcomes)
    ensures outcomes[i] != Unauthorized ==>
              && i < Reached(ops, outcomes)
              && DeliveredOps(ops[..i + 1], outcomes[..i + 1]) ==
                   DeliveredOps(ops[..i], outcomes[..i]) + (if outcomes[i] == Delivered then [ops[i]] else [])
              && var refused := RefusedGroups(ops[..i], outcomes[..i]);
              RefusedGroups(ops[..i + 1], outcomes[..i + 1]) ==
                if (outcomes[i] == Forbidden || outcomes[i] == NotFound) && ops[i].groupId !in refused
                    then refused + [ops[i].groupId] else refused
    ensures outcomes[i] == Unauthorized ==>
              var applied := DeliveredOps(ops[..i], outcomes[..i]);
              OutboundReport(ops, outcomes) ==
                ApplyResult(applied, |ops| - |applied|, RefusedGroups(ops[..i], outcomes[..i]), true)
  {
    var a, b := ops[..i + 1], outcomes[..i + 1];
    assert Init(a) == ops[..i] && Init(b) == outcomes[..i] && Last(a) == ops[i] && Last(b) == outcomes[i];
    hide DeliveredOps, RefusedGroups, Reached;
    assert outcomes[i] == Unauthorized ==> Reached(ops, outcomes) == i;
    SentSplits(a, b);
  }

  lemma SentSplits(a: seq<ExternalOp>, b: seq<Outcome>)
    requires |a| == |b| && a != []
    ensures DeliveredOps(a, b) == DeliveredOps(Init(a), Init(b)) + if Last(b) == Delivered then [Last(a)] else []
    ensures var refused := RefusedGroups(Init(a), Init(b));
            RefusedGroups(a, b) == if Permanent(Last(b)) && Last(a).groupId !in refused
                then refused + [Last(a).groupId] else refused
  {
  }

  lemma AllSent(ops: seq<ExternalOp>, outcomes: seq<Outcome>)
    requires |ops| == |outcomes| && |ops| <= Reached(ops, outcomes)
    ensures var applied := DeliveredOps(ops[..|ops|], outcomes[..|ops|]);
            OutboundReport(ops, outcomes) ==
              ApplyResult(applied, |ops| - |applied|, RefusedGroups(ops[..|ops|], outcomes[..|ops|]), false)
  {
    hide DeliveredOps, RefusedGroups, Reached;
  }

  /** A delivered call is one more step of the run. */
  lemma SentStep(s: State, applied: seq<ExternalOp>, op: ExternalOp)
    requires Accepts(s, ExtSteps(applied))
    ensures Accepts(s, ExtSteps(applied + [op]))
    ensures var t := Exec(s, ExtSteps(applied));
            Exec(s, ExtSteps(applied + [op]))
                == t.(held := if op.add then t.held + {TargetOf(op)} else t.held - {TargetOf(op)})
  {
    assert ExtSteps(applied + [op]) == ExtSteps(applied) + [Ext(op)];
    ExecSnoc(s, ExtSteps(applied), Ext(op));
    hide Exec, Accepts, ExtSteps;
  }

  lemma ExecNothing(s: State)
    ensures Exec(s, []) == s && Accepts(s, [])
  {
  }

  lemma StuckHead(s: State, head: seq<Step>, tail: seq<Step>)
    requires !Accepts(s, head)
    ensures Exec(s, head + tail) == Exec(s, head) && !Accepts(s, head + tail)
    decreases |head|
  {
    assert (head + tail)[0] == head[0] && (head + tail)[1..] == head[1..] + tail;
    if !Rejected(s, head[0]) {
      StuckHead(Do(s, head[0]), head[1..], tail);
    }
  }

  /** The batch-loaded input of a sweep yields the plan of the state. */
  lemma SweepInputPlan(s: State, w: World, i: Input)
    requires i.mappings == Filter(s.mappings, NotBroken()) && i.links == w.links && CensusOf(i) == w.census
    requires HeldIn(i.membership) == s.held && i.baseline == LoadedBaseline(s)
    requires i.existingRoles ==
             map k | k in s.roles && k.0 in (set l | l in w.links :: l.userId)
                     && k.1 in (set m | m in s.mappings :: m.roleId) :: s.roles[k]
    ensures Plan(i) == StatePlan(s, w)
  {
    hide Decide;
    var es := LiveEdges(s, w);
    FilteredMappings(s.mappings, w.links, w.census);
    forall e | e in es ensures Lookup(i.existingRoles, RoleKey(e)) == Lookup(s.roles, RoleKey(e)) {
      EdgesAreLive(s.mappings, w.links, w.census, e);
    }
    SamePlan(es, StateView(s), i.existingRoles, FlatMap(s.mappings, BrokenIn(w.census)));
  }

  /** The input narrowed to one user yields the user's plan. */
  lemma UserInputPlan(s: State, w: World, l: Link, i: Input)
    requires i.mappings == Filter(s.mappings, NotBroken()) && i.links == [l]
    requires i.membership.Keys == {l.externalUserId}
    requires forall g :: g in i.membership[l.externalUserId] <==> (l.externalUserId, g) in s.held
    requires i.knownGroups == set m | m in i.mappings :: m.groupId
    requires i.roleRows == w.census.roleRows && i.baseline == UserView(s, l).baseline
    requires i.existingRoles ==
             map k | k in s.roles && k.0 == l.userId && k.1 in (set m | m in s.mappings :: m.roleId) :: s.roles[k]
    ensures Plan(i) == UserPlan(s, w, l)
  {
    hide Decide;
    var uw, v := UserWorld(s, w, l), UserView(s, l);
    var es := LiveEdges(s, uw);
    ActiveGroups(s, w);
    assert |i.membership| > 0 by {
      assert |i.membership.Keys| == 1;
    }
    FilteredMappings(s.mappings, [l], uw.census);
    assert HeldIn(i.membership) == v.held;
    assert ViewOf(i) == v.(roles := i.existingRoles);
    forall e | e in es ensures Lookup(i.existingRoles, RoleKey(e)) == Lookup(v.roles, RoleKey(e)) {
      EdgesAreLive(s.mappings, [l], uw.census, e);
    }
    SamePlan(es, v, i.existingRoles, FlatMap(s.mappings, BrokenIn(uw.census)));
  }

  lemma ActiveGroups(s: State, w: World)
    ensures (set m | m in Filter(s.mappings, NotBroken()) :: m.groupId) == UserCensus(s, w).knownGroups
  {
    forall m ensures m in Filter(s.mappings, NotBroken()) <==> m in s.mappings && !m.isBroken {
      FilterMember(s.mappings, NotBroken(), m);
    }
  }
}
