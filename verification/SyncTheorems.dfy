/** What runs of the sync achieve, whatever the starting state and wherever a run stops. */
module SyncTheorems {
  import opened Common
  import opened Reconciler
  import opened SyncRun

  /* ---------- Assumptions about the configuration ---------- */

  ghost predicate DistinctIds(ms: seq<Mapping>) {
    forall i, j :: 0 <= i < j < |ms| ==> ms[i].id != ms[j].id
  }

  /** No two active mappings share a role or a group. */
  ghost predicate DistinctMappings(ms: seq<Mapping>) {
    && DistinctIds(ms)
    && forall i, j :: 0 <= i < j < |ms| && !ms[i].isBroken && !ms[j].isBroken ==>
         ms[i].roleId != ms[j].roleId && ms[i].groupId != ms[j].groupId
  }

  /** Links are one-to-one: the unique indexes of `external_identity`. */
  ghost predicate DistinctLinks(links: seq<Link>) {
    forall i, j :: 0 <= i < j < |links| ==>
      links[i].userId != links[j].userId && links[i].externalUserId != links[j].externalUserId
  }

  ghost predicate Sound(s: State, w: World) {
    DistinctMappings(s.mappings) && DistinctLinks(w.links)
  }

  /* ---------- Edges do not interfere ---------- */

  predicate Apart(a: Edge, b: Edge) {
    RoleKey(a) != RoleKey(b) && HeldKey(a) != HeldKey(b) && RowOf(a) != RowOf(b)
  }

  ghost predicate PairwiseApart(es: seq<Edge>) {
    forall i, j :: 0 <= i < j < |es| ==> Apart(es[i], es[j])
  }

  lemma {:induction false} EdgesAreLive(ms: seq<Mapping>, links: seq<Link>, c: Census, e: Edge)
    ensures e in Edges(ms, links, c) <==> e.mapping in ms && Live(e.mapping, c) && e.link in links
  {
    FlatMapMember(ms, EdgesIn(links, c), e);
    if e.mapping in ms && Live(e.mapping, c) && e.link in links {
      var i :| 0 <= i < |ms| && ms[i] == e.mapping;
      var j :| 0 <= j < |links| && links[j] == e.link;
      assert EdgesOfMapping(ms[i], links)[j] == e;
    }
  }

  lemma {:induction false} EdgesApart(ms: seq<Mapping>, links: seq<Link>, c: Census)
    requires DistinctMappings(ms) && DistinctLinks(links)
    ensures PairwiseApart(Edges(ms, links, c))
  {
    if ms != [] {
      var before := Edges(Init(ms), links, c);
      EdgesApart(Init(ms), links, c);
      if Live(Last(ms), c) {
        var row := EdgesOfMapping(Last(ms), links);
        forall i, j | 0 <= i < |before| && 0 <= j < |row| ensures Apart(before[i], row[j]) {
          EdgesAreLive(Init(ms), links, c, before[i]);
        }
        assert Edges(ms, links, c) == before + row;
      }
    }
  }

  /* ---------- Executing sequences of steps ---------- */

  lemma {:induction false} ExecAppend(s: State, a: seq<Step>, b: seq<Step>)
    requires Accepts(s, a)
    ensures Exec(s, a + b) == Exec(Exec(s, a), b)
    ensures Accepts(s, a + b) <==> Accepts(Exec(s, a), b)
    decreases |a|
  {
    if a == [] {
      assert a + b == b;
    } else {
      assert (a + b)[1..] == a[1..] + b;
      ExecAppend(Do(s, a[0]), a[1..], b);
    }
  }

  // Keys that a list of operations or edges does not touch.
  predicate NoPa(ops: seq<PaOp>, k: (Id, Id)) { forall op <- ops :: KeyOf(op) != k }
  predicate NoExt(ops: seq<ExternalOp>, k: (Id, Id)) { forall op <- ops :: TargetOf(op) != k }
  predicate NoRole(es: seq<Edge>, k: (Id, Id)) { forall e <- es :: RoleKey(e) != k }
  predicate NoHeld(es: seq<Edge>, k: (Id, Id)) { forall e <- es :: HeldKey(e) != k }
  predicate NoRow(es: seq<Edge>, r: BaselineRow) { forall e <- es :: RowOf(e) != r }

  /** What a Patrice operation leaves under its key. */
  function ValueAfter(op: PaOp): Option<Source> {
    if op.Grant? then Some(Integration) else None
  }

  ghost predicate DistinctPaOps(ops: seq<PaOp>) {
    forall i, j :: 0 <= i < j < |ops| ==> KeyOf(ops[i]) != KeyOf(ops[j])
  }

  predicate Fits(op: PaOp, roles: map<(Id, Id), Source>) { op.Grant? <==> KeyOf(op) !in roles }

  /** Distinct operations that fit the rows are all accepted, and each decides its own key. */
  lemma {:induction false} PaPhase(s: State, ops: seq<PaOp>)
    requires DistinctPaOps(ops) && forall op <- ops :: Fits(op, s.roles)
    ensures Accepts(s, PaSteps(ops))
    ensures var t := Exec(s, PaSteps(ops));
            && t == s.(roles := t.roles)
            && PaEffect(s.roles, t.roles, ops)
    decreases |ops|
  {
    if ops != [] {
      var next := Do(s, Pa(ops[0]));
      assert ops[0] in ops;
      assert PaSteps(ops)[1..] == PaSteps(ops[1..]);
      forall op | op in ops[1..] ensures Fits(op, next.roles) {
        var j :| 0 <= j < |ops[1..]| && ops[1..][j] == op;
        assert op == ops[j + 1] && KeyOf(ops[0]) != KeyOf(op) && Fits(op, s.roles);
      }
      PaPhase(next, ops[1..]);
      var t := Exec(next, PaSteps(ops[1..]));
      assert t == Exec(s, PaSteps(ops));
      assert Lookup(t.roles, KeyOf(ops[0])) == Lookup(next.roles, KeyOf(ops[0]));
      forall k | NoPa(ops, k) ensures Lookup(t.roles, k) == Lookup(s.roles, k) {
        assert KeyOf(ops[0]) != k && NoPa(ops[1..], k);
      }
      assert NoPa(ops[1..], KeyOf(ops[0])) by {
        forall op | op in ops[1..] ensures KeyOf(op) != KeyOf(ops[0]) {
          var j :| 0 <= j < |ops[1..]| && ops[1..][j] == op;
          assert op == ops[j + 1];
        }
      }
    }
  }

  ghost predicate ConsistentExtOps(ops: seq<ExternalOp>) {
    forall a, b :: a in ops && b in ops && TargetOf(a) == TargetOf(b) ==> a == b
  }

  /** Discord calls that do not contradict each other: each decides its own membership. */
  lemma {:induction false} ExtPhase(s: State, ops: seq<ExternalOp>)
    requires ConsistentExtOps(ops)
    ensures Accepts(s, ExtSteps(ops))
    ensures var t := Exec(s, ExtSteps(ops));
            && t == s.(held := t.held)
            && ExtEffect(s.held, t.held, ops)
    decreases |ops|
  {
    if ops != [] {
      var next := Do(s, Ext(ops[0]));
      assert ExtSteps(ops)[1..] == ExtSteps(ops[1..]);
      ExtPhase(next, ops[1..]);
      var t := Exec(next, ExtSteps(ops[1..]));
      assert t == Exec(s, ExtSteps(ops));
      forall k | NoExt(ops, k) ensures k in t.held <==> k in s.held {
        assert TargetOf(ops[0]) != k && NoExt(ops[1..], k);
      }
      forall op | op in ops ensures TargetOf(op) in t.held <==> op.add {
        if op !in ops[1..] {
          assert op == ops[0];
          assert NoExt(ops[1..], TargetOf(op));
        }
      }
    }
  }

  lemma {:induction false} UpsertPhase(s: State, rows: seq<BaselineRow>)
    ensures Accepts(s, UpsertSteps(rows))
    ensures Exec(s, UpsertSteps(rows)) == s.(baseline := s.baseline + RowSet(rows))
    decreases |rows|
  {
    if rows != [] {
      assert UpsertSteps(rows)[1..] == UpsertSteps(rows[1..]);
      UpsertPhase(Do(s, Upsert(rows[0])), rows[1..]);
      assert RowSet(rows) == {rows[0]} + RowSet(rows[1..]);
    }
  }

  lemma {:induction false} FlagPhase(s: State, ids: seq<Id>)
    ensures Accepts(s, Flags(ids))
    ensures var t := Exec(s, Flags(ids));
            && t == s.(mappings := t.mappings)
            && |t.mappings| == |s.mappings|
            && forall i :: 0 <= i < |s.mappings| ==>
                 t.mappings[i] == if s.mappings[i].id in ids then s.mappings[i].(isBroken := true) else s.mappings[i]
    decreases |ids|
  {
    if ids != [] {
      assert Flags(ids)[1..] == Flags(ids[1..]);
      FlagPhase(Do(s, Flag(ids[0])), ids[1..]);
    }
  }

  /* ---------- What one run does to one edge ---------- */

  function PatriceNext(v: Verdict, patrice: Option<Source>): Option<Source> {
    match v
    case GrantPatrice => Some(Integration)
    case RevokePatrice => None
    case _ => patrice
  }

  function ExternalNext(v: Verdict, external: bool): bool {
    match v
    case AddExternal => true
    case RemoveExternal => false
    case _ => external
  }

  function NextPatrice(e: Edge, v: View): Option<Source> {
    PatriceNext(VerdictOf(e, v), Lookup(v.roles, RoleKey(e)))
  }

  function NextExternal(e: Edge, v: View): bool {
    ExternalNext(VerdictOf(e, v), HeldKey(e) in v.held)
  }

  /** Each verdict is only reached from the side it changes. */
  lemma VerdictFits(m: Mapping, external: bool, patrice: Option<Source>, was: Option<bool>)
    ensures var v := Decide(m, external, patrice, was);
            && (v == GrantPatrice ==> external && patrice.None?)
            && (v == RevokePatrice ==> !external && patrice == Some(Integration))
            && (v == AddExternal ==> !external && patrice.Some?)
            && (v == RemoveExternal ==> external && patrice.None?)
  {
    assert patrice.Some? ==> patrice.value.Native? || patrice.value.Integration?;
  }

  ghost predicate PaFrom(es: seq<Edge>, v: View, ops: seq<PaOp>) {
    forall op <- ops :: exists e :: e in es && PaOpOf(e, v) == [op]
  }

  ghost predicate ExtFrom(es: seq<Edge>, v: View, ops: seq<ExternalOp>) {
    forall op <- ops :: exists e :: e in es && ExternalOpOf(e, v) == [op]
  }

  /** An edge asks for at most one operation on each side, on its own keys, and one that fits the rows. */
  lemma OpsOfEdge(e: Edge, v: View)
    ensures PaOpOf(e, v) != [] ==>
              |PaOpOf(e, v)| == 1 && KeyOf(PaOpOf(e, v)[0]) == RoleKey(e) && Fits(PaOpOf(e, v)[0], v.roles)
    ensures ExternalOpOf(e, v) != [] ==> |ExternalOpOf(e, v)| == 1 && TargetOf(ExternalOpOf(e, v)[0]) == HeldKey(e)
  {
  }

  lemma PaOpsComeFrom(es: seq<Edge>, v: View)
    ensures var ops := FlatMap(es, PaOpsIn(v)); PaFrom(es, v, ops) && forall op <- ops :: Fits(op, v.roles)
  {
  }

  lemma {:induction false} PaOpsDistinct(es: seq<Edge>, v: View)
    requires PairwiseApart(es)
    ensures DistinctPaOps(FlatMap(es, PaOpsIn(v)))
  {
    if es != [] {
      var e := Last(es);
      PaOpsDistinct(Init(es), v);
      PaOpsComeFrom(Init(es), v);
      OpsOfEdge(e, v);
      var before := FlatMap(Init(es), PaOpsIn(v));
      assert FlatMap(es, PaOpsIn(v)) == before + PaOpOf(e, v);
      hide PaOpOf, Fits, FlatMap;
      forall op | op in before ensures KeyOf(op) != RoleKey(e) {
        var d :| d in Init(es) && PaOpOf(d, v) == [op];
        OpsOfEdge(d, v);
        assert Apart(d, e);
      }
    }
  }

  lemma PaOpsOfEdges(es: seq<Edge>, v: View)
    requires PairwiseApart(es)
    ensures var ops := FlatMap(es, PaOpsIn(v));
            && DistinctPaOps(ops)
            && (forall op <- ops :: Fits(op, v.roles))
            && PaFrom(es, v, ops)
  {
    PaOpsComeFrom(es, v);
    PaOpsDistinct(es, v);
  }

  lemma ExtOpsOfEdges(es: seq<Edge>, v: View)
    requires PairwiseApart(es)
    ensures var ops := FlatMap(es, ExternalOpsIn(v));
            && ConsistentExtOps(ops)
            && ExtFrom(es, v, ops)
  {
    var ops := FlatMap(es, ExternalOpsIn(v));
    hide FlatMap, PairwiseApart, ExternalOpOf;
    forall op | op in ops ensures exists e :: e in es && ExternalOpOf(e, v) == [op] {
      FlatMapMember(es, ExternalOpsIn(v), op);
      var i :| 0 <= i < |es| && op in ExternalOpOf(es[i], v);
      OpsOfEdge(es[i], v);
      assert es[i] in es && ExternalOpOf(es[i], v) == [op];
    }
    forall a, b | a in ops && b in ops && TargetOf(a) == TargetOf(b) ensures a == b {
      var d :| d in es && ExternalOpOf(d, v) == [a];
      var e :| e in es && ExternalOpOf(e, v) == [b];
      OpsOfEdge(d, v);
      OpsOfEdge(e, v);
      SameEdge(es, d, e);
    }
  }

  /* ---------- What a run, whole or cut short, leaves behind ---------- */

  ghost predicate FlaggedWithin(ms: seq<Mapping>, ms': seq<Mapping>, c: Census) {
    && |ms'| == |ms|
    && forall i :: 0 <= i < |ms| ==>
         ms'[i] == ms[i] || (GroupGone(ms[i], c) && ms'[i] == ms[i].(isBroken := true))
  }

  /** Nothing outside the run's own edges changed. */
  ghost predicate Framed(s: State, t: State, w: World) {
    && FlaggedWithin(s.mappings, t.mappings, w.census)
    && (forall k :: NoRole(LiveEdges(s, w), k) ==> Lookup(t.roles, k) == Lookup(s.roles, k))
    && (forall k :: NoHeld(LiveEdges(s, w), k) ==> (k in t.held <==> k in s.held))
    && (forall r :: NoRow(LiveEdges(s, w), r) ==> (r in t.baseline <==> r in s.baseline))
  }

  ghost predicate PatriceDone(s: State, t: State, e: Edge) {
    Lookup(t.roles, RoleKey(e)) == NextPatrice(e, StateView(s))
  }

  ghost predicate ExternalDone(s: State, t: State, e: Edge) {
    (HeldKey(e) in t.held) == NextExternal(e, StateView(s))
  }

  /** The baseline row of an edge records the Discord bit observed before the run. */
  ghost predicate BaselineDone(s: State, t: State, e: Edge) {
    RowOf(e) in t.baseline <==> HeldKey(e) in s.held
  }

  /** Some of the plan's effects are in, in an order that puts every Patrice write first. */
  ghost predicate Partway(s: State, t: State, w: World) {
    && Framed(s, t, w)
    && ((forall e <- LiveEdges(s, w) :: PatriceDone(s, t, e)) || (t.held == s.held && t.baseline == s.baseline))
    && forall e <- LiveEdges(s, w) ::
         && (PatriceDone(s, t, e) || Lookup(t.roles, RoleKey(e)) == Lookup(s.roles, RoleKey(e)))
         && (ExternalDone(s, t, e) || (HeldKey(e) in t.held <==> HeldKey(e) in s.held))
         && (BaselineDone(s, t, e) || (RowOf(e) in t.baseline <==> RowOf(e) in s.baseline))
  }

  /** Every effect of the plan is in. */
  ghost predicate Applied(s: State, t: State, w: World) {
    && Framed(s, t, w)
    && forall e <- LiveEdges(s, w) :: PatriceDone(s, t, e) && ExternalDone(s, t, e) && BaselineDone(s, t, e)
  }

  /** The writes of one apply phase up to some point, named part by part. */
  datatype Progress = Progress(
    flags: seq<Id>, pa: seq<PaOp>, ext: seq<ExternalOp>, upserts: seq<BaselineRow>, deletes: seq<BaselineRow>)

  function StepsOf(p: Progress): seq<Step> {
    Flags(p.flags) + (PaSteps(p.pa) + (ExtSteps(p.ext) + (UpsertSteps(p.upserts) + DeleteSteps(p.deletes))))
  }

  /** Progress that the plan of `s` allows, in the order the code makes its writes. */
  ghost predicate Allowed(s: State, w: World, p: Progress) {
    var plan := StatePlan(s, w);
    && (forall id <- p.flags :: id in plan.brokenMappingIds)
    && p.pa <= plan.paOps
    && (forall op <- p.ext :: op in plan.externalOps)
    && p.upserts <= plan.baselineUpserts
    && p.deletes <= plan.baselineDeletes
    && (p.pa == plan.paOps || (p.ext == [] && p.upserts == [] && p.deletes == []))
  }

  /** The effect of a progress, side by side. */
  ghost predicate Effect(s: State, t: State, p: Progress) {
    && |t.mappings| == |s.mappings|
    && (forall i :: 0 <= i < |s.mappings| ==>
          t.mappings[i] == if s.mappings[i].id in p.flags then s.mappings[i].(isBroken := true) else s.mappings[i])
    && PaEffect(s.roles, t.roles, p.pa)
    && ExtEffect(s.held, t.held, p.ext)
    && t.baseline == s.baseline + RowSet(p.upserts) - RowSet(p.deletes)
  }

  ghost predicate PaEffect(before: map<(Id, Id), Source>, after: map<(Id, Id), Source>, ops: seq<PaOp>) {
    && (forall op <- ops :: Lookup(after, KeyOf(op)) == ValueAfter(op))
    && forall k :: NoPa(ops, k) ==> Lookup(after, k) == Lookup(before, k)
  }

  ghost predicate ExtEffect(before: set<(Id, Id)>, after: set<(Id, Id)>, ops: seq<ExternalOp>) {
    && (forall op <- ops :: TargetOf(op) in after <==> op.add)
    && forall k :: NoExt(ops, k) ==> (k in after <==> k in before)
  }

  lemma ProgressEffect(s: State, p: Progress) returns (t: State)
    requires DistinctPaOps(p.pa) && ConsistentExtOps(p.ext)
    requires forall op <- p.pa :: Fits(op, s.roles)
    ensures t == Exec(s, StepsOf(p)) && Accepts(s, StepsOf(p))
    ensures Effect(s, t, p)
  {
    var a, b, c, d := Flags(p.flags), PaSteps(p.pa), ExtSteps(p.ext), UpsertSteps(p.upserts);
    FlagPhase(s, p.flags);
    var s1 := Exec(s, a);
    PaPhase(s1, p.pa);
    var s2 := Exec(s1, b);
    ExtPhase(s2, p.ext);
    var s3 := Exec(s2, c);
    UpsertPhase(s3, p.upserts);
    var s4 := Exec(s3, d);
    t := s4.(baseline := s4.baseline - RowSet(p.deletes));
    DeletePhase(s4, p.deletes);
    ExecAppend(s3, d, DeleteSteps(p.deletes));
    ExecAppend(s2, c, d + DeleteSteps(p.deletes));
    ExecAppend(s1, b, c + (d + DeleteSteps(p.deletes)));
    ExecAppend(s, a, b + (c + (d + DeleteSteps(p.deletes))));
  }

  lemma DeletePhase(s: State, rows: seq<BaselineRow>)
    ensures Accepts(s, DeleteSteps(rows))
    ensures Exec(s, DeleteSteps(rows)) == s.(baseline := s.baseline - RowSet(rows))
  {
  }

  /** What an allowed progress inherits from the plan. */
  lemma AllowedOps(s: State, w: World, p: Progress)
    requires Sound(s, w) && Allowed(s, w, p)
    ensures PairwiseApart(LiveEdges(s, w))
    ensures DistinctPaOps(p.pa) && ConsistentExtOps(p.ext)
    ensures forall op <- p.pa :: Fits(op, s.roles)
    ensures PaFrom(LiveEdges(s, w), StateView(s), p.pa)
    ensures ExtFrom(LiveEdges(s, w), StateView(s), p.ext)
  {
    EdgesApart(s.mappings, w.links, w.census);
    PaOpsOfEdges(LiveEdges(s, w), StateView(s));
    ExtOpsOfEdges(LiveEdges(s, w), StateView(s));
    forall op | op in p.pa ensures op in StatePlan(s, w).paOps {
      var i :| 0 <= i < |p.pa| && p.pa[i] == op;
      assert StatePlan(s, w).paOps[i] == op;
    }
  }

  /** An edge is recovered from any of its three keys. */
  lemma SameEdge(es: seq<Edge>, d: Edge, e: Edge)
    requires PairwiseApart(es) && d in es && e in es
    ensures RoleKey(d) == RoleKey(e) || HeldKey(d) == HeldKey(e) || RowOf(d) == RowOf(e) ==> d == e
  {
  }

  /** The operation an edge asks for is in the plan, under the edge's own key. */
  lemma PlannedPaOp(es: seq<Edge>, v: View, e: Edge)
    requires e in es
    ensures PaOpOf(e, v) != [] ==> PaOpOf(e, v)[0] in FlatMap(es, PaOpsIn(v)) && KeyOf(PaOpOf(e, v)[0]) == RoleKey(e)
  {
  }

  lemma PlannedExternalOp(es: seq<Edge>, v: View, e: Edge)
    requires e in es
    ensures ExternalOpOf(e, v) != [] ==>
              && ExternalOpOf(e, v)[0] in FlatMap(es, ExternalOpsIn(v))
              && TargetOf(ExternalOpOf(e, v)[0]) == HeldKey(e)
  {
  }

  lemma PatricePart(es: seq<Edge>, v: View, ops: seq<PaOp>, after: map<(Id, Id), Source>, e: Edge)
    requires PairwiseApart(es) && e in es
    requires PaFrom(es, v, ops) && PaEffect(v.roles, after, ops)
    ensures Lookup(after, RoleKey(e)) == NextPatrice(e, v) || Lookup(after, RoleKey(e)) == Lookup(v.roles, RoleKey(e))
    ensures ops == FlatMap(es, PaOpsIn(v)) ==> Lookup(after, RoleKey(e)) == NextPatrice(e, v)
  {
    PlannedPaOp(es, v, e);
    ValueOfPaOp(e, v);
    hide Decide, VerdictOf, PaOpOf, NextPatrice, PairwiseApart, FlatMap;
    if op :| op in ops && KeyOf(op) == RoleKey(e) {
      var d :| d in es && PaOpOf(d, v) == [op];
      OpsOfEdge(d, v);
      SameEdge(es, d, e);
    } else {
      assert NoPa(ops, RoleKey(e));
    }
  }

  /** The operation an edge asks for leaves what the verdict calls for. */
  lemma ValueOfPaOp(e: Edge, v: View)
    ensures PaOpOf(e, v) != [] ==> ValueAfter(PaOpOf(e, v)[0]) == NextPatrice(e, v)
    ensures PaOpOf(e, v) == [] ==> NextPatrice(e, v) == Lookup(v.roles, RoleKey(e))
  {
  }

  lemma ExternalPart(es: seq<Edge>, v: View, ops: seq<ExternalOp>, after: set<(Id, Id)>, e: Edge)
    requires PairwiseApart(es) && e in es
    requires ExtFrom(es, v, ops) && ExtEffect(v.held, after, ops)
    ensures (HeldKey(e) in after) == NextExternal(e, v) || (HeldKey(e) in after) == (HeldKey(e) in v.held)
    ensures ops == FlatMap(es, ExternalOpsIn(v)) ==> (HeldKey(e) in after) == NextExternal(e, v)
  {
    PlannedExternalOp(es, v, e);
    if op :| op in ops && TargetOf(op) == HeldKey(e) {
      var d :| d in es && ExternalOpOf(d, v) == [op];
      SameEdge(es, d, e);
    } else {
      assert NoExt(ops, HeldKey(e));
    }
  }

  /** The baseline rows a plan writes are the rows of its edges, split by the observed bit. */
  lemma RowsOfPlan(s: State, w: World, r: BaselineRow)
    ensures r in StatePlan(s, w).baselineUpserts <==>
            exists e :: e in LiveEdges(s, w) && RowOf(e) == r && HeldKey(e) in s.held
    ensures r in StatePlan(s, w).baselineDeletes <==>
            exists e :: e in LiveEdges(s, w) && RowOf(e) == r && HeldKey(e) !in s.held
  {
    UpsertsOfEdges(LiveEdges(s, w), StateView(s), r);
    DeletesOfEdges(LiveEdges(s, w), StateView(s), r);
    hide FlatMap, LiveEdges;
  }

  lemma UpsertsOfEdges(es: seq<Edge>, v: View, r: BaselineRow)
    ensures r in FlatMap(es, UpsertsIn(v)) <==> exists e :: e in es && RowOf(e) == r && HeldKey(e) in v.held
  {
    FlatMapMember(es, UpsertsIn(v), r);
    hide FlatMap;
    if e :| e in es && RowOf(e) == r && HeldKey(e) in v.held {
      var i :| 0 <= i < |es| && es[i] == e;
      assert r in UpsertsIn(v)(es[i]);
    }
  }

  lemma DeletesOfEdges(es: seq<Edge>, v: View, r: BaselineRow)
    ensures r in FlatMap(es, DeletesIn(v)) <==> exists e :: e in es && RowOf(e) == r && HeldKey(e) !in v.held
  {
    FlatMapMember(es, DeletesIn(v), r);
    hide FlatMap;
    if e :| e in es && RowOf(e) == r && HeldKey(e) !in v.held {
      var i :| 0 <= i < |es| && es[i] == e;
      assert r in DeletesIn(v)(es[i]);
    }
  }

  lemma BaselinePart(s: State, w: World, p: Progress, t: State, e: Edge)
    requires DistinctMappings(s.mappings) && DistinctLinks(w.links)
    requires Allowed(s, w, p) && e in LiveEdges(s, w)
    requires t.baseline == s.baseline + RowSet(p.upserts) - RowSet(p.deletes)
    ensures BaselineDone(s, t, e) || (RowOf(e) in t.baseline <==> RowOf(e) in s.baseline)
    ensures p.upserts == StatePlan(s, w).baselineUpserts && p.deletes == StatePlan(s, w).baselineDeletes
            ==> BaselineDone(s, t, e)
  {
    var es, r := LiveEdges(s, w), RowOf(e);
    EdgesApart(s.mappings, w.links, w.census);
    RowsOfPlan(s, w, r);
    if r in StatePlan(s, w).baselineUpserts {
      var d :| d in es && RowOf(d) == r && HeldKey(d) in s.held;
      SameEdge(es, d, e);
    }
    if r in StatePlan(s, w).baselineDeletes {
      var d :| d in es && RowOf(d) == r && HeldKey(d) !in s.held;
      SameEdge(es, d, e);
    }
  }

  lemma FlagsPart(s: State, w: World, p: Progress, t: State)
    requires DistinctIds(s.mappings) && Allowed(s, w, p) && Effect(s, t, p)
    ensures FlaggedWithin(s.mappings, t.mappings, w.census)
  {
    forall i | 0 <= i < |s.mappings| && s.mappings[i].id in p.flags
      ensures GroupGone(s.mappings[i], w.census)
    {
      FlatMapMember(s.mappings, BrokenIn(w.census), s.mappings[i].id);
      var j :| 0 <= j < |s.mappings| && s.mappings[i].id in BrokenIn(w.census)(s.mappings[j]);
      assert i == j;
    }
  }

  /** Flagging all the broken ids of a plan leaves no active mapping whose group is gone. */
  lemma FlagsOfPlan(ms: seq<Mapping>, ms': seq<Mapping>, c: Census)
    requires DistinctIds(ms) && |ms'| == |ms|
    requires var ids := FlatMap(ms, BrokenIn(c));
             forall i :: 0 <= i < |ms| ==> ms'[i] == if ms[i].id in ids then ms[i].(isBroken := true) else ms[i]
    ensures FlaggedWithin(ms, ms', c)
    ensures forall m <- ms' :: m.isBroken || !GroupGone(m, c)
  {
    forall i | 0 <= i < |ms|
      ensures ms[i].id in FlatMap(ms, BrokenIn(c)) <==> !ms[i].isBroken && GroupGone(ms[i], c)
    {
      FlatMapMember(ms, BrokenIn(c), ms[i].id);
      if j :| 0 <= j < |ms| && ms[i].id in BrokenIn(c)(ms[j]) {
        assert i == j;
      }
      assert !ms[i].isBroken && GroupGone(ms[i], c) ==> ms[i].id in BrokenIn(c)(ms[i]);
    }
  }

  lemma FrameKeys(es: seq<Edge>, v: View, pa: seq<PaOp>, ext: seq<ExternalOp>, k: (Id, Id))
    requires PaFrom(es, v, pa) && ExtFrom(es, v, ext)
    ensures NoRole(es, k) ==> NoPa(pa, k)
    ensures NoHeld(es, k) ==> NoExt(ext, k)
  {
  }

  lemma FramePart(s: State, w: World, p: Progress, t: State)
    requires DistinctIds(s.mappings)
    requires Allowed(s, w, p) && Effect(s, t, p)
    requires PaFrom(LiveEdges(s, w), StateView(s), p.pa)
    requires ExtFrom(LiveEdges(s, w), StateView(s), p.ext)
    ensures Framed(s, t, w)
  {
    var es, v := LiveEdges(s, w), StateView(s);
    FlagsPart(s, w, p, t);
    forall k ensures NoRole(es, k) ==> NoPa(p.pa, k) ensures NoHeld(es, k) ==> NoExt(p.ext, k) {
      FrameKeys(es, v, p.pa, p.ext, k);
    }
    forall r | NoRow(es, r) ensures r in t.baseline <==> r in s.baseline {
      RowsOfPlan(s, w, r);
    }
  }

  ghost predicate Complete(s: State, w: World, p: Progress) {
    var plan := StatePlan(s, w);
    p == Progress(p.flags, plan.paOps, plan.externalOps, plan.baselineUpserts, plan.baselineDeletes)
  }

  /** Any allowed progress leaves the state partway; the whole trace applies the plan. */
  lemma ProgressPartway(s: State, w: World, p: Progress) returns (t: State)
    requires Sound(s, w) && Allowed(s, w, p)
    ensures t == Exec(s, StepsOf(p)) && Accepts(s, StepsOf(p))
    ensures Partway(s, t, w)
    ensures Complete(s, w, p) ==> Applied(s, t, w)
  {
    var es, v := LiveEdges(s, w), StateView(s);
    AllowedOps(s, w, p);
    t := ProgressEffect(s, p);
    FramePart(s, w, p, t);
    forall e | e in es
      ensures PatriceDone(s, t, e) || Lookup(t.roles, RoleKey(e)) == Lookup(s.roles, RoleKey(e))
      ensures p.pa == StatePlan(s, w).paOps ==> PatriceDone(s, t, e)
    {
      PatricePart(es, v, p.pa, t.roles, e);
    }
    forall e | e in es
      ensures ExternalDone(s, t, e) || (HeldKey(e) in t.held <==> HeldKey(e) in s.held)
      ensures p.ext == StatePlan(s, w).externalOps ==> ExternalDone(s, t, e)
    {
      ExternalPart(es, v, p.ext, t.held, e);
    }
    forall e | e in es
      ensures BaselineDone(s, t, e) || (RowOf(e) in t.baseline <==> RowOf(e) in s.baseline)
      ensures p.upserts == StatePlan(s, w).baselineUpserts && p.deletes == StatePlan(s, w).baselineDeletes
              ==> BaselineDone(s, t, e)
    {
      BaselinePart(s, w, p, t, e);
    }
    if p.pa != StatePlan(s, w).paOps {
      assert t.held == s.held by {
        forall k ensures k in t.held <==> k in s.held {
          assert NoExt(p.ext, k);
        }
      }
      assert RowSet([]) == {};
    }
  }
}
