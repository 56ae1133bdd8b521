/** The targeted reconcile of one user, against the full sweep. */
module FastPath {
  import opened Common
  import opened Reconciler
  import opened SyncRun
  import opened SyncTheorems
  import opened SyncResults

  /** The targeted path treats every mapped group as known, so it never reports one as gone. */
  function UserCensus(s: State, w: World): Census {
    Census(true, set m | m in s.mappings && !m.isBroken :: m.groupId, w.census.roleRows)
  }

  function UserWorld(s: State, w: World, l: Link): World { World([l], UserCensus(s, w)) }

  /** What the targeted path loads: one member, one user's rows, one user's baseline. */
  function UserView(s: State, l: Link): View {
    View(
      set h | h in s.held && h.0 == l.externalUserId,
      map k | k in s.roles && k.0 == l.userId :: s.roles[k],
      if BidirectionalIds(s.mappings) == {} then None
      else Some(set r | r in s.baseline && r.mappingId in BidirectionalIds(s.mappings)
                        && r.externalUserId == l.externalUserId
                  :: (r.externalUserId, r.groupId)))
  }

  function UserPlan(s: State, w: World, l: Link): Output {
    PlanFor(LiveEdges(s, UserWorld(s, w, l)), UserView(s, l), FlatMap(s.mappings, BrokenIn(UserCensus(s, w))))
  }

  /** Every mapping the sweep considers points at a group that exists. */
  ghost predicate GroupsExist(s: State, w: World) {
    forall m <- s.mappings :: !m.isBroken ==> !GroupGone(m, w.census)
  }

  function OnLink(l: Link): Edge -> bool { (e: Edge) => e.link == l }

  lemma {:induction false} FilterFlatMap<S, T>(xs: seq<S>, f: S -> seq<T>, g: S -> seq<T>, p: T -> bool)
    requires forall x <- xs :: g(x) == Filter(f(x), p)
    ensures FlatMap(xs, g) == Filter(FlatMap(xs, f), p)
  {
    if xs != [] {
      assert Last(xs) in xs;
      FilterFlatMap(Init(xs), f, g, p);
      FilterAppend(FlatMap(Init(xs), f), f(Last(xs)), p);
    }
  }

  lemma {:induction false} AllEmpty<S, T>(xs: seq<S>, f: S -> seq<T>)
    requires forall x <- xs :: f(x) == []
    ensures FlatMap(xs, f) == []
  {
    if xs != [] {
      assert Last(xs) in xs;
      AllEmpty(Init(xs), f);
    }
  }

  function Filtered<S, T>(f: S -> seq<T>, p: T -> bool): S -> seq<T> { (x: S) => Filter(f(x), p) }

  function GroupStands(c: Census): Edge -> bool { (e: Edge) => !GroupGone(e.mapping, c) }

  /** On the mappings whose group exists, the fast path visits the user's edges of the sweep, in order. */
  lemma OneUsersEdges(s: State, w: World, l: Link)
    requires DistinctLinks(w.links) && l in w.links
    ensures Filter(LiveEdges(s, UserWorld(s, w, l)), GroupStands(w.census)) == Filter(LiveEdges(s, w), OnLink(l))
    ensures FlatMap(s.mappings, BrokenIn(UserCensus(s, w))) == []
  {
    var ms, c, uc := s.mappings, w.census, UserCensus(s, w);
    var f, g := EdgesIn([l], uc), EdgesIn(w.links, c);
    forall m | m in ms
      ensures Filtered(f, GroupStands(c))(m) == Filtered(g, OnLink(l))(m) && BrokenIn(uc)(m) == []
    {
      OneMappingsEdges(s, w, l, m);
    }
    hide UserCensus, EdgesIn;
    FilterFlatMap(ms, f, Filtered(f, GroupStands(c)), GroupStands(c));
    FilterFlatMap(ms, g, Filtered(g, OnLink(l)), OnLink(l));
    FlatMapCongruence(ms, Filtered(f, GroupStands(c)), Filtered(g, OnLink(l)));
    AllEmpty(ms, BrokenIn(uc));
  }

  lemma OneMappingsEdges(s: State, w: World, l: Link, m: Mapping)
    requires DistinctLinks(w.links) && l in w.links && m in s.mappings
    ensures Filter(EdgesIn([l], UserCensus(s, w))(m), GroupStands(w.census)) ==
            Filter(EdgesIn(w.links, w.census)(m), OnLink(l))
    ensures BrokenIn(UserCensus(s, w))(m) == []
  {
    var c, uc := w.census, UserCensus(s, w);
    assert Live(m, c) <==> Live(m, uc) && !GroupGone(m, c);
    OneUsersRow(m, w.links, l);
    assert EdgesOfMapping(m, [l]) == [Edge(m, l)] && Init([Edge(m, l)]) == [];
  }

  lemma {:induction false} OneUsersRow(m: Mapping, links: seq<Link>, l: Link)
    requires DistinctLinks(links)
    ensures Filter(EdgesOfMapping(m, links), OnLink(l)) == if l in links then [Edge(m, l)] else []
  {
    if links != [] {
      OneUsersRow(m, Init(links), l);
      assert Init(EdgesOfMapping(m, links)) == EdgesOfMapping(m, Init(links));
      assert links == Init(links) + [Last(links)];
      if l in Init(links) {
        var i :| 0 <= i < |Init(links)| && Init(links)[i] == l;
        assert links[i].userId != links[|links| - 1].userId;
      }
    }
  }

  /** Narrowing what is loaded to one user does not change that user's decisions. */
  lemma SameVerdict(s: State, l: Link, e: Edge)
    requires e.link == l
    ensures VerdictOf(e, UserView(s, l)) == VerdictOf(e, StateView(s))
  {
  }

  /** Picking the outputs of some edges is the same as planning over those edges. */
  lemma {:induction false} FilterOutputs<T>(es: seq<Edge>, f: Edge -> seq<T>, mine: T -> bool, p: Edge -> bool)
    requires forall e <- es :: forall y <- f(e) :: mine(y) <==> p(e)
    ensures Filter(FlatMap(es, f), mine) == FlatMap(Filter(es, p), f)
  {
    if es != [] {
      var e := Last(es);
      assert e in es;
      FilterOutputs(Init(es), f, mine, p);
      FilterAppend(FlatMap(Init(es), f), f(e), mine);
      FilterAllOrNone(f(e), mine, p(e));
      var before := Filter(Init(es), p);
      if p(e) {
        FlatMapSnoc(before, e, f);
      } else {
        assert before + [] == before && FlatMap(before, f) + [] == FlatMap(before, f);
      }
    }
  }

  lemma {:induction false} FilterAllOrNone<T>(ys: seq<T>, p: T -> bool, all: bool)
    requires forall y <- ys :: p(y) == all
    ensures Filter(ys, p) == if all then ys else []
  {
    if ys != [] {
      assert ys == Init(ys) + [Last(ys)];
      FilterAllOrNone(Init(ys), p, all);
    }
  }

  function PaOpOfUser(l: Link): PaOp -> bool { (op: PaOp) => op.userId == l.userId }
  function ExternalOpOfUser(l: Link): ExternalOp -> bool { (op: ExternalOp) => op.externalUserId == l.externalUserId }
  function RowOfUser(l: Link): BaselineRow -> bool { (r: BaselineRow) => r.externalUserId == l.externalUserId }

  /** The part of a plan that concerns one linked user. */
  function PlanOfUser(plan: Output, l: Link): Output {
    Output(
      Filter(plan.paOps, PaOpOfUser(l)), Filter(plan.externalOps, ExternalOpOfUser(l)), [],
      Filter(plan.baselineUpserts, RowOfUser(l)), Filter(plan.baselineDeletes, RowOfUser(l)))
  }

  /** One list of the plan: the user's slice is what planning over that user's edges yields. */
  lemma Slice<T>(es: seq<Edge>, f: Edge -> seq<T>, fu: Edge -> seq<T>, mine: T -> bool, l: Link)
    requires forall e <- es :: forall y <- f(e) :: mine(y) <==> e.link == l
    requires forall e <- es :: e.link == l ==> fu(e) == f(e)
    ensures FlatMap(Filter(es, OnLink(l)), fu) == Filter(FlatMap(es, f), mine)
  {
    FilterOutputs(es, f, mine, OnLink(l));
    forall e | e in Filter(es, OnLink(l)) ensures fu(e) == f(e) {
      FilterMember(es, OnLink(l), e);
    }
    FlatMapCongruence(Filter(es, OnLink(l)), fu, f);
  }

  /** An edge belongs to the linked user exactly when either of the user's ids says so. */
  lemma EdgeOwner(s: State, w: World, l: Link, e: Edge)
    requires DistinctLinks(w.links) && l in w.links && e in LiveEdges(s, w)
    ensures e.link.userId == l.userId <==> e.link == l
    ensures e.link.externalUserId == l.externalUserId <==> e.link == l
  {
    EdgesAreLive(s.mappings, w.links, w.census, e);
    var i :| 0 <= i < |w.links| && w.links[i] == l;
    var j :| 0 <= j < |w.links| && w.links[j] == e.link;
  }

  /** What the user's own view and the full view agree on, edge by edge. */
  lemma SameOps(s: State, w: World, l: Link, e: Edge)
    requires DistinctLinks(w.links) && l in w.links && e in LiveEdges(s, w)
    ensures e.link == l ==> PaOpOf(e, UserView(s, l)) == PaOpOf(e, StateView(s))
    ensures e.link == l ==> ExternalOpOf(e, UserView(s, l)) == ExternalOpOf(e, StateView(s))
    ensures forall op <- PaOpOf(e, StateView(s)) :: op.userId == l.userId <==> e.link == l
    ensures forall op <- ExternalOpOf(e, StateView(s)) :: op.externalUserId == l.externalUserId <==> e.link == l
  {
    hide Decide;
    EdgeOwner(s, w, l, e);
    if e.link == l {
      SameVerdict(s, l, e);
    }
  }

  lemma OpsSlice(s: State, w: World, l: Link)
    requires DistinctLinks(w.links) && l in w.links
    ensures var es, mine := LiveEdges(s, w), Filter(LiveEdges(s, w), OnLink(l));
            && FlatMap(mine, PaOpsIn(UserView(s, l))) == Filter(FlatMap(es, PaOpsIn(StateView(s))), PaOpOfUser(l))
            && FlatMap(mine, ExternalOpsIn(UserView(s, l)))
               == Filter(FlatMap(es, ExternalOpsIn(StateView(s))), ExternalOpOfUser(l))
  {
    hide PaOpOf, ExternalOpOf;
    var es, v, uv := LiveEdges(s, w), StateView(s), UserView(s, l);
    forall e | e in es
      ensures e.link == l ==> PaOpsIn(uv)(e) == PaOpsIn(v)(e) && ExternalOpsIn(uv)(e) == ExternalOpsIn(v)(e)
      ensures forall op <- PaOpsIn(v)(e) :: PaOpOfUser(l)(op) <==> e.link == l
      ensures forall op <- ExternalOpsIn(v)(e) :: ExternalOpOfUser(l)(op) <==> e.link == l
    {
      SameOps(s, w, l, e);
    }
    Slice(es, PaOpsIn(v), PaOpsIn(uv), PaOpOfUser(l), l);
    Slice(es, ExternalOpsIn(v), ExternalOpsIn(uv), ExternalOpOfUser(l), l);
  }

  lemma RowsSlice(s: State, w: World, l: Link)
    requires DistinctLinks(w.links) && l in w.links
    ensures var es, mine := LiveEdges(s, w), Filter(LiveEdges(s, w), OnLink(l));
            && FlatMap(mine, UpsertsIn(UserView(s, l))) == Filter(FlatMap(es, UpsertsIn(StateView(s))), RowOfUser(l))
            && FlatMap(mine, DeletesIn(UserView(s, l))) == Filter(FlatMap(es, DeletesIn(StateView(s))), RowOfUser(l))
  {
    var es, v, uv := LiveEdges(s, w), StateView(s), UserView(s, l);
    forall e | e in es
      ensures e.link.externalUserId == l.externalUserId <==> e.link == l
      ensures e.link == l ==> (HeldKey(e) in uv.held <==> HeldKey(e) in v.held)
    {
      EdgeOwner(s, w, l, e);
    }
    Slice(es, UpsertsIn(v), UpsertsIn(uv), RowOfUser(l), l);
    Slice(es, DeletesIn(v), DeletesIn(uv), RowOfUser(l), l);
  }

  predicate Stands(c: Census, groupId: Id) { !(c.anyMembers && groupId !in c.knownGroups) }

  function PaOpStands(c: Census): PaOp -> bool { (op: PaOp) => Stands(c, op.groupId) }
  function ExternalOpStands(c: Census): ExternalOp -> bool { (op: ExternalOp) => Stands(c, op.groupId) }
  function RowStands(c: Census): BaselineRow -> bool { (r: BaselineRow) => Stands(c, r.groupId) }

  /** The part of a plan that concerns groups that exist. */
  function OnStandingGroups(plan: Output, c: Census): Output {
    Output(
      Filter(plan.paOps, PaOpStands(c)), Filter(plan.externalOps, ExternalOpStands(c)), plan.brokenMappingIds,
      Filter(plan.baselineUpserts, RowStands(c)), Filter(plan.baselineDeletes, RowStands(c)))
  }

  /** Everything that an edge asks for names the group of its mapping. */
  lemma OutputsNameGroup(e: Edge, v: View)
    ensures forall op <- PaOpOf(e, v) :: op.groupId == e.mapping.groupId
    ensures forall op <- ExternalOpOf(e, v) :: op.groupId == e.mapping.groupId
    ensures forall r <- UpsertsIn(v)(e) + DeletesIn(v)(e) :: r.groupId == e.mapping.groupId
  {
  }

  lemma StandingOutputs(es: seq<Edge>, v: View, broken: seq<Id>, c: Census)
    ensures OnStandingGroups(PlanFor(es, v, broken), c) == PlanFor(Filter(es, GroupStands(c)), v, broken)
  {
    forall e | e in es
      ensures forall op <- PaOpsIn(v)(e) :: PaOpStands(c)(op) <==> GroupStands(c)(e)
      ensures forall op <- ExternalOpsIn(v)(e) :: ExternalOpStands(c)(op) <==> GroupStands(c)(e)
      ensures forall r <- UpsertsIn(v)(e) :: RowStands(c)(r) <==> GroupStands(c)(e)
      ensures forall r <- DeletesIn(v)(e) :: RowStands(c)(r) <==> GroupStands(c)(e)
    {
      OutputsNameGroup(e, v);
    }
    hide PaOpOf, ExternalOpOf;
    FilterOutputs(es, PaOpsIn(v), PaOpStands(c), GroupStands(c));
    FilterOutputs(es, ExternalOpsIn(v), ExternalOpStands(c), GroupStands(c));
    FilterOutputs(es, UpsertsIn(v), RowStands(c), GroupStands(c));
    FilterOutputs(es, DeletesIn(v), RowStands(c), GroupStands(c));
  }

  /**
   * The fast path refines the sweep: of what it plans for one linked user, the part on groups
   * that exist is exactly the in-order part of the sweep's plan that concerns that user.
   */
  lemma FastPathIsSubsequence(s: State, w: World, l: Link)
    requires DistinctLinks(w.links) && l in w.links
    ensures OnStandingGroups(UserPlan(s, w, l), w.census) == PlanOfUser(StatePlan(s, w), l)
  {
    OneUsersEdges(s, w, l);
    OpsSlice(s, w, l);
    RowsSlice(s, w, l);
    hide LiveEdges, UserView, UserCensus, BrokenIn, Filter, FlatMap;
    StandingOutputs(LiveEdges(s, UserWorld(s, w, l)), UserView(s, l), [], w.census);
  }

  /** An active mapping of a live role whose group is gone: the sweep flags it, the fast path uses it. */
  predicate Stranded(m: Mapping, c: Census) {
    !m.isBroken && GroupGone(m, c) && m.roleId in c.roleRows && !c.roleRows[m.roleId].Retired?
  }

  lemma {:induction false} FilterAll<T>(xs: seq<T>, p: T -> bool)
    requires forall x <- xs :: p(x)
    ensures Filter(xs, p) == xs
  {
    FilterAllOrNone(xs, p, true);
  }

  /** The two plans are the same exactly if no such mapping is left. */
  lemma FastPathAgreesIff(s: State, w: World, l: Link)
    requires DistinctLinks(w.links) && l in w.links
    ensures UserPlan(s, w, l) == PlanOfUser(StatePlan(s, w), l) <==>
            forall m <- s.mappings :: !Stranded(m, w.census)
  {
    var es, uv := LiveEdges(s, UserWorld(s, w, l)), UserView(s, l);
    FastPathIsSubsequence(s, w, l);
    OneUsersEdges(s, w, l);
    if forall m <- s.mappings :: !Stranded(m, w.census) {
      forall e | e in es ensures GroupStands(w.census)(e) {
        EdgesAreLive(s.mappings, [l], UserCensus(s, w), e);
      }
      FilterAll(es, GroupStands(w.census));
      StandingOutputs(es, uv, [], w.census);
    } else {
      var m :| m in s.mappings && Stranded(m, w.census);
      EdgesAreLive(s.mappings, [l], UserCensus(s, w), Edge(m, l));
      StrandedRow(es, uv, Edge(m, l), w.census);
    }
  }

  /** Its baseline row, whichever list it is on, is in the fast path's plan and not in the sweep's. */
  lemma StrandedRow(es: seq<Edge>, v: View, e: Edge, c: Census)
    requires e in es && GroupGone(e.mapping, c)
    ensures OnStandingGroups(PlanFor(es, v, []), c) != PlanFor(es, v, [])
  {
    var plan, r := PlanFor(es, v, []), RowOf(e);
    UpsertsOfEdges(es, v, r);
    DeletesOfEdges(es, v, r);
    hide FlatMap;
    FilterMember(plan.baselineUpserts, RowStands(c), r);
    FilterMember(plan.baselineDeletes, RowStands(c), r);
    assert r in plan.baselineUpserts || r in plan.baselineDeletes;
  }

  /** A successful targeted reconcile of one user. */
  function RunUser(s: State, w: World, l: Link): State {
    var plan := UserPlan(s, w, l);
    Exec(s, Trace(s.mappings, plan, OutboundReport(plan.externalOps, AllDelivered(|plan.externalOps|))))
  }

  /** It is a run of the same planner over a world with one link. */
  lemma RunUserIsRun(s: State, w: World, l: Link)
    ensures RunUser(s, w, l) == Run(s, UserWorld(s, w, l))
  {
    hide Decide;
    var uw := UserWorld(s, w, l);
    var es := LiveEdges(s, uw);
    forall e | e in es ensures e.link == l && VerdictOf(e, UserView(s, l)) == VerdictOf(e, StateView(s)) {
      EdgesAreLive(s.mappings, [l], uw.census, e);
      SameVerdict(s, l, e);
    }
    FlatMapCongruence(es, PaOpsIn(UserView(s, l)), PaOpsIn(StateView(s)));
    FlatMapCongruence(es, ExternalOpsIn(UserView(s, l)), ExternalOpsIn(StateView(s)));
    FlatMapCongruence(es, UpsertsIn(UserView(s, l)), UpsertsIn(StateView(s)));
    FlatMapCongruence(es, DeletesIn(UserView(s, l)), DeletesIn(StateView(s)));
  }

  /* ---------- Users in any order ---------- */

  /** The users in `done` have been reconciled since `s`; everyone else is untouched. */
  ghost predicate Midway(s: State, t: State, w: World, done: set<Link>) {
    Sound(t, w) && t.mappings == s.mappings && OutsideSame(s, t, w) && EdgesMidway(s, t, w, done)
  }

  ghost predicate OutsideSame(s: State, t: State, w: World) {
    && (forall k :: NoRole(LiveEdges(s, w), k) ==> Lookup(t.roles, k) == Lookup(s.roles, k))
    && (forall k :: NoHeld(LiveEdges(s, w), k) ==> (k in t.held <==> k in s.held))
    && (forall r :: NoRow(LiveEdges(s, w), r) ==> (r in t.baseline <==> r in s.baseline))
  }

  ghost predicate EdgesMidway(s: State, t: State, w: World, done: set<Link>) {
    forall e <- LiveEdges(s, w) ::
      if e.link in done then PatriceDone(s, t, e) && ExternalDone(s, t, e) else SameBits(s, t, e)
  }

  ghost predicate SameBits(s: State, t: State, e: Edge) {
    && Lookup(t.roles, RoleKey(e)) == Lookup(s.roles, RoleKey(e))
    && (HeldKey(e) in t.held <==> HeldKey(e) in s.held)
    && (RowOf(e) in t.baseline <==> RowOf(e) in s.baseline)
  }

  lemma UserEdges(s: State, t: State, w: World, l: Link, e: Edge)
    requires GroupsExist(s, w) && t.mappings == s.mappings && l in w.links
    ensures e in LiveEdges(t, UserWorld(t, w, l)) <==> e in LiveEdges(s, w) && e.link == l
  {
    EdgesAreLive(t.mappings, [l], UserCensus(t, w), e);
    EdgesAreLive(s.mappings, w.links, w.census, e);
  }

  /** No user's reconcile touches the rows that linger on an edge. */
  lemma SameLingering(s: State, t: State, w: World, e: Edge)
    requires Sound(s, w) && t.mappings == s.mappings && OutsideSame(s, t, w) && e in LiveEdges(s, w)
    ensures Lingering(t, e) <==> Lingering(s, e)
  {
    forall r | Foreign(r, e) ensures r in t.baseline <==> r in s.baseline {
      ForeignRowsStay(s, w, e, r);
    }
  }

  /** Reconciling a user again finds the edge settled; reconciling it first does what the sweep would. */
  lemma OwnEdgeStep(s: State, t: State, w: World, e: Edge, settled: bool)
    requires Sound(s, w) && t.mappings == s.mappings && OutsideSame(s, t, w) && e in LiveEdges(s, w)
    requires if settled then PatriceDone(s, t, e) && ExternalDone(s, t, e) else SameBits(s, t, e)
    ensures NextPatrice(e, StateView(t)) == NextPatrice(e, StateView(s))
    ensures NextExternal(e, StateView(t)) == NextExternal(e, StateView(s))
  {
    assert LiveEdges(t, w) == LiveEdges(s, w);
    if e.mapping.direction == Bidirectional {
      LoadedBit(s, w, e);
      LoadedBit(t, w, e);
      SameLingering(s, t, w, e);
    }
    hide Decide, Lingering, OutsideSame;
    if settled {
      EdgeSettles(e.mapping, HeldKey(e) in s.held, Lookup(s.roles, RoleKey(e)),
                  BaselineBit(e, StateView(s)), BaselineBit(e, StateView(t)));
    }
  }

  /** Another user's edges are out of a targeted run's reach. */
  lemma OtherUsersUntouched(s: State, t: State, u: State, w: World, l: Link, e: Edge)
    requires Sound(s, w) && GroupsExist(s, w) && t.mappings == s.mappings && l in w.links
    requires Framed(t, u, UserWorld(t, w, l)) && e in LiveEdges(s, w) && e.link != l
    ensures SameBits(t, u, e)
  {
    var es, mine := LiveEdges(s, w), LiveEdges(t, UserWorld(t, w, l));
    EdgesApart(s.mappings, w.links, w.census);
    forall d | d in mine ensures RoleKey(d) != RoleKey(e) && HeldKey(d) != HeldKey(e) && RowOf(d) != RowOf(e) {
      UserEdges(s, t, w, l, d);
      SameEdge(es, d, e);
    }
    assert NoRole(mine, RoleKey(e)) && NoHeld(mine, HeldKey(e)) && NoRow(mine, RowOf(e));
  }

  lemma OutsideStep(s: State, t: State, u: State, w: World, l: Link)
    requires GroupsExist(s, w) && t.mappings == s.mappings && l in w.links
    requires Framed(t, u, UserWorld(t, w, l)) && OutsideSame(s, t, w)
    ensures OutsideSame(s, u, w)
  {
    var es, mine := LiveEdges(s, w), LiveEdges(t, UserWorld(t, w, l));
    forall d | d in mine ensures d in es {
      UserEdges(s, t, w, l, d);
    }
    forall k
      ensures NoRole(es, k) ==> Lookup(u.roles, k) == Lookup(s.roles, k)
      ensures NoHeld(es, k) ==> (k in u.held <==> k in s.held)
    {
      assert NoRole(es, k) ==> NoRole(mine, k);
      assert NoHeld(es, k) ==> NoHeld(mine, k);
    }
    forall r | NoRow(es, r) ensures r in u.baseline <==> r in s.baseline {
      assert NoRow(mine, r);
    }
  }

  /** A targeted run never flags a mapping as broken. */
  lemma NoMappingFlagged(t: State, u: State, w: World, l: Link)
    requires FlaggedWithin(t.mappings, u.mappings, UserCensus(t, w))
    ensures u.mappings == t.mappings
  {
  }

  lemma EdgeStep(s: State, t: State, u: State, w: World, done: set<Link>, l: Link, e: Edge)
    requires Sound(s, w) && GroupsExist(s, w) && l in w.links && Midway(s, t, w, done)
    requires Applied(t, u, UserWorld(t, w, l)) && e in LiveEdges(s, w)
    ensures if e.link in done + {l} then PatriceDone(s, u, e) && ExternalDone(s, u, e) else SameBits(s, u, e)
  {
    hide NextPatrice, NextExternal;
    if e.link == l {
      UserEdges(s, t, w, l, e);
      OwnEdgeStep(s, t, w, e, l in done);
      assert PatriceDone(t, u, e) && ExternalDone(t, u, e);
    } else {
      OtherUsersUntouched(s, t, u, w, l, e);
    }
  }

  lemma UserStep(s: State, t: State, w: World, done: set<Link>, l: Link)
    requires Sound(s, w) && GroupsExist(s, w) && l in w.links && Midway(s, t, w, done)
    ensures Midway(s, RunUser(t, w, l), w, done + {l})
  {
    hide Run, RunUser, PatriceDone, ExternalDone, SameBits, OutsideSame;
    var uw, u := UserWorld(t, w, l), RunUser(t, w, l);
    RunUserIsRun(t, w, l);
    WholeRun(t, uw);
    PartwaySound(t, u, uw);
    NoMappingFlagged(t, u, w, l);
    OutsideStep(s, t, u, w, l);
    forall e | e in LiveEdges(s, w)
      ensures if e.link in done + {l} then PatriceDone(s, u, e) && ExternalDone(s, u, e) else SameBits(s, u, e)
    {
      EdgeStep(s, t, u, w, done, l, e);
    }
  }

  function RunUsers(s: State, w: World, ls: seq<Link>): State {
    if ls == [] then s else RunUser(RunUsers(s, w, Init(ls)), w, Last(ls))
  }

  function LinkSet(ls: seq<Link>): (r: set<Link>)
    ensures forall l :: l in r <==> l in ls
  {
    set l | l in ls
  }

  lemma MidwayStart(s: State, w: World)
    requires Sound(s, w)
    ensures Midway(s, s, w, {})
  {
  }

  lemma {:induction false} RunUsersMidway(s: State, w: World, ls: seq<Link>)
    requires Sound(s, w) && GroupsExist(s, w) && forall l <- ls :: l in w.links
    ensures Midway(s, RunUsers(s, w, ls), w, LinkSet(ls))
  {
    hide Midway, RunUser, Sound, GroupsExist;
    if ls == [] {
      MidwayStart(s, w);
      assert LinkSet(ls) == {};
    } else {
      assert ls == Init(ls) + [Last(ls)];
      RunUsersMidway(s, w, Init(ls));
      assert LinkSet(ls) == LinkSet(Init(ls)) + {Last(ls)};
      UserStep(s, RunUsers(s, w, Init(ls)), w, LinkSet(Init(ls)), Last(ls));
    }
  }

  /** When every mapped group exists, the users one by one reach what one sweep reaches. */
  lemma UsersReachTheSweep(s: State, w: World, ls: seq<Link>)
    requires Sound(s, w) && GroupsExist(s, w)
    requires forall l :: l in ls <==> l in w.links
    ensures SameRoles(RunUsers(s, w, ls), Run(s, w))
  {
    hide Run, NextPatrice, NextExternal;
    var t, u, es := RunUsers(s, w, ls), Run(s, w), LiveEdges(s, w);
    RunUsersMidway(s, w, ls);
    WholeRun(s, w);
    forall e | e in es ensures PatriceDone(s, t, e) && ExternalDone(s, t, e) {
      EdgesAreLive(s.mappings, w.links, w.census, e);
      assert e.link in LinkSet(ls);
    }
    forall k ensures Lookup(t.roles, k) == Lookup(u.roles, k) ensures k in t.held <==> k in u.held {
      if e :| e in es && RoleKey(e) == k {
        assert PatriceDone(s, t, e) && PatriceDone(s, u, e);
      } else {
        assert NoRole(es, k);
      }
      if e :| e in es && HeldKey(e) == k {
        assert ExternalDone(s, t, e) && ExternalDone(s, u, e);
      } else {
        assert NoHeld(es, k);
      }
    }
    MapExtensionality(t.roles, u.roles);
  }

  /* ---------- With groups that are gone ---------- */

  /** The world as the fast path sees it: no mapped group is gone. */
  function AsKnown(s: State, w: World): World { World(w.links, UserCensus(s, w)) }

  lemma LiveAsKnown(s: State, w: World, e: Edge)
    ensures e in LiveEdges(s, w) <==> e in LiveEdges(s, AsKnown(s, w)) && !GroupGone(e.mapping, w.census)
    ensures e in LiveEdges(s, AsKnown(s, w)) && GroupGone(e.mapping, w.census) <==>
            e.mapping in s.mappings && Stranded(e.mapping, w.census) && e.link in w.links
  {
    EdgesAreLive(s.mappings, w.links, w.census, e);
    EdgesAreLive(s.mappings, w.links, UserCensus(s, w), e);
  }

  /** The fast path cannot tell the two worlds apart. */
  lemma {:induction false} SameUserRuns(s: State, w: World, fw: World, ls: seq<Link>)
    requires fw.census.roleRows == w.census.roleRows
    ensures RunUsers(s, fw, ls) == RunUsers(s, w, ls)
  {
    if ls != [] {
      SameUserRuns(s, w, fw, Init(ls));
    }
  }

  lemma UsersReachKnown(s: State, w: World, ls: seq<Link>)
    requires Sound(s, w) && forall l :: l in ls <==> l in w.links
    ensures SameRoles(RunUsers(s, w, ls), Run(s, AsKnown(s, w)))
    ensures Applied(s, Run(s, AsKnown(s, w)), AsKnown(s, w)) && Applied(s, Run(s, w), w)
  {
    var fw := AsKnown(s, w);
    assert Sound(s, fw) && GroupsExist(s, fw);
    hide Run, RunUsers, Applied, Sound, GroupsExist;
    SameUserRuns(s, w, fw, ls);
    UsersReachTheSweep(s, fw, ls);
    WholeRun(s, w);
    WholeRun(s, fw);
  }

  /** The sweep leaves both sides of a stranded edge as they are. */
  lemma SweepLeaves(s: State, w: World, e: Edge)
    requires Sound(s, w) && e in LiveEdges(s, AsKnown(s, w)) && GroupGone(e.mapping, w.census)
    ensures NoRole(LiveEdges(s, w), RoleKey(e)) && NoHeld(LiveEdges(s, w), HeldKey(e))
  {
    EdgesApart(s.mappings, w.links, UserCensus(s, w));
    hide LiveEdges, GroupGone;
    forall d | d in LiveEdges(s, w) ensures RoleKey(d) != RoleKey(e) && HeldKey(d) != HeldKey(e) {
      LiveAsKnown(s, w, d);
      SameEdge(LiveEdges(s, AsKnown(s, w)), d, e);
    }
  }

  ghost predicate StrandedKeep(s: State, w: World) {
    forall e <- LiveEdges(s, AsKnown(s, w)) :: GroupGone(e.mapping, w.census) ==> VerdictOf(e, StateView(s)) == Keep
  }

  /** At one key: the runs agree where a standing edge, or only settled stranded ones, could write. */
  lemma RunsAgreeAt(s: State, w: World, t: State, u: State, k: (Id, Id))
    requires Sound(s, w) && Applied(s, t, AsKnown(s, w)) && Applied(s, u, w)
    ensures !NoRole(LiveEdges(s, w), k) || NoRole(LiveEdges(s, AsKnown(s, w)), k) || StrandedKeep(s, w) ==>
              Lookup(t.roles, k) == Lookup(u.roles, k)
    ensures !NoHeld(LiveEdges(s, w), k) || NoHeld(LiveEdges(s, AsKnown(s, w)), k) || StrandedKeep(s, w) ==>
              (k in t.held <==> k in u.held)
  {
    var all, es := LiveEdges(s, AsKnown(s, w)), LiveEdges(s, w);
    forall e | e in es ensures e in all {
      LiveAsKnown(s, w, e);
    }
    hide LiveEdges, VerdictOf, AsKnown;
    if e :| e in es && RoleKey(e) == k {
      assert PatriceDone(s, t, e) && PatriceDone(s, u, e);
    } else if e :| e in all && RoleKey(e) == k {
      LiveAsKnown(s, w, e);
      assert NoRole(es, k) && PatriceDone(s, t, e);
    } else {
      assert NoRole(es, k) && NoRole(all, k);
    }
    if e :| e in es && HeldKey(e) == k {
      assert ExternalDone(s, t, e) && ExternalDone(s, u, e);
    } else if e :| e in all && HeldKey(e) == k {
      LiveAsKnown(s, w, e);
      assert NoHeld(es, k) && ExternalDone(s, t, e);
    } else {
      assert NoHeld(es, k) && NoHeld(all, k);
    }
  }

  /**
   * Reconciling the linked users one by one, in any order and any number of times each, reaches
   * what one full sweep reaches at every membership of a mapping whose group exists, and touches
   * nothing but the memberships of active mappings.
   */
  lemma AnyOrderReachesTheSweep(s: State, w: World, ls: seq<Link>)
    requires Sound(s, w) && forall l :: l in ls <==> l in w.links
    ensures var t, u := RunUsers(s, w, ls), Run(s, w);
            forall e <- LiveEdges(s, w) ::
              && Lookup(t.roles, RoleKey(e)) == Lookup(u.roles, RoleKey(e))
              && (HeldKey(e) in t.held <==> HeldKey(e) in u.held)
    ensures var t, u, all := RunUsers(s, w, ls), Run(s, w), LiveEdges(s, AsKnown(s, w));
            && (forall k :: NoRole(all, k) ==> Lookup(t.roles, k) == Lookup(u.roles, k))
            && (forall k :: NoHeld(all, k) ==> (k in t.held <==> k in u.held))
  {
    hide Run, RunUsers, LiveEdges, Applied, Sound, AsKnown;
    var t, u, all := Run(s, AsKnown(s, w)), Run(s, w), LiveEdges(s, AsKnown(s, w));
    UsersReachKnown(s, w, ls);
    forall e | e in LiveEdges(s, w)
      ensures Lookup(t.roles, RoleKey(e)) == Lookup(u.roles, RoleKey(e))
      ensures HeldKey(e) in t.held <==> HeldKey(e) in u.held
    {
      RunsAgreeAt(s, w, t, u, RoleKey(e));
      RunsAgreeAt(s, w, t, u, HeldKey(e));
    }
    forall k
      ensures NoRole(all, k) ==> Lookup(t.roles, k) == Lookup(u.roles, k)
      ensures NoHeld(all, k) ==> (k in t.held <==> k in u.held)
    {
      RunsAgreeAt(s, w, t, u, k);
    }
  }

  /** All memberships agree exactly if no membership of a mapping whose group is gone would be changed. */
  lemma AnyOrderReachesTheSweepIff(s: State, w: World, ls: seq<Link>)
    requires Sound(s, w) && forall l :: l in ls <==> l in w.links
    ensures SameRoles(RunUsers(s, w, ls), Run(s, w)) <==> StrandedKeep(s, w)
  {
    hide Run, RunUsers, LiveEdges, Applied, Sound, AsKnown;
    var t, u := Run(s, AsKnown(s, w)), Run(s, w);
    UsersReachKnown(s, w, ls);
    if StrandedKeep(s, w) {
      forall k ensures Lookup(t.roles, k) == Lookup(u.roles, k) ensures k in t.held <==> k in u.held {
        RunsAgreeAt(s, w, t, u, k);
      }
      MapExtensionality(t.roles, u.roles);
    } else {
      var e :| e in LiveEdges(s, AsKnown(s, w)) && GroupGone(e.mapping, w.census) && VerdictOf(e, StateView(s)) != Keep;
      StrandedDiffers(s, w, t, u, e);
    }
  }

  lemma StrandedDiffers(s: State, w: World, t: State, u: State, e: Edge)
    requires Sound(s, w) && Applied(s, t, AsKnown(s, w)) && Applied(s, u, w)
    requires e in LiveEdges(s, AsKnown(s, w)) && GroupGone(e.mapping, w.census) && VerdictOf(e, StateView(s)) != Keep
    ensures !SameRoles(t, u)
  {
    SweepLeaves(s, w, e);
    VerdictFits(e.mapping, HeldKey(e) in s.held, Lookup(s.roles, RoleKey(e)), BaselineBit(e, StateView(s)));
    hide LiveEdges, Decide, AsKnown;
    assert PatriceDone(s, t, e) && ExternalDone(s, t, e);
  }

  /* ---------- A role that only the fast path takes away ---------- */

  const GoneMapping := Mapping("m", "role", "gone", Inbound, false, PatriceWins)
  const OnlyLink := Link("user", "member")
  const WithRole := State([GoneMapping], map[("user", "role") := Integration], {}, {})
  const WithoutGroup := World([OnlyLink], Census(true, {}, map["role" := Active]))

  lemma OneStrandedEdge()
    ensures Sound(WithRole, WithoutGroup) && LiveEdges(WithRole, WithoutGroup) == []
    ensures Edge(GoneMapping, OnlyLink) in LiveEdges(WithRole, UserWorld(WithRole, WithoutGroup, OnlyLink))
  {
    var s, w, e := WithRole, WithoutGroup, Edge(GoneMapping, OnlyLink);
    var uw := UserWorld(s, w, OnlyLink);
    assert GoneMapping == s.mappings[0] && OnlyLink == uw.links[0];
    EdgesAreLive(s.mappings, uw.links, uw.census, e);
    assert EdgesIn(w.links, w.census)(GoneMapping) == [];
    hide EdgesIn;
    AllEmpty(s.mappings, EdgesIn(w.links, w.census));
  }

  /** The group was deleted in Discord. The sweep keeps the synced role, the fast path revokes it. */
  lemma FastPathCanRevoke() returns (s: State, w: World, l: Link, k: (Id, Id))
    ensures Sound(s, w) && l in w.links
    ensures k in s.roles && k in Run(s, w).roles && k !in RunUser(s, w, l).roles
  {
    s, w, l, k := WithRole, WithoutGroup, OnlyLink, ("user", "role");
    var e, uw := Edge(GoneMapping, l), UserWorld(s, w, l);
    OneStrandedEdge();
    StrandedVerdict();
    RunUserIsRun(s, w, l);
    hide Run, RunUser, LiveEdges, NextPatrice, NextExternal, Sound, UserWorld, FlaggedWithin;
    PartialWorldSound(s, w, l);
    WholeRun(s, w);
    WholeRun(s, uw);
    assert PatriceDone(s, Run(s, uw), e) && NoRole([], k);
    assert Lookup(Run(s, w).roles, k) == Some(Integration) && Lookup(Run(s, uw).roles, k) == None;
  }

  lemma StrandedVerdict()
    ensures NextPatrice(Edge(GoneMapping, OnlyLink), StateView(WithRole)) == None
  {
  }

  lemma PartialWorldSound(s: State, w: World, l: Link)
    requires Sound(s, w)
    ensures Sound(s, UserWorld(s, w, l))
  {
  }
}
