/** Whose change wins, and what happens when two mappings share a role. */
module SyncIntent {
  import opened Common
  import opened Reconciler
  import opened SyncRun
  import opened SyncTheorems
  import opened SyncResults

  /* ---------- Three-way merge ---------- */

  /** With a loaded baseline the tiebreaker of a mapping is never consulted. */
  lemma WinnerNeverConsulted(s: State, w: World, e: Edge, other: Winner)
    requires e in LiveEdges(s, w)
    ensures var held, role := HeldKey(e) in s.held, Lookup(s.roles, RoleKey(e));
            Decide(e.mapping.(winner := other), held, role, BaselineBit(e, StateView(s))) == VerdictOf(e, StateView(s))
  {
    if e.mapping.direction == Bidirectional {
      LoadedBit(s, w, e);
    }
  }

  /**
   * Without a loaded baseline the tiebreaker settles a disagreement: the winner's side stands and the
   * other follows it, except that a natively granted role is never taken away for Discord's sake.
   */
  lemma WinnerDecides(m: Mapping, x: bool, p: Option<Source>)
    requires m.direction == Bidirectional && x != p.Some?
    ensures var d := Decide(m, x, p, None);
            var x', p' := ExternalNext(d, x), PatriceNext(d, p);
            && (m.winner == PatriceWins ==> p' == p && x' == p.Some?)
            && (m.winner == ExternalWins ==>
                  x' == x && p' == if x then Some(Integration) else if p == Some(Native) then p else None)
  {
    assert p.Some? ==> p.value.Native? || p.value.Integration?;
  }

  /** The merge of the two sides against the last recorded bit. A native grant cannot lose. */
  predicate MergedBit(external: bool, patrice: Option<Source>, was: bool) {
    if external == patrice.Some? then external
    else if patrice == Some(Native) then true
    else !was
  }

  function MergedRole(external: bool, patrice: Option<Source>, was: bool): Option<Source> {
    if !MergedBit(external, patrice, was) then None
    else if patrice.Some? then patrice
    else Some(Integration)
  }

  /** The planner's decision on a bidirectional edge is the merge, on both sides. */
  lemma DecisionIsMerge(m: Mapping, x: bool, p: Option<Source>, was: bool)
    requires m.direction == Bidirectional
    ensures var d := Decide(m, x, p, Some(was));
            PatriceNext(d, p) == MergedRole(x, p, was) && ExternalNext(d, x) == MergedBit(x, p, was)
  {
  }

  /** After a run both sides of a bidirectional edge show the merge of what the run found. */
  lemma ThreeWayMerge(s: State, w: World, e: Edge)
    requires Sound(s, w) && e in LiveEdges(s, w) && e.mapping.direction == Bidirectional
    ensures var x, p, was := HeldKey(e) in s.held, Lookup(s.roles, RoleKey(e)), Recorded(s, e);
            && BaselineBit(e, StateView(s)) == Some(was)
            && (HeldKey(e) in Run(s, w).held) == MergedBit(x, p, was)
            && Lookup(Run(s, w).roles, RoleKey(e)) == MergedRole(x, p, was)
  {
    hide Decide, Recorded;
    WholeRun(s, w);
    LoadedBit(s, w, e);
    DecisionIsMerge(e.mapping, HeldKey(e) in s.held, Lookup(s.roles, RoleKey(e)), Recorded(s, e));
    assert PatriceDone(s, Run(s, w), e) && ExternalDone(s, Run(s, w), e);
  }

  /** The Patrice writes of a run are the plan's, however Discord answers. */
  lemma PatriceWritesAreThePlans(ms: seq<Mapping>, plan: Output, outbound: ApplyResult)
    ensures forall st <- Trace(ms, plan, outbound) :: st.Pa? ==> st.paOp in plan.paOps
  {
    var a, b := Flags(plan.brokenMappingIds), Flags(FlatMap(outbound.brokenGroupIds, RefusedMappings(ms)));
    hide FlatMap;
    forall st | st in Trace(ms, plan, outbound) ensures st.Pa? ==> st.paOp in plan.paOps {
      assert st in a || st in PaSteps(plan.paOps) || st in ExtSteps(outbound.appliedOps) || st in b
             || st in UpsertSteps(plan.baselineUpserts) || st in DeleteSteps(plan.baselineDeletes);
    }
  }

  /**
   * No run takes away a role that an admin granted, whatever is mapped, whether it finishes or
   * stops at any write, and however Discord answers.
   */
  lemma NativeSurvives(s: State, w: World, outcomes: seq<Outcome>, k: nat, key: (Id, Id))
    requires |outcomes| == |StatePlan(s, w).externalOps|
    requires k <= |RunSteps(s, w, outcomes)|
    requires Lookup(s.roles, key) == Some(Native)
    ensures Lookup(Exec(s, RunSteps(s, w, outcomes)[..k]).roles, key) == Some(Native)
  {
    var plan, steps := StatePlan(s, w), RunSteps(s, w, outcomes);
    PatriceWritesAreThePlans(s.mappings, plan, OutboundReport(plan.externalOps, outcomes));
    NativeIsNotPlanned(LiveEdges(s, w), StateView(s), key);
    hide Exec, RunSteps, LiveEdges, FlatMap, Trace;
    assert NoPaAt(steps[..k], key);
    StepsKeep(s, steps[..k], key, key);
  }

  /* ---------- A change on one side ---------- */

  /** Both sides agree at `e`, and its baseline row records it. */
  predicate InStep(s: State, e: Edge) {
    (HeldKey(e) in s.held) == (RoleKey(e) in s.roles) == (RowOf(e) in s.baseline)
  }

  lemma RestingEdgeInStep(s: State, w: World, e: Edge)
    requires Sound(s, w) && AtRest(s, w) && e in LiveEdges(s, w) && e.mapping.direction == Bidirectional
    ensures InStep(s, e)
  {
    NoOpsMeansKeep(LiveEdges(s, w), StateView(s), e);
    LoadedBit(s, w, e);
    DecisionIsMerge(e.mapping, HeldKey(e) in s.held, Lookup(s.roles, RoleKey(e)), Recorded(s, e));
  }

  /** `t` differs from `s` only in the two bits of `e`. */
  ghost predicate DiffersAt(s: State, t: State, e: Edge) {
    && t.mappings == s.mappings && t.baseline == s.baseline
    && (forall k :: k != RoleKey(e) ==> Lookup(t.roles, k) == Lookup(s.roles, k))
    && (forall k :: k != HeldKey(e) ==> (k in t.held <==> k in s.held))
  }

  lemma OtherEdgesKeep(s: State, t: State, w: World, e: Edge, d: Edge)
    requires Sound(s, w) && AtRest(s, w) && DiffersAt(s, t, e)
    requires e in LiveEdges(s, w) && d in LiveEdges(s, w) && d != e
    ensures VerdictOf(d, StateView(t)) == Keep
    ensures RoleKey(d) != RoleKey(e) && HeldKey(d) != HeldKey(e)
  {
    hide Decide;
    EdgesApart(s.mappings, w.links, w.census);
    SameEdge(LiveEdges(s, w), d, e);
    NoOpsMeansKeep(LiveEdges(s, w), StateView(s), d);
  }

  lemma SameMappings(s: State, t: State, w: World)
    requires t.mappings == s.mappings
    ensures LiveEdges(t, w) == LiveEdges(s, w) && (Sound(s, w) ==> Sound(t, w))
  {
  }

  /** From rest, a run after a change at one edge only acts on that edge. */
  lemma OnlyTheChangedEdge(s: State, t: State, w: World, e: Edge, k: (Id, Id))
    requires Sound(s, w) && AtRest(s, w) && e in LiveEdges(s, w) && DiffersAt(s, t, e)
    ensures Sound(t, w)
    ensures k != RoleKey(e) ==> Lookup(Run(t, w).roles, k) == Lookup(t.roles, k)
    ensures k != HeldKey(e) ==> (k in Run(t, w).held <==> k in t.held)
  {
    hide Run, Sound, AtRest, LiveEdges, VerdictOf, Applied;
    SameMappings(s, t, w);
    WholeRun(t, w);
    forall d | d in LiveEdges(t, w) && d != e
      ensures VerdictOf(d, StateView(t)) == Keep && RoleKey(d) != RoleKey(e) && HeldKey(d) != HeldKey(e)
    {
      OtherEdgesKeep(s, t, w, e, d);
    }
    KeptKeys(t, Run(t, w), w, k);
  }

  /** What one side and the other should show: the merge at the edge, and elsewhere what is there. */
  ghost predicate ShowsMerge(s: State, t: State, e: Edge, roles: map<(Id, Id), Source>, held: set<(Id, Id)>) {
    && (var x, p, was := HeldKey(e) in t.held, Lookup(t.roles, RoleKey(e)), Recorded(s, e);
        Lookup(roles, RoleKey(e)) == MergedRole(x, p, was) && (HeldKey(e) in held) == MergedBit(x, p, was))
    && (forall k :: k != RoleKey(e) ==> Lookup(roles, k) == Lookup(t.roles, k))
    && (forall k :: k != HeldKey(e) ==> (k in held <==> k in t.held))
  }

  lemma SameRecord(s: State, t: State, e: Edge)
    requires DiffersAt(s, t, e)
    ensures t.mappings == s.mappings && Recorded(t, e) == Recorded(s, e)
  {
  }

  lemma OneRunElsewhere(s: State, t: State, w: World, e: Edge)
    requires Sound(s, w) && AtRest(s, w) && DiffersAt(s, t, e) && e in LiveEdges(s, w)
    ensures forall k :: k != RoleKey(e) ==> Lookup(Run(t, w).roles, k) == Lookup(t.roles, k)
    ensures forall k :: k != HeldKey(e) ==> (k in Run(t, w).held <==> k in t.held)
  {
    hide Run, Sound, AtRest, LiveEdges, DiffersAt;
    forall k
      ensures k != RoleKey(e) ==> Lookup(Run(t, w).roles, k) == Lookup(t.roles, k)
      ensures k != HeldKey(e) ==> (k in Run(t, w).held <==> k in t.held)
    {
      OnlyTheChangedEdge(s, t, w, e, k);
    }
  }

  lemma OneRunShowsMerge(s: State, t: State, w: World, e: Edge)
    requires Sound(s, w) && AtRest(s, w) && DiffersAt(s, t, e)
    requires e in LiveEdges(s, w) && e.mapping.direction == Bidirectional
    ensures Sound(t, w) && ShowsMerge(s, t, e, Run(t, w).roles, Run(t, w).held)
  {
    hide Run, Sound, AtRest, LiveEdges, MergedRole, MergedBit, Recorded, StateView, BaselineBit, DiffersAt;
    SameRecord(s, t, e);
    SameMappings(s, t, w);
    ThreeWayMerge(t, w, e);
    OneRunElsewhere(s, t, w, e);
  }

  lemma MergeIsUnique(s: State, t: State, e: Edge, roles: map<(Id, Id), Source>, held: set<(Id, Id)>,
                      roles': map<(Id, Id), Source>, held': set<(Id, Id)>)
    requires ShowsMerge(s, t, e, roles, held) && ShowsMerge(s, t, e, roles', held')
    ensures roles == roles' && held == held'
  {
    hide MergedRole, MergedBit, Recorded;
    forall k ensures Lookup(roles, k) == Lookup(roles', k) ensures k in held <==> k in held' {
    }
    MapExtensionality(roles, roles');
  }

  /** From rest, every later run shows the merge at the changed edge and nothing else moves. */
  lemma ChangeSettles(s: State, t: State, w: World, e: Edge, n: nat, roles: map<(Id, Id), Source>, held: set<(Id, Id)>)
    requires Sound(s, w) && AtRest(s, w) && DiffersAt(s, t, e) && n >= 1
    requires e in LiveEdges(s, w) && e.mapping.direction == Bidirectional
    requires ShowsMerge(s, t, e, roles, held)
    ensures RunTimes(t, w, n).roles == roles && RunTimes(t, w, n).held == held
  {
    hide Run, RunTimes, Sound, AtRest, LiveEdges, ShowsMerge, DiffersAt;
    OneRunShowsMerge(s, t, w, e);
    MergeIsUnique(s, t, e, roles, held, Run(t, w).roles, Run(t, w).held);
    RunsAgree(t, w, n);
  }

  /** What an admin does to one membership: grant it natively, or revoke it. */
  function AdminChange(s: State, e: Edge): State {
    if RoleKey(e) in s.roles then s.(roles := s.roles - {RoleKey(e)})
    else s.(roles := s.roles[RoleKey(e) := Native])
  }

  /**
   * From a fixed point, an admin's change on a bidirectional edge reaches Discord and no
   * later run takes it back or touches anything else.
   */
  lemma AdminChangePropagates(s: State, w: World, e: Edge, n: nat)
    requires Sound(s, w) && AtRest(s, w) && n >= 1
    requires e in LiveEdges(s, w) && e.mapping.direction == Bidirectional
    ensures var t := AdminChange(s, e);
            && RunTimes(t, w, n).roles == t.roles
            && RunTimes(t, w, n).held == if RoleKey(e) in t.roles then s.held + {HeldKey(e)} else s.held - {HeldKey(e)}
  {
    var t := AdminChange(s, e);
    hide RunTimes, Sound, AtRest, LiveEdges, Lingering;
    RestingEdgeInStep(s, w, e);
    ChangeSettles(s, t, w, e, n, t.roles,
                  if RoleKey(e) in t.roles then s.held + {HeldKey(e)} else s.held - {HeldKey(e)});
  }

  function DiscordChange(s: State, e: Edge): State {
    s.(held := if HeldKey(e) in s.held then s.held - {HeldKey(e)} else s.held + {HeldKey(e)})
  }

  /** The change asks for a role that only a lingering row of another mapping still records. */
  ghost predicate MaskedAdd(s: State, e: Edge) {
    HeldKey(e) !in s.held && Lingering(s, e)
  }

  /**
   * From a fixed point, a Discord-side change on a bidirectional edge reaches Patrice and
   * stays, with two exceptions that the sync undoes on Discord: removing a natively held role,
   * and adding a role that another active bidirectional mapping still has a row for.
   */
  lemma DiscordChangePropagates(s: State, w: World, e: Edge, n: nat)
    requires Sound(s, w) && AtRest(s, w) && n >= 1
    requires e in LiveEdges(s, w) && e.mapping.direction == Bidirectional
    ensures var t, u := DiscordChange(s, e), RunTimes(DiscordChange(s, e), w, n);
            if Lookup(s.roles, RoleKey(e)) == Some(Native) || MaskedAdd(s, e) then SameRoles(u, s)
            else && u.held == t.held
                 && u.roles == (if HeldKey(e) in t.held then s.roles[RoleKey(e) := Integration]
                                else s.roles - {RoleKey(e)})
  {
    var t := DiscordChange(s, e);
    RestingEdgeInStep(s, w, e);
    DiscordShows(s, e);
    hide RunTimes, Sound, AtRest, LiveEdges, Lingering, ShowsMerge, DiffersAt, DiscordChange;
    ChangeSettles(s, t, w, e, n, RolesAfterDiscord(s, e), HeldAfterDiscord(s, e));
  }

  predicate IsNative(s: State, e: Edge) { Lookup(s.roles, RoleKey(e)) == Some(Native) }

  /** The roles that Patrice ends with after the change, and the memberships Discord does. */
  ghost function RolesAfterDiscord(s: State, e: Edge): map<(Id, Id), Source> {
    if IsNative(s, e) || MaskedAdd(s, e) then s.roles
    else if HeldKey(e) in DiscordChange(s, e).held then s.roles[RoleKey(e) := Integration]
    else s.roles - {RoleKey(e)}
  }

  ghost function HeldAfterDiscord(s: State, e: Edge): set<(Id, Id)> {
    if IsNative(s, e) || MaskedAdd(s, e) then s.held else DiscordChange(s, e).held
  }

  lemma DiscordShows(s: State, e: Edge)
    requires InStep(s, e)
    ensures DiffersAt(s, DiscordChange(s, e), e)
    ensures ShowsMerge(s, DiscordChange(s, e), e, RolesAfterDiscord(s, e), HeldAfterDiscord(s, e))
  {
    hide Lingering;
    assert RoleKey(e) in s.roles ==> s.roles[RoleKey(e)].Native? || s.roles[RoleKey(e)].Integration?;
  }

  /**
   * Exactly: at a membership that is not native, a Discord-side change shows in Patrice after
   * the runs if and only if the user had the role on Discord or no other active bidirectional
   * mapping has a row for it.
   */
  lemma DiscordChangeReachesIff(s: State, w: World, e: Edge, n: nat)
    requires Sound(s, w) && AtRest(s, w) && n >= 1
    requires e in LiveEdges(s, w) && e.mapping.direction == Bidirectional
    requires Lookup(s.roles, RoleKey(e)) != Some(Native)
    ensures var t, u := DiscordChange(s, e), RunTimes(DiscordChange(s, e), w, n);
            (RoleKey(e) in u.roles <==> HeldKey(e) in t.held) <==> HeldKey(e) in s.held || !Lingering(s, e)
  {
    hide RunTimes, Lingering, AtRest;
    DiscordChangePropagates(s, w, e, n);
    RestingEdgeInStep(s, w, e);
  }

  /**
   * An admin revoke does not always win. When both sides show the role, the revoke survives
   * the next run exactly when the loaded baseline already records the role; after a fresh
   * outbound add it does not yet, and the revoke is read as a move by Discord.
   */
  lemma RevokeSurvivesIffRecorded(s: State, w: World, e: Edge)
    requires Sound(s, w) && e in LiveEdges(s, w) && e.mapping.direction == Bidirectional
    requires HeldKey(e) in s.held && RoleKey(e) in s.roles
    ensures RoleKey(e) !in Run(AdminChange(s, e), w).roles <==> RowOf(e) in s.baseline || Lingering(s, e)
  {
    ThreeWayMerge(AdminChange(s, e), w, e);
  }
}
