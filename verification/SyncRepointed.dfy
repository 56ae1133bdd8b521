/** The baseline rows that re-pointing a mapping leaves behind, and what they do to other mappings. */
module SyncRepointed {
  import opened Common
  import opened Reconciler
  import opened SyncRun
  import opened SyncTheorems
  import opened SyncResults
  import opened SyncRecovery
  import opened SyncIntent

  /** Pointing mapping `id` at another group clears its broken flag and leaves its baseline rows. */
  function Repoint(s: State, id: Id, groupId: Id): State {
    s.(mappings := seq(|s.mappings|, i requires 0 <= i < |s.mappings| =>
      if s.mappings[i].id == id then s.mappings[i].(groupId := groupId, isBroken := false) else s.mappings[i]))
  }

  /**
   * After re-pointing a bidirectional mapping at a group of its own, its rows linger on the
   * edges of whichever other mapping uses the old group, and no number of runs removes them.
   */
  lemma RepointLeavesRows(s: State, w: World, m: Mapping, groupId: Id, r: BaselineRow, e: Edge, n: nat)
    requires m in s.mappings && m.direction == Bidirectional && r in s.baseline && r.mappingId == m.id && Foreign(r, e)
    requires var t := Repoint(s, m.id, groupId);
             Sound(t, w) && e in LiveEdges(t, w) && !(w.census.anyMembers && groupId !in w.census.knownGroups)
    ensures Lingering(RunTimes(Repoint(s, m.id, groupId), w, n), e)
  {
    var t := Repoint(s, m.id, groupId);
    var i :| 0 <= i < |s.mappings| && s.mappings[i] == m;
    assert t.mappings[i] in t.mappings && t.mappings[i].id == m.id;
    assert r.mappingId in LastingIds(t.mappings, w.census);
    hide RunTimes;
    LastingForever(t, w, e, n);
  }

  lemma {:induction false} LastingForever(s: State, w: World, e: Edge, n: nat)
    requires Sound(s, w) && e in LiveEdges(s, w) && Lasting(s, w, e)
    ensures Lingering(RunTimes(s, w, n), e)
    decreases n
  {
    hide Run, Sound, LiveEdges, Lasting, Lingering;
    LastingAfterRun(s, w, e);
    if n > 0 {
      LastingForever(Run(s, w), w, e, n - 1);
    }
  }

  lemma LastingAfterRun(s: State, w: World, e: Edge)
    requires Sound(s, w) && e in LiveEdges(s, w) && Lasting(s, w, e)
    ensures Sound(Run(s, w), w) && e in LiveEdges(Run(s, w), w) && Lasting(Run(s, w), w, e)
    ensures Lingering(s, e)
  {
    hide Run, Sound, LiveEdges, Lasting, Lingering;
    WholeRun(s, w);
    PartwaySound(s, Run(s, w), w);
    LingeringPartway(s, Run(s, w), w, e);
  }

  /* ---------- Two concrete organizations ---------- */

  // Mapping A used to point at group 1, where mapping B is now; A's old row is still there.
  const MappingA := Mapping("A", "role 1", "group 2", Bidirectional, false, PatriceWins)
  const MappingB := Mapping("B", "role 2", "group 1", Bidirectional, false, PatriceWins)
  const TheLink := Link("user", "member")
  const EdgeB := Edge(MappingB, TheLink)
  const OldRow := BaselineRow("A", "member", "group 1")

  function Organization(held: set<(Id, Id)>): State { State([MappingA, MappingB], map[], held, {OldRow}) }

  function Groups(known: set<Id>): World {
    World([TheLink], Census(true, known, map["role 1" := Active, "role 2" := Active]))
  }

  lemma OldRowLingers(held: set<(Id, Id)>, known: set<Id>)
    requires "group 1" in known
    ensures var s, w := Organization(held), Groups(known);
            Sound(s, w) && EdgeB in LiveEdges(s, w) && Lingering(s, EdgeB) && RowOf(EdgeB) !in s.baseline
  {
    var s, w := Organization(held), Groups(known);
    assert MappingB == s.mappings[1] && TheLink == w.links[0];
    assert MappingA == s.mappings[0];
    EdgesAreLive(s.mappings, w.links, w.census, EdgeB);
    assert "A" in BidirectionalIds(s.mappings);
    assert Foreign(OldRow, EdgeB);
  }

  /** From a fixed point the member gains group 1 in Discord; the run takes it away again. */
  lemma DiscordChangeCanBeReverted() returns (s: State, w: World, e: Edge)
    ensures Sound(s, w) && AtRest(s, w) && e in LiveEdges(s, w) && e.mapping.direction == Bidirectional
    ensures HeldKey(e) !in s.held && Lookup(s.roles, RoleKey(e)) == None
    ensures HeldKey(e) in DiscordChange(s, e).held && HeldKey(e) !in Run(DiscordChange(s, e), w).held
    ensures RoleKey(e) !in Run(DiscordChange(s, e), w).roles
  {
    s, w, e := Organization({}), Groups({"group 1", "group 2"}), EdgeB;
    OldRowLingers({}, {"group 1", "group 2"});
    EmptyOrganizationRests(w);
    assert MaskedAdd(s, e);
    hide Run, RunTimes, AtRest, Sound, LiveEdges, Lingering, BidirectionalIds;
    OneRun(DiscordChange(s, e), w);
    DiscordChangePropagates(s, w, e, 1);
  }

  lemma EmptyOrganizationRests(w: World)
    ensures AtRest(Organization({}), w)
  {
    var s := Organization({});
    NoOps(LiveEdges(s, w), StateView(s));
    forall d | d in LiveEdges(s, w) ensures RowOf(d) != OldRow {
      EdgesAreLive(s.mappings, w.links, w.census, d);
    }
  }

  lemma OneRun(s: State, w: World)
    ensures RunTimes(s, w, 1) == Run(s, w)
  {
    assert RunTimes(s, w, 1) == RunTimes(Run(s, w), w, 0);
  }

  /**
   * Group 2 has vanished. An undisturbed run removes the member from group 1; stopped right
   * after flagging mapping A and run again, it grants role 2 instead.
   */
  lemma RecoveryCanDiffer() returns (s: State, w: World, a: Attempt)
    ensures Sound(s, w) && Feasible(s, w, a)
    ensures !SameRoles(Run(Attempted(s, w, a), w), Run(s, w))
  {
    s, w := Organization({HeldKey(EdgeB)}), Groups({"group 1"});
    a := StopAfterFlags(s, w);
    OldRowLingers({HeldKey(EdgeB)}, {"group 1"});
    assert forall r :: Foreign(r, EdgeB) && r in s.baseline ==> r == OldRow;
    assert "A" !in LastingIds(s.mappings, w.census);
    VanishingBitDecides(s, w, EdgeB);
  }
}
