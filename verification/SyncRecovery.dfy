/** Runs that are cut short: when a later successful run ends where an undisturbed one would have. */
module SyncRecovery {
  import opened Common
  import opened Reconciler
  import opened SyncRun
  import opened SyncTheorems
  import opened SyncResults

  /* ---------- Baseline bits that the run itself takes away ---------- */

  /** The mappings whose rows are still loaded after a run has flagged those of vanished groups. */
  function LastingIds(ms: seq<Mapping>, c: Census): set<Id> {
    set m | m in ms && !m.isBroken && !GroupGone(m, c) && m.direction == Bidirectional :: m.id
  }

  /** A lingering row that flagging leaves loaded. */
  ghost predicate Lasting(s: State, w: World, e: Edge) {
    exists r :: r in s.baseline && r.mappingId in LastingIds(s.mappings, w.census) && Foreign(r, e)
  }

  /**
   * The sides of `e` disagree, no native grant settles them, and the only record of the role is
   * a lingering row of a mapping whose group is gone, which the run flags with its first writes.
   */
  ghost predicate Vanishing(s: State, w: World, e: Edge) {
    && e.mapping.direction == Bidirectional
    && (HeldKey(e) in s.held) != (RoleKey(e) in s.roles)
    && Lookup(s.roles, RoleKey(e)) != Some(Native)
    && RowOf(e) !in s.baseline && Lingering(s, e) && !Lasting(s, w, e)
  }

  ghost predicate StableBits(s: State, w: World) {
    forall e <- LiveEdges(s, w) :: !Vanishing(s, w, e)
  }

  lemma FlaggingKeepsLasting(ms: seq<Mapping>, ms': seq<Mapping>, c: Census)
    requires FlaggedWithin(ms, ms', c)
    ensures LastingIds(ms', c) == LastingIds(ms, c) <= BidirectionalIds(ms') <= BidirectionalIds(ms)
  {
    forall m | m in ms && !m.isBroken && !GroupGone(m, c) ensures m in ms' {
      var i :| 0 <= i < |ms| && ms[i] == m;
      assert ms'[i] == m;
    }
    forall m | m in ms' && !m.isBroken ensures m in ms {
      var i :| 0 <= i < |ms'| && ms'[i] == m;
      assert ms[i] == m;
    }
  }

  /** A partway state keeps the rows that linger, and of their mappings all but the flagged ones. */
  lemma LingeringPartway(s: State, t: State, w: World, e: Edge)
    requires Sound(s, w) && Framed(s, t, w) && e in LiveEdges(s, w)
    ensures Lingering(t, e) ==> Lingering(s, e)
    ensures Lasting(t, w, e) <==> Lasting(s, w, e)
    ensures Lasting(t, w, e) ==> Lingering(t, e)
  {
    FlaggingKeepsLasting(s.mappings, t.mappings, w.census);
    forall r | Foreign(r, e) ensures r in t.baseline <==> r in s.baseline {
      ForeignRowsStay(s, w, e, r);
    }
  }

  /* ---------- One edge ---------- */

  /** How far a run has come at one edge: its two sides and its own baseline row. */
  datatype Bits = Bits(held: bool, role: Option<Source>, own: bool)

  /** The bit loaded for a bidirectional edge; the other directions ignore it. */
  function Loaded(b: Bits, lingering: bool): Option<bool> { Some(b.own || lingering) }

  /** The effects of a decision that are in, Patrice before Discord and baseline. */
  predicate HalfApplied(m: Mapping, b: Bits, was: Option<bool>, b': Bits) {
    var d := Decide(m, b.held, b.role, was);
    && (b'.role == PatriceNext(d, b.role) || b' == b)
    && (b'.held == ExternalNext(d, b.held) || b'.held == b.held)
    && (b'.own == b.held || b'.own == b.own)
  }

  predicate Hangs(m: Mapping, b: Bits, lingering: bool, lasting: bool) {
    && m.direction == Bidirectional && b.held != b.role.Some? && b.role != Some(Native)
    && !b.own && lingering && !lasting
  }

  /**
   * The heart of recovery, on one edge: from a state in which some effects of a plan are in,
   * planning again aims at the same two bits, unless the loaded bit has vanished meanwhile.
   */
  lemma EdgeRecovers(m: Mapping, b: Bits, b': Bits, lingering: bool, lingering': bool, lasting: bool)
    requires (lasting ==> lingering') && (lingering' ==> lingering)
    requires HalfApplied(m, b, Loaded(b, lingering), b')
    requires !Hangs(m, b, lingering, lasting)
    ensures var d := Decide(m, b.held, b.role, Loaded(b, lingering));
            var d' := Decide(m, b'.held, b'.role, Loaded(b', lingering'));
            PatriceNext(d', b'.role) == PatriceNext(d, b.role) && ExternalNext(d', b'.held) == ExternalNext(d, b.held)
    ensures !Hangs(m, b', lingering', lasting)
  {
    assert b.role.Some? ==> b.role.value.Native? || b.role.value.Integration?;
  }

  function BitsAt(s: State, e: Edge): Bits {
    Bits(HeldKey(e) in s.held, Lookup(s.roles, RoleKey(e)), RowOf(e) in s.baseline)
  }

  /** The verdict of an edge, from its bits and what lingers. */
  lemma VerdictFromBits(s: State, w: World, e: Edge)
    requires e in LiveEdges(s, w)
    ensures var b := BitsAt(s, e);
            VerdictOf(e, StateView(s)) == Decide(e.mapping, b.held, b.role, Loaded(b, Lingering(s, e)))
    ensures Vanishing(s, w, e) <==> Hangs(e.mapping, BitsAt(s, e), Lingering(s, e), Lasting(s, w, e))
  {
    if e.mapping.direction == Bidirectional {
      LoadedBit(s, w, e);
    }
  }

  lemma PartwayRecovers(s: State, t: State, w: World, e: Edge)
    requires Sound(s, w) && LiveEdges(t, w) == LiveEdges(s, w)
    requires Partway(s, t, w) && e in LiveEdges(s, w) && !Vanishing(s, w, e)
    ensures NextPatrice(e, StateView(t)) == NextPatrice(e, StateView(s))
    ensures NextExternal(e, StateView(t)) == NextExternal(e, StateView(s))
    ensures !Vanishing(t, w, e)
  {
    VerdictFromBits(s, w, e);
    VerdictFromBits(t, w, e);
    LingeringPartway(s, t, w, e);
    hide Decide, Vanishing, Hangs, Lingering, Lasting, Framed;
    var b, b' := BitsAt(s, e), BitsAt(t, e);
    EdgeRecovers(e.mapping, b, b', Lingering(s, e), Lingering(t, e), Lasting(s, w, e));
  }

  /* ---------- Any interruption, any number of times ---------- */

  /** One attempt at a run: how Discord answers, and how many of the writes happen. */
  datatype Attempt = Attempt(outcomes: seq<Outcome>, writes: nat)

  ghost predicate Feasible(s: State, w: World, a: Attempt) {
    && |a.outcomes| == |StatePlan(s, w).externalOps| && Transient(a.outcomes)
    && a.writes <= |RunSteps(s, w, a.outcomes)|
  }

  /** The state an attempt stops in. */
  ghost function Attempted(s: State, w: World, a: Attempt): State
    requires Feasible(s, w, a)
  {
    Exec(s, RunSteps(s, w, a.outcomes)[..a.writes])
  }

  /**
   * Crash and fault recovery. Whatever point a run stops at, and whichever Discord calls
   * fail on the way without a permanent refusal, a later successful run ends with the roles
   * on both sides that one uninterrupted successful run would have reached.
   */
  lemma CrashRecovery(s: State, w: World, a: Attempt)
    requires Sound(s, w) && StableBits(s, w) && Feasible(s, w, a)
    ensures var t := Attempted(s, w, a);
            Sound(t, w) && StableBits(t, w) && SameRoles(Run(t, w), Run(s, w))
  {
    var t := StoppedRun(s, w, a.outcomes, a.writes);
    hide Run, RunSteps;
    PartwaySound(s, t, w);
    WholeRun(s, w);
    WholeRun(t, w);
    forall e | e in LiveEdges(s, w)
      ensures NextPatrice(e, StateView(t)) == NextPatrice(e, StateView(s))
      ensures NextExternal(e, StateView(t)) == NextExternal(e, StateView(s))
      ensures !Vanishing(t, w, e)
    {
      PartwayRecovers(s, t, w, e);
    }
    AppliedAlike(s, Run(s, w), t, Run(t, w), w);
  }

  /** The attempt that stops right after flagging the mappings of vanished groups. */
  function StopAfterFlags(s: State, w: World): Attempt {
    Attempt(AllDelivered(|StatePlan(s, w).externalOps|), |StatePlan(s, w).brokenMappingIds|)
  }

  lemma FlagsComeFirst(s: State, w: World)
    ensures var a := StopAfterFlags(s, w);
            Feasible(s, w, a) && RunSteps(s, w, a.outcomes)[..a.writes] == Flags(StatePlan(s, w).brokenMappingIds)
  {
    WholeTrace(s, w);
    hide StatePlan, RunSteps;
    PrefixOfSum(Flags(StatePlan(s, w).brokenMappingIds), RunSteps(s, w, StopAfterFlags(s, w).outcomes));
  }

  lemma PrefixOfSum<T>(a: seq<T>, whole: seq<T>)
    requires exists b: seq<T> :: whole == a + b
    ensures |a| <= |whole| && whole[..|a|] == a
  {
  }

  lemma AfterFlags(s: State, w: World) returns (t: State)
    requires Sound(s, w)
    ensures Feasible(s, w, StopAfterFlags(s, w)) && t == Attempted(s, w, StopAfterFlags(s, w))
    ensures t == s.(mappings := t.mappings) && FlaggedWithin(s.mappings, t.mappings, w.census)
    ensures BidirectionalIds(t.mappings) == LastingIds(s.mappings, w.census)
  {
    var ids := StatePlan(s, w).brokenMappingIds;
    FlagsComeFirst(s, w);
    t := Exec(s, Flags(ids));
    FlagPhase(s, ids);
    FlagsOfPlan(s.mappings, t.mappings, w.census);
    hide Exec, Flags, Feasible, StatePlan, BidirectionalIds, LastingIds;
    NoneGoneIds(t.mappings, w.census);
    FlaggingKeepsLasting(s.mappings, t.mappings, w.census);
  }

  lemma NoneGoneIds(ms: seq<Mapping>, c: Census)
    requires forall m <- ms :: m.isBroken || !GroupGone(m, c)
    ensures BidirectionalIds(ms) == LastingIds(ms, c)
  {
  }

  /** On an edge that hangs on a lingering row, losing the row turns the decision around. */
  lemma HangingBitDecides(m: Mapping, b: Bits)
    requires Hangs(m, b, true, false)
    ensures PatriceNext(Decide(m, b.held, b.role, Loaded(b, true)), b.role)
         != PatriceNext(Decide(m, b.held, b.role, Loaded(b, false)), b.role)
  {
    assert b.role.Some? ==> b.role.value.Native? || b.role.value.Integration?;
  }

  lemma AimsDiffer(s: State, t: State, w: World, e: Edge)
    requires e in LiveEdges(s, w) && e in LiveEdges(t, w) && Vanishing(s, w, e)
    requires t == s.(mappings := t.mappings) && BidirectionalIds(t.mappings) == LastingIds(s.mappings, w.census)
    ensures NextPatrice(e, StateView(t)) != NextPatrice(e, StateView(s))
  {
    assert !Lingering(t, e) && BitsAt(t, e) == BitsAt(s, e);
    VerdictFromBits(s, w, e);
    VerdictFromBits(t, w, e);
    hide Decide, LiveEdges;
    HangingBitDecides(e.mapping, BitsAt(s, e));
  }

  lemma DifferentEnds(s: State, s': State, t: State, t': State, w: World, e: Edge)
    requires e in LiveEdges(s, w) && e in LiveEdges(t, w) && Applied(s, s', w) && Applied(t, t', w)
    requires NextPatrice(e, StateView(t)) != NextPatrice(e, StateView(s))
    ensures !SameRoles(t', s')
  {
    assert PatriceDone(s, s', e) && PatriceDone(t, t', e);
  }

  /** Stopping there changes what the next run aims at, if the loaded bit of an edge vanishes. */
  lemma VanishingBitDecides(s: State, w: World, e: Edge)
    requires Sound(s, w) && e in LiveEdges(s, w) && Vanishing(s, w, e)
    ensures Feasible(s, w, StopAfterFlags(s, w))
    ensures !SameRoles(Run(Attempted(s, w, StopAfterFlags(s, w)), w), Run(s, w))
  {
    hide *;
    var t := AfterFlags(s, w);
    PartwaySound(s, t, w);
    AimsDiffer(s, t, w, e);
    WholeRun(s, w);
    WholeRun(t, w);
    DifferentEnds(s, Run(s, w), t, Run(t, w), w, e);
  }

  /**
   * Recovery, exactly: every interrupted run recovers if and only if no edge hangs on a
   * baseline row that the run's own flags take out of use.
   */
  lemma CrashRecoveryIff(s: State, w: World)
    requires Sound(s, w)
    ensures (forall a | Feasible(s, w, a) :: SameRoles(Run(Attempted(s, w, a), w), Run(s, w))) <==> StableBits(s, w)
  {
    hide Run, Vanishing, Feasible, Attempted;
    if StableBits(s, w) {
      forall a | Feasible(s, w, a) ensures SameRoles(Run(Attempted(s, w, a), w), Run(s, w)) {
        CrashRecovery(s, w, a);
      }
    } else {
      var e :| e in LiveEdges(s, w) && Vanishing(s, w, e);
      VanishingBitDecides(s, w, e);
    }
  }

  /** The state after a series of attempts; an attempt that does not fit is skipped. */
  ghost function AfterAttempts(s: State, w: World, attempts: seq<Attempt>): State
    decreases |attempts|
  {
    if attempts == [] then s
    else AfterAttempts(if Feasible(s, w, attempts[0]) then Attempted(s, w, attempts[0]) else s, w, attempts[1..])
  }

  /** Any number of interrupted runs before the successful one changes nothing. */
  lemma {:induction false} RepeatedCrashRecovery(s: State, w: World, attempts: seq<Attempt>)
    requires Sound(s, w) && StableBits(s, w)
    ensures SameRoles(Run(AfterAttempts(s, w, attempts), w), Run(s, w))
    decreases |attempts|
  {
    hide Run, Sound, StableBits, Feasible, Attempted;
    if attempts != [] {
      if Feasible(s, w, attempts[0]) {
        CrashRecovery(s, w, attempts[0]);
        RepeatedCrashRecovery(Attempted(s, w, attempts[0]), w, attempts[1..]);
      } else {
        RepeatedCrashRecovery(s, w, attempts[1..]);
      }
    }
  }

  lemma RepeatedCrashRecoveryIff(s: State, w: World)
    requires Sound(s, w)
    ensures (forall attempts :: SameRoles(Run(AfterAttempts(s, w, attempts), w), Run(s, w))) <==> StableBits(s, w)
  {
    hide Run, Vanishing, Feasible, Attempted;
    if StableBits(s, w) {
      forall attempts ensures SameRoles(Run(AfterAttempts(s, w, attempts), w), Run(s, w)) {
        RepeatedCrashRecovery(s, w, attempts);
      }
    } else {
      var e :| e in LiveEdges(s, w) && Vanishing(s, w, e);
      VanishingBitDecides(s, w, e);
      AfterOne(s, w, StopAfterFlags(s, w));
      assert !SameRoles(Run(AfterAttempts(s, w, [StopAfterFlags(s, w)]), w), Run(s, w));
    }
  }

  lemma AfterOne(s: State, w: World, a: Attempt)
    requires Feasible(s, w, a)
    ensures AfterAttempts(s, w, [a]) == Attempted(s, w, a)
  {
    hide Feasible, Attempted;
    var t := Attempted(s, w, a);
    assert [a][1..] == [];
    assert AfterAttempts(s, w, [a]) == AfterAttempts(t, w, []);
  }
}
