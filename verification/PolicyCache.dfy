/** The projection cache, keyed by a config version that every request reads afresh. */
module PolicyCache {
  import opened Common
  import opened Cedar
  import opened Policies
  import opened PolicyMeaning
  import opened PolicyResults

  /** The inputs of a projection: the setting, and the active grants of active roles. */
  datatype Config = Config(selfReviewAllowed: bool, grants: seq<Grant>)

  /** The committed configurations in order; the index of one is its config version. */
  type History = h: seq<Config> | h != [] witness [Config(false, [])]

  datatype Entry = Entry(version: nat, policies: seq<Policy>)

  function Fresh(actions: seq<string>, c: Config): Option<seq<Policy>> {
    Project(c.selfReviewAllowed, actions, c.grants)
  }

  /** A projection whose setting and grants were read, in that order, no earlier than `version`. */
  ghost predicate ReadSince(actions: seq<string>, h: History, version: nat, policies: seq<Policy>) {
    exists s: nat, g: nat :: ReadAt(actions, h, version, policies, s, g)
  }

  ghost predicate ReadAt(actions: seq<string>, h: History, version: nat, policies: seq<Policy>, s: nat, g: nat) {
    version <= s <= g < |h| && Project(h[s].selfReviewAllowed, actions, h[g].grants) == Some(policies)
  }

  /* ---------- Interleaved requests ---------- */

  /** Where a request stands between two awaits of `decide`. */
  datatype Phase =
    | Idle
    | Keyed(version: nat)
    | Missed(version: nat)
    | ReadSettings(version: nat, selfReviewAllowed: bool)
    | Projected(version: nat, policies: seq<Policy>)
    | Deciding(version: nat, policies: seq<Policy>)

  datatype State = State(h: History, cache: Option<Entry>, requests: map<Id, Phase>)

  datatype Step =
    | Begin(p: Id)
    | CheckCache(p: Id)
    | LoadSettings(p: Id)
    | LoadGrants(p: Id)
    | Store(p: Id)
    | Finish(p: Id)
    | Commit(config: Config)
    | Invalidate

  function PhaseOf(s: State, p: Id): Phase { if p in s.requests then s.requests[p] else Idle }

  function Move(s: State, p: Id, phase: Phase): State { s.(requests := s.requests[p := phase]) }

  /** One step; a request that is not at the step's await stays where it is. */
  function Next(actions: seq<string>, s: State, step: Step): State {
    match step
    case Begin(p) => if PhaseOf(s, p).Idle? then Move(s, p, Keyed(|s.h| - 1)) else s
    case CheckCache(p) =>
      (match PhaseOf(s, p)
       case Keyed(v) =>
         if s.cache.Some? && s.cache.value.version == v then Move(s, p, Deciding(v, s.cache.value.policies))
         else Move(s, p, Missed(v))
       case _ => s)
    case LoadSettings(p) =>
      (match PhaseOf(s, p)
       case Missed(v) => Move(s, p, ReadSettings(v, Last(s.h).selfReviewAllowed))
       case _ => s)
    case LoadGrants(p) =>
      (match PhaseOf(s, p)
       case ReadSettings(v, selfReview) =>
         var projected := Project(selfReview, actions, Last(s.h).grants);
         // A projection that throws ends the request and stores nothing.
         if projected.Some? then Move(s, p, Projected(v, projected.value)) else Move(s, p, Idle)
       case _ => s)
    case Store(p) =>
      (match PhaseOf(s, p)
       case Projected(v, policies) => Move(s.(cache := Some(Entry(v, policies))), p, Deciding(v, policies))
       case _ => s)
    case Finish(p) => if PhaseOf(s, p).Deciding? then Move(s, p, Idle) else s
    case Commit(config) => s.(h := s.h + [config])
    case Invalidate => s.(cache := None)
  }

  function Run(actions: seq<string>, s: State, steps: seq<Step>): State {
    if steps == [] then s else Next(actions, Run(actions, s, Init(steps)), Last(steps))
  }

  ghost predicate PhaseSound(actions: seq<string>, h: History, phase: Phase) {
    match phase
    case Idle => true
    case Keyed(v) => v < |h|
    case Missed(v) => v < |h|
    case ReadSettings(v, selfReview) => exists s: nat :: v <= s < |h| && h[s].selfReviewAllowed == selfReview
    case Projected(v, policies) => ReadSince(actions, h, v, policies)
    case Deciding(v, policies) => ReadSince(actions, h, v, policies)
  }

  ghost predicate Sound(actions: seq<string>, s: State) {
    && (s.cache.Some? ==> ReadSince(actions, s.h, s.cache.value.version, s.cache.value.policies))
    && (forall p | p in s.requests :: PhaseSound(actions, s.h, s.requests[p]))
  }

  lemma MoreHistory(actions: seq<string>, h: History, c: Config, version: nat, policies: seq<Policy>)
    requires ReadSince(actions, h, version, policies)
    ensures ReadSince(actions, h + [c], version, policies)
  {
    var s: nat, g: nat :| ReadAt(actions, h, version, policies, s, g);
    assert ReadAt(actions, h + [c], version, policies, s, g);
  }

  lemma MoreHistoryPhase(actions: seq<string>, h: History, c: Config, phase: Phase)
    requires PhaseSound(actions, h, phase)
    ensures PhaseSound(actions, h + [c], phase)
  {
    match phase
    case Projected(v, policies) => MoreHistory(actions, h, c, v, policies);
    case Deciding(v, policies) => MoreHistory(actions, h, c, v, policies);
    case ReadSettings(v, selfReview) =>
      var s: nat :| v <= s < |h| && h[s].selfReviewAllowed == selfReview;
      assert (h + [c])[s].selfReviewAllowed == selfReview;
    case _ =>
  }

  lemma StepSound(actions: seq<string>, s: State, step: Step)
    requires Sound(actions, s)
    ensures Sound(actions, Next(actions, s, step))
  {
    hide Project;
    match step
    case Commit(config) =>
      if s.cache.Some? {
        MoreHistory(actions, s.h, config, s.cache.value.version, s.cache.value.policies);
      }
      forall p | p in s.requests ensures PhaseSound(actions, s.h + [config], s.requests[p]) {
        MoreHistoryPhase(actions, s.h, config, s.requests[p]);
      }
    case LoadSettings(p) =>
      hide ReadSince;
      if PhaseOf(s, p).Missed? {
        assert s.h[|s.h| - 1].selfReviewAllowed == Last(s.h).selfReviewAllowed;
      }
    case LoadGrants(p) =>
      if PhaseOf(s, p).ReadSettings? {
        var at := PhaseOf(s, p);
        var r: nat :| at.version <= r < |s.h| && s.h[r].selfReviewAllowed == at.selfReviewAllowed;
        var projected := Project(at.selfReviewAllowed, actions, Last(s.h).grants);
        if projected.Some? {
          assert ReadAt(actions, s.h, at.version, projected.value, r, |s.h| - 1);
          assert ReadSince(actions, s.h, at.version, projected.value);
        }
        hide ReadSince;
      }
    case _ => hide ReadSince;
  }

  /**
   * Under every interleaving of requests, cache drops and committed config writes, a request that
   * read version v decides on a setting and on grants that were each current at version v or later.
   */
  lemma {:induction false} NeverStale(actions: seq<string>, s: State, steps: seq<Step>, p: Id)
    requires s.cache == None && s.requests == map[]
    ensures Sound(actions, Run(actions, s, steps))
    ensures var now := Run(actions, s, steps);
            PhaseOf(now, p).Deciding? ==> ReadSince(actions, now.h, PhaseOf(now, p).version, PhaseOf(now, p).policies)
  {
    if steps != [] {
      NeverStale(actions, s, Init(steps), p);
      hide Sound, Next;
      StepSound(actions, Run(actions, s, Init(steps)), Last(steps));
    }
    assert Sound(actions, Run(actions, s, steps));
  }

  /** If no config write has committed since the version was read, the policies are a fresh projection. */
  lemma CurrentIsFresh(actions: seq<string>, h: History, policies: seq<Policy>)
    requires ReadSince(actions, h, |h| - 1, policies)
    ensures Fresh(actions, Last(h)) == Some(policies)
  {
  }

  /**
   * The decision of a request that no config write overtook is the one its configuration's rows
   * call for, whether it was served from the cache or projected.
   */
  lemma UndisturbedDecision(actions: seq<string>, s: State, steps: seq<Step>, p: Id, q: Request)
    requires s.cache == None && s.requests == map[]
    requires q.resource.kind != Role && WellTyped(q.attrs)
    requires var now := Run(actions, s, steps); PhaseOf(now, p).Deciding? && PhaseOf(now, p).version == |now.h| - 1
    ensures var now := Run(actions, s, steps);
            IsAuthorized(PhaseOf(now, p).policies, EnvOf(q)) <==>
            Allowed(Last(now.h).selfReviewAllowed, actions, Last(now.h).grants, q)
  {
    hide Run, Allowed, IsAuthorized, EnvOf, Project, Applies;
    NeverStale(actions, s, steps, p);
    var now := Run(actions, s, steps);
    CurrentIsFresh(actions, now.h, PhaseOf(now, p).policies);
    DecisionMeansRows(Last(now.h).selfReviewAllowed, actions, Last(now.h).grants, q);
  }

  /* ---------- One request on its own ---------- */

  /** The steps of a request up to its decision, with nothing in between. */
  function Uninterrupted(actions: seq<string>, s: State, p: Id): State {
    var begun := Next(actions, s, Begin(p));
    var checked := Next(actions, begun, CheckCache(p));
    var loaded := Next(actions, Next(actions, checked, LoadSettings(p)), LoadGrants(p));
    Next(actions, loaded, Store(p))
  }

  /**
   * Every request comes to its end: with the cached policies if they are of the current version, else
   * with a fresh projection, which it stores; and with none, storing nothing, if projecting throws.
   */
  lemma RequestCompletes(actions: seq<string>, s: State, p: Id)
    requires PhaseOf(s, p).Idle?
    ensures var done := Uninterrupted(actions, s, p);
            var version, current := |s.h| - 1, Fresh(actions, Last(s.h));
            && done.h == s.h && (forall q | q != p :: PhaseOf(done, q) == PhaseOf(s, q))
            && (if s.cache.Some? && s.cache.value.version == version
                then PhaseOf(done, p) == Deciding(version, s.cache.value.policies) && done.cache == s.cache
                else if current.Some?
                then PhaseOf(done, p) == Deciding(version, current.value)
                     && done.cache == Some(Entry(version, current.value))
                else PhaseOf(done, p) == Idle && done.cache == s.cache)
            && PhaseOf(Next(actions, done, Finish(p)), p) == Idle
  {
    hide Project;
  }

  /** Dropping the cache, or committing a configuration, makes the next request project anew. */
  lemma DropsAreSeen(actions: seq<string>, s: State, p: Id, config: Config)
    requires PhaseOf(s, p).Idle? && (s.cache.Some? ==> s.cache.value.version < |s.h|)
    ensures var dropped := Next(actions, s, Invalidate);
            && dropped == s.(cache := None)
            && (Fresh(actions, Last(s.h)).Some? ==>
                  PhaseOf(Uninterrupted(actions, dropped, p), p) ==
                  Deciding(|s.h| - 1, Fresh(actions, Last(s.h)).value))
    ensures var committed := Next(actions, s, Commit(config));
            && committed == s.(h := s.h + [config])
            && (Fresh(actions, config).Some? ==>
                  PhaseOf(Uninterrupted(actions, committed, p), p) == Deciding(|s.h|, Fresh(actions, config).value))
  {
    hide Project, Uninterrupted;
    RequestCompletes(actions, Next(actions, s, Invalidate), p);
    RequestCompletes(actions, Next(actions, s, Commit(config)), p);
  }

  /* ---------- The service object ---------- */

  class AccessService {
    var cache: Option<Entry>

    ghost predicate Valid(actions: seq<string>, h: History)
      reads this
    {
      cache.Some? ==> ReadSince(actions, h, cache.value.version, cache.value.policies)
    }

    constructor ()
      ensures cache == None
    {
      cache := None;
    }

    /** Uses the cached projection of this version, or projects and stores it. */
    method GetPolicies(actions: seq<string>, configVersion: nat, config: Config, ghost h: History)
      returns (policies: Option<seq<Policy>>)
      requires Valid(actions, h) && configVersion == |h| - 1 && config == Last(h)
      modifies this
      ensures Valid(actions, h)
      ensures policies == Fresh(actions, config)
      ensures policies.Some? ==> cache == Some(Entry(configVersion, policies.value))
      ensures policies.None? ==> cache == old(cache)
    {
      if cache.Some? && cache.value.version == configVersion {
        CurrentIsFresh(actions, h, cache.value.policies);
        return Some(cache.value.policies);
      }
      policies := ProjectPolicies(actions, config);
      if policies.Some? {
        cache := Some(Entry(configVersion, policies.value));
        assert ReadAt(actions, h, configVersion, policies.value, configVersion, configVersion);
      }
    }

    /** The statics and one policy per grant, in order; an unprojectable grant throws. */
    static method ProjectPolicies(actions: seq<string>, config: Config) returns (policies: Option<seq<Policy>>)
      ensures policies == Fresh(actions, config)
    {
      var compiled: seq<Policy> := [];
      for i := 0 to |config.grants|
        invariant |compiled| == i
        invariant forall k :: 0 <= k < i ==> GrantToPolicy(config.grants[k]) == Some(compiled[k])
      {
        var policy := GrantToPolicy(config.grants[i]);
        if policy.None? {
          assert config.grants[i] in config.grants;
          return None;
        }
        compiled := compiled + [policy.value];
      }
      assert compiled == Compiled(config.grants);
      var statics := StaticPolicies(config.selfReviewAllowed, actions);
      policies := Some(statics + compiled);
    }

    method Invalidate()
      modifies this
      ensures cache == None
    {
      cache := None;
    }

    /** A whole request without a concurrent config write; None when the projection throws. */
    method Decide(actions: seq<string>, q: Request, configVersion: nat, config: Config, ghost h: History)
      returns (allowed: Option<bool>)
      requires Valid(actions, h) && configVersion == |h| - 1 && config == Last(h)
      requires q.resource.kind != Role && WellTyped(q.attrs)
      modifies this
      ensures Valid(actions, h)
      ensures allowed.Some? <==> Fresh(actions, config).Some?
      ensures allowed.Some? ==> (allowed.value <==> Allowed(config.selfReviewAllowed, actions, config.grants, q))
    {
      hide Allowed, IsAuthorized, EnvOf, Project;
      var policies := GetPolicies(actions, configVersion, config, h);
      if policies.None? {
        return None;
      }
      var answer := PolicyMeaning.Decide(q, policies.value);
      DecisionMeansRows(config.selfReviewAllowed, actions, config.grants, q);
      return Some(answer);
    }
  }
}
