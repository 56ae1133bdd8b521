/** The status min-rule: how a task's cached status is derived from its openings and slots. */
module TaskStatus {
  import opened Common

  datatype SubmissionState = Review | Revising | Approved | Rejected

  datatype Status = Open | Claimed | Revising | Review | Approved {
    /** Position in the order open < claimed < revising < review < approved. */
    function Rank(): nat {
      match this
      case Open => 0
      case Claimed => 1
      case Revising => 2
      case Review => 3
      case Approved => 4
    }
  }

  /** What a slot adds to the minimum; a rejected submission adds nothing. */
  function Contribution(state: Option<SubmissionState>): Option<Status> {
    match state
    case None => Some(Claimed)
    case Some(Review) => Some(Status.Review)
    case Some(Revising) => Some(Status.Revising)
    case Some(Approved) => Some(Status.Approved)
    case Some(Rejected) => None
  }

  /**
   * The min-rule as a decision table over the number of slots and the set of states the slots
   * are in (`None` for a slot without a submission).
   */
  function MinRule(openings: int, closed: bool, slots: nat, states: set<Option<SubmissionState>>): Status {
    if !closed && slots < openings then Open
    else if None in states then Claimed
    else if Some(SubmissionState.Revising) in states then Status.Revising
    else if Some(SubmissionState.Review) in states then Status.Review
    else if Some(SubmissionState.Approved) in states then Status.Approved
    else Claimed
  }

  /** Some open spot or some slot contributes `status`. */
  predicate Contributes(openings: int, closed: bool, states: seq<Option<SubmissionState>>, status: Status) {
    || (status == Open && !closed && |states| < openings)
    || exists s <- states :: Contribution(s) == Some(status)
  }

  /**
   * The table is the minimum it is named after: the lowest contribution, or `claimed` when nothing
   * contributes. It therefore never says `approved` unless a slot is approved and no other
   * contributing slot is behind it.
   */
  lemma MinRuleIsMinimum(openings: int, closed: bool, states: seq<Option<SubmissionState>>)
    ensures var r := MinRule(openings, closed, |states|, set s | s in states);
            && (Contributes(openings, closed, states, r)
                || (r == Claimed && forall c :: !Contributes(openings, closed, states, c)))
            && (forall c :: Contributes(openings, closed, states, c) ==> r.Rank() <= c.Rank())
  {
  }

  /** `STATUS_RANK` reduction over the pushed contributions. */
  method ComputeMinRuleStatus(openings: int, closed: bool, states: seq<Option<SubmissionState>>)
    returns (status: Status)
    ensures status == MinRule(openings, closed, |states|, set s | s in states)
  {
    var contributions: seq<Status> := [];
    var openSpots := if closed then 0 else if openings - |states| > 0 then openings - |states| else 0;
    for i := 0 to openSpots
      invariant |contributions| == i && forall c <- contributions :: c == Open
    {
      contributions := contributions + [Open];
    }
    if openSpots > 0 {
      assert contributions[0] in contributions;
    }
    for i := 0 to |states|
      invariant Pushed(openings, closed, states, i, contributions)
    {
      ghost var before := contributions;
      match states[i] {
        case None => contributions := contributions + [Claimed];
        case Some(Rejected) =>
        case Some(Review) => contributions := contributions + [Status.Review];
        case Some(Revising) => contributions := contributions + [Status.Revising];
        case Some(Approved) => contributions := contributions + [Status.Approved];
      }
      assert Contribution(states[i]).None? ==> contributions == before;
      assert Contribution(states[i]).Some? ==> contributions == before + [Contribution(states[i]).value];
      PushedStep(openings, closed, states, i, before, contributions);
    }
    PushedAll(openings, closed, states, contributions);
    MinRuleIsMinimum(openings, closed, states);
    if |contributions| == 0 {
      assert forall c :: c !in contributions;
      return Claimed;
    }
    status := contributions[0];
    for i := 1 to |contributions|
      invariant status in contributions
      invariant forall k :: 0 <= k < i ==> status.Rank() <= contributions[k].Rank()
    {
      if contributions[i].Rank() < status.Rank() {
        status := contributions[i];
      }
    }
    SameRank(status, MinRule(openings, closed, |states|, set s | s in states));
  }

  /** The contributions pushed for the open spots and the first `i` slots. */
  ghost predicate Pushed(
    openings: int, closed: bool, states: seq<Option<SubmissionState>>, i: nat, contributions: seq<Status>)
    requires i <= |states|
  {
    forall c :: c in contributions <==>
      || (c == Open && !closed && |states| < openings)
      || exists k :: 0 <= k < i && Contribution(states[k]) == Some(c)
  }

  lemma PushedStep(openings: int, closed: bool, states: seq<Option<SubmissionState>>, i: nat,
                   before: seq<Status>, after: seq<Status>)
    requires i < |states| && Pushed(openings, closed, states, i, before)
    requires var c := Contribution(states[i]); after == if c.None? then before else before + [c.value]
    ensures Pushed(openings, closed, states, i + 1, after)
  {
  }

  lemma PushedAll(openings: int, closed: bool, states: seq<Option<SubmissionState>>, contributions: seq<Status>)
    requires Pushed(openings, closed, states, |states|, contributions)
    ensures forall c :: c in contributions <==> Contributes(openings, closed, states, c)
  {
  }

  lemma SameRank(a: Status, b: Status)
    requires a.Rank() == b.Rank()
    ensures a == b
  {
  }

  /** The rule that a task is created with. */
  function ComputeStatusCache(activeClaimants: int, openings: int, claimsClosed: bool): (r: Status)
    ensures r == Open || r == Claimed
  {
    var hasFreeOpening := !claimsClosed && activeClaimants < openings;
    if hasFreeOpening then Open else Claimed
  }

  /** At creation, and as long as no slot has submitted, the two rules agree. */
  lemma CreationRuleAgrees(openings: int, closed: bool, states: seq<Option<SubmissionState>>)
    requires forall s <- states :: s == None
    ensures ComputeStatusCache(|states|, openings, closed)
         == MinRule(openings, closed, |states|, set s | s in states)
  {
  }

  /** The order in which the slots are read does not matter. */
  lemma OrderIrrelevant(openings: int, closed: bool, a: seq<Option<SubmissionState>>, b: seq<Option<SubmissionState>>)
    requires multiset(a) == multiset(b)
    ensures MinRule(openings, closed, |a|, set s | s in a) == MinRule(openings, closed, |b|, set s | s in b)
  {
    assert |multiset(a)| == |a| && |multiset(b)| == |b|;
    forall s ensures s in a <==> s in b {
      assert s in a <==> s in multiset(a);
      assert s in b <==> s in multiset(b);
    }
    assert (set s | s in a) == (set s | s in b);
  }
}
