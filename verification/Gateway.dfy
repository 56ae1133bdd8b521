/** The Discord Gateway connection state machine. */
module Gateway {
  import opened Common

  datatype GatewayState = Disconnected | Connecting | Identifying | Ready | Resuming

  datatype Context = Context(
    state: GatewayState, sessionId: Option<Id>, resumeGatewayUrl: Option<string>, sequenceNumber: Option<int>,
    heartbeatInterval: Option<int>, missedHeartbeats: nat, reconnectAttempt: nat, isNewSession: bool)

  datatype Event =
    | OPEN
    | HELLO(heartbeatInterval: int)
    | READY(sessionId: Id, resumeGatewayUrl: string)
    | RESUMED
    | HEARTBEAT_ACK
    | HEARTBEAT_MISSED
    | CLOSE(code: int)
    | DISPATCH(number: int, eventName: string, data: string)
    | INVALID_SESSION(resumable: bool)

  datatype Action =
    | SEND_IDENTIFY(token: string)
    | SEND_RESUME(token: string, sessionId: Id, resumeSeq: int)
    | SEND_HEARTBEAT(heartbeatSeq: Option<int>)
    | START_HEARTBEAT(intervalMs: int)
    | SCHEDULE_RECONNECT(delayMs: real)
    | EMIT_MEMBER_EVENT(eventName: string, data: string)
    | TRIGGER_RECONCILE
    | EMIT_HEALTH(healthy: bool)

  const NON_RESUMABLE_CODES: set<int> := {4004, 4010, 4011, 4012, 4013, 4014}
  const BASE_RECONNECT_MS: real := 1000.0
  const MAX_RECONNECT_MS: real := 30000.0
  const MEMBER_EVENTS: set<string> :=
    {"GUILD_MEMBER_ADD", "GUILD_MEMBER_UPDATE", "GUILD_MEMBER_REMOVE",
     "GUILD_ROLE_CREATE", "GUILD_ROLE_UPDATE", "GUILD_ROLE_DELETE"}

  function InitialContext(): Context { Context(Disconnected, None, None, None, None, 0, 0, false) }

  /** A value of `Math.random()`. */
  type Random = r: real | 0.0 <= r < 1.0

  function Pow2(n: nat): (r: real)
    ensures r >= 1.0
  {
    if n == 0 then 1.0 else 2.0 * Pow2(n - 1)
  }

  function ReconnectDelay(attempt: nat, random: Random): (delay: real)
    ensures BASE_RECONNECT_MS <= delay <= MAX_RECONNECT_MS
    ensures BASE_RECONNECT_MS * Pow2(attempt) <= MAX_RECONNECT_MS ==> BASE_RECONNECT_MS * Pow2(attempt) <= delay
    ensures BASE_RECONNECT_MS * Pow2(attempt) > MAX_RECONNECT_MS ==> delay == MAX_RECONNECT_MS
  {
    var wait := BASE_RECONNECT_MS * Pow2(attempt) + random * 1000.0;
    if wait < MAX_RECONNECT_MS then wait else MAX_RECONNECT_MS
  }

  predicate Truthy(id: Option<Id>) { id.Some? && id.value != "" }

  /** One event: the next context and the actions that the caller performs, in order. */
  function Handle(ctx: Context, event: Event, token: string, random: Random): (Context, seq<Action>) {
    match event
    case OPEN => (ctx.(state := Connecting), [])
    case HELLO(interval) =>
      var next := ctx.(heartbeatInterval := Some(interval));
      var start := [START_HEARTBEAT(interval), SEND_HEARTBEAT(ctx.sequenceNumber)];
      if Truthy(ctx.sessionId) && ctx.sequenceNumber.Some? && 0 !in NON_RESUMABLE_CODES
      then (next.(state := Resuming, isNewSession := false),
            start + [SEND_RESUME(token, ctx.sessionId.value, ctx.sequenceNumber.value)])
      else (next.(state := Identifying, isNewSession := true), start + [SEND_IDENTIFY(token)])
    case READY(sessionId, url) =>
      (ctx.(state := Ready, sessionId := Some(sessionId), resumeGatewayUrl := Some(url), reconnectAttempt := 0,
            isNewSession := true),
       [TRIGGER_RECONCILE, EMIT_HEALTH(true)])
    case RESUMED => (ctx.(state := Ready, reconnectAttempt := 0, isNewSession := false), [EMIT_HEALTH(true)])
    case HEARTBEAT_ACK => (ctx.(missedHeartbeats := 0), [])
    case HEARTBEAT_MISSED =>
      if ctx.missedHeartbeats + 1 >= 3
      then (ctx.(state := Disconnected, missedHeartbeats := 0, reconnectAttempt := ctx.reconnectAttempt + 1),
            [SCHEDULE_RECONNECT(ReconnectDelay(ctx.reconnectAttempt, random)), EMIT_HEALTH(false)])
      else (ctx.(missedHeartbeats := ctx.missedHeartbeats + 1), [])
    case CLOSE(code) =>
      var kept := if code in NON_RESUMABLE_CODES then ctx.(sessionId := None, sequenceNumber := None) else ctx;
      (kept.(state := Disconnected, missedHeartbeats := 0, reconnectAttempt := ctx.reconnectAttempt + 1),
       [SCHEDULE_RECONNECT(ReconnectDelay(ctx.reconnectAttempt, random)), EMIT_HEALTH(false)])
    case DISPATCH(number, name, data) =>
      (ctx.(sequenceNumber := Some(number)), if name in MEMBER_EVENTS then [EMIT_MEMBER_EVENT(name, data)] else [])
    case INVALID_SESSION(resumable) =>
      var kept := if resumable then ctx else ctx.(sessionId := None, sequenceNumber := None);
      (kept.(state := Identifying, isNewSession := true), [SCHEDULE_RECONNECT(1000.0 + random * 4000.0)])
  }

  /* ---------- Runs ---------- */

  /** An event with the random number drawn while handling it. */
  datatype Input = Input(event: Event, random: Random)

  function After(token: string, ins: seq<Input>): Context {
    if ins == [] then InitialContext()
    else Handle(After(token, Init(ins)), Last(ins).event, token, Last(ins).random).0
  }

  /** The actions of the last event of a run. */
  function LastActions(token: string, ins: seq<Input>): seq<Action>
    requires ins != []
  {
    Handle(After(token, Init(ins)), Last(ins).event, token, Last(ins).random).1
  }

  function Emitted(token: string, ins: seq<Input>): seq<Action> {
    if ins == [] then [] else Emitted(token, Init(ins)) + LastActions(token, ins)
  }

  /* ---------- What a RESUME may claim, told from the events alone ---------- */

  function LastSession(ins: seq<Input>): Option<Id> {
    if ins == [] then None
    else if Last(ins).event.READY? then Some(Last(ins).event.sessionId)
    else LastSession(Init(ins))
  }

  /** The sequence number of the last DISPATCH since the last READY. */
  function LastSeq(ins: seq<Input>): Option<int> {
    if ins == [] || Last(ins).event.READY? then None
    else if Last(ins).event.DISPATCH? then Some(Last(ins).event.number)
    else LastSeq(Init(ins))
  }

  /** Every READY after the first `n` events found no sequence number recorded. */
  predicate CleanSince(token: string, n: nat, ins: seq<Input>) {
    |ins| > n ==>
      CleanSince(token, n, Init(ins))
      && (Last(ins).event.READY? ==> After(token, Init(ins)).sequenceNumber.None?)
  }

  predicate CleanReadies(token: string, ins: seq<Input>) { CleanSince(token, 0, ins) }

  lemma {:induction false} SessionIsLast(token: string, ins: seq<Input>)
    ensures After(token, ins).sessionId.Some? ==> After(token, ins).sessionId == LastSession(ins)
  {
    if ins != [] {
      SessionIsLast(token, Init(ins));
    }
  }

  lemma {:induction false} SequenceIsLast(token: string, ins: seq<Input>)
    requires CleanReadies(token, ins)
    ensures After(token, ins).sessionId.Some? && After(token, ins).sequenceNumber.Some? ==>
              After(token, ins).sequenceNumber == LastSeq(ins)
  {
    if ins != [] {
      SequenceIsLast(token, Init(ins));
    }
  }

  /** A RESUME that names the last session and the last dispatch within it. */
  predicate ResumesRight(ins: seq<Input>, a: Action) {
    a.SEND_RESUME? ==> LastSession(ins) == Some(a.sessionId) && LastSeq(ins) == Some(a.resumeSeq)
  }

  predicate LastResumeRight(token: string, ins: seq<Input>) {
    ins != [] ==> forall a <- LastActions(token, ins) :: ResumesRight(Init(ins), a)
  }

  /**
   * In every run whose READYs are clean, each RESUME carries the session of the last READY and the
   * sequence number of the last DISPATCH since it.
   */
  lemma CleanResumeIsExact(token: string, ins: seq<Input>)
    requires ins != [] && CleanReadies(token, Init(ins))
    ensures LastResumeRight(token, ins)
  {
    SessionIsLast(token, Init(ins));
    SequenceIsLast(token, Init(ins));
  }

  /* ---------- The same, from what passes over the wire ---------- */

  /** What the other side owes: nothing, the answer to an IDENTIFY or to a RESUME, or events. */
  datatype Phase = Idle | AwaitingReady | AwaitingResumed | Established

  predicate SendsResume(acts: seq<Action>) { exists a <- acts :: a.SEND_RESUME? }

  /** Told from the events received and, at a HELLO, from what is sent in reply. */
  function PhaseAfter(token: string, ins: seq<Input>): Phase {
    if ins == [] then Idle else NextPhase(PhaseAfter(token, Init(ins)), Last(ins).event, LastActions(token, ins))
  }

  function NextPhase(phase: Phase, event: Event, reply: seq<Action>): Phase {
    match event
    case HELLO(_) => if SendsResume(reply) then AwaitingResumed else AwaitingReady
    case READY(_, _) => Established
    case RESUMED => Established
    case OPEN => Idle
    case CLOSE(_) => Idle
    case INVALID_SESSION(_) => Idle
    case _ => phase
  }

  /**
   * Discord keeps to the protocol: READY names a session and answers an outstanding IDENTIFY,
   * RESUMED answers an outstanding RESUME, and dispatches come only on an established session or
   * as the replay that a RESUME asked for.
   */
  predicate Conforming(token: string, ins: seq<Input>) {
    ins != [] ==> Conforming(token, Init(ins)) && Expected(PhaseAfter(token, Init(ins)), Last(ins).event)
  }

  predicate Expected(phase: Phase, event: Event) {
    && (event.READY? ==> phase == AwaitingReady && event.sessionId != "")
    && (event.RESUMED? ==> phase == AwaitingResumed)
    && (event.DISPATCH? ==> phase == Established || phase == AwaitingResumed)
  }

  /** A position is recorded only with its session, and not while READY is awaited. */
  predicate InPhase(phase: Phase, ctx: Context) {
    && (ctx.sequenceNumber.Some? || phase == Established || phase == AwaitingResumed ==> Truthy(ctx.sessionId))
    && (phase == AwaitingReady ==> ctx.sequenceNumber.None?)
  }

  lemma PhaseStep(phase: Phase, ctx: Context, event: Event, token: string, r: Random)
    requires InPhase(phase, ctx) && Expected(phase, event)
    ensures InPhase(NextPhase(phase, event, Handle(ctx, event, token, r).1), Handle(ctx, event, token, r).0)
  {
    if event.HELLO? {
      HelloReply(ctx, event.heartbeatInterval, token, r);
    }
    hide SendsResume, ReconnectDelay;
  }

  /** A reply to HELLO resumes exactly if a session and a position are recorded. */
  lemma HelloReply(ctx: Context, interval: int, token: string, r: Random)
    ensures SendsResume(Handle(ctx, HELLO(interval), token, r).1) <==> Truthy(ctx.sessionId) && ctx.sequenceNumber.Some?
  {
    var acts := Handle(ctx, HELLO(interval), token, r).1;
    assert |acts| == 3 && !acts[0].SEND_RESUME? && !acts[1].SEND_RESUME?;
    assert acts[2].SEND_RESUME? ==> acts[2] in acts;
  }

  lemma {:induction false} ConformingIsClean(token: string, ins: seq<Input>)
    requires Conforming(token, ins)
    ensures CleanReadies(token, ins) && InPhase(PhaseAfter(token, ins), After(token, ins))
  {
    if ins != [] {
      ConformingIsClean(token, Init(ins));
      PhaseStep(PhaseAfter(token, Init(ins)), After(token, Init(ins)), Last(ins).event, token, Last(ins).random);
      hide Handle, NextPhase;
    }
  }

  /**
   * In every run that conforms to the protocol, each RESUME names the session of the last READY
   * and the sequence number of the last DISPATCH since it.
   */
  lemma ResumeIsExact(token: string, ins: seq<Input>)
    requires ins != [] && Conforming(token, Init(ins))
    ensures LastResumeRight(token, ins)
  {
    hide LastResumeRight;
    ConformingIsClean(token, Init(ins));
    CleanResumeIsExact(token, ins);
  }

  /** The connection drops, opens again and is greeted. */
  function DropAndReturn(r: Random): seq<Input> { [Input(CLOSE(1006), r), Input(OPEN, r), Input(HELLO(45000), r)] }

  /**
   * A READY that finds a sequence number recorded leaves a wrong RESUME within reach: the next
   * drop and HELLO resume the new session at a position of the old one.
   */
  lemma UncleanReadyResumesWrong(token: string, ins: seq<Input>, session: Id, url: string, r: Random)
    requires session != "" && After(token, ins).sequenceNumber.Some?
    ensures !LastResumeRight(token, ins + [Input(READY(session, url), r)] + DropAndReturn(r))
  {
    hide After, ReconnectDelay, LastSession, LastSeq, LastActions, Pow2;
    var i0 := ins + [Input(READY(session, url), r)];
    var i1 := i0 + [Input(CLOSE(1006), r)];
    var i2 := i1 + [Input(OPEN, r)];
    var i3 := i2 + [Input(HELLO(45000), r)];
    assert i3 == ins + [Input(READY(session, url), r)] + DropAndReturn(r);
    Snoc(token, ins, Input(READY(session, url), r));
    Snoc(token, i0, Input(CLOSE(1006), r));
    Snoc(token, i1, Input(OPEN, r));
    Snoc(token, i2, Input(HELLO(45000), r));
    var resume := SEND_RESUME(token, session, After(token, ins).sequenceNumber.value);
    assert LastActions(token, i3)[2] == resume;
    assert resume in LastActions(token, i3) && !ResumesRight(i2, resume);
  }

  /** One more event. */
  lemma Snoc(token: string, ins: seq<Input>, i: Input)
    ensures var more := ins + [i];
            && Init(more) == ins
            && (After(token, more), LastActions(token, more)) == Handle(After(token, ins), i.event, token, i.random)
            && LastSeq(more) == (if i.event.READY? then None
                                 else if i.event.DISPATCH? then Some(i.event.number)
                                 else LastSeq(ins))
  {
  }

  /** However the run goes on, with clean READYs from here, every RESUME is right. */
  ghost predicate ResumesRightFrom(token: string, base: seq<Input>) {
    forall more: seq<Input> | CleanSince(token, |base|, base + more) ::
      more == [] || LastResumeRight(token, base + more)
  }

  lemma {:induction false} CleanThrough(token: string, n: nat, ins: seq<Input>)
    requires n <= |ins| && CleanReadies(token, ins[..n]) && CleanSince(token, n, ins)
    ensures CleanReadies(token, ins)
  {
    if |ins| > n {
      assert Init(ins)[..n] == ins[..n];
      CleanThrough(token, n, Init(ins));
    } else {
      assert ins[..n] == ins;
    }
  }

  lemma DropIsClean(token: string, base: seq<Input>, r: Random)
    ensures CleanSince(token, |base|, base + DropAndReturn(r))
  {
    var i1 := base + [Input(CLOSE(1006), r)];
    var i2 := i1 + [Input(OPEN, r)];
    var i3 := i2 + [Input(HELLO(45000), r)];
    assert i3 == base + DropAndReturn(r);
    assert Init(i1) == base && Init(i2) == i1 && Init(i3) == i2;
    hide After;
    assert CleanSince(token, |base|, base) && CleanSince(token, |base|, i1) && CleanSince(token, |base|, i2);
  }

  /**
   * The exact condition: after a run with clean READYs, accepting a further READY keeps every later
   * RESUME right if and only if no sequence number is recorded when it arrives.
   */
  lemma ResumeRightIff(token: string, ins: seq<Input>, session: Id, url: string, r: Random)
    requires CleanReadies(token, ins) && session != ""
    ensures ResumesRightFrom(token, ins + [Input(READY(session, url), r)]) <==> After(token, ins).sequenceNumber.None?
  {
    var base := ins + [Input(READY(session, url), r)];
    if After(token, ins).sequenceNumber.None? {
      assert Init(base) == ins;
      assert CleanReadies(token, base);
      forall more: seq<Input> | more != [] && CleanSince(token, |base|, base + more)
        ensures LastResumeRight(token, base + more)
      {
        assert (base + more)[..|base|] == base;
        CleanThrough(token, |base|, base + more);
        CleanResumeIsExact(token, base + more);
      }
    } else {
      UncleanReadyResumesWrong(token, ins, session, url, r);
      DropIsClean(token, base, r);
      assert DropAndReturn(r) != [];
    }
  }

  /** READY arrives only while identifying, DISPATCH only while ready or resuming. */
  predicate Orderly(token: string, ins: seq<Input>) {
    ins != [] ==>
      Orderly(token, Init(ins))
      && (Last(ins).event.READY? ==> After(token, Init(ins)).state.Identifying?)
      && (Last(ins).event.DISPATCH? ==> After(token, Init(ins)).state.Ready? || After(token, Init(ins)).state.Resuming?)
  }

  /**
   * That the machine's own state admits the event is not enough: a resumable INVALID_SESSION leaves
   * it identifying without an IDENTIFY sent, and a READY fed to it there finds the old position.
   * The connection service never feeds one: there it only reconnects, and the next HELLO resumes.
   */
  lemma OrderlyRunCanResumeWrong(token: string)
    returns (ins: seq<Input>)
    ensures Orderly(token, ins) && !LastResumeRight(token, ins)
  {
    hide After, Orderly, ReconnectDelay, Pow2, LastActions, LastResumeRight;
    var r: Random := 0.0;
    assert Orderly(token, []) && After(token, []) == InitialContext() by { NoInput(token); }
    var i1 := Step(token, [], Input(OPEN, r));
    var i2 := Step(token, i1, Input(HELLO(45000), r));
    var i3 := Step(token, i2, Input(READY("a", "url"), r));
    var i4 := Step(token, i3, Input(DISPATCH(5, "MESSAGE_CREATE", ""), r));
    var i5 := Step(token, i4, Input(INVALID_SESSION(true), r));
    UncleanReadyResumesWrong(token, i5, "b", "url", r);
    var i6 := Step(token, i5, Input(READY("b", "url"), r));
    var i7 := Step(token, i6, Input(CLOSE(1006), r));
    var i8 := Step(token, i7, Input(OPEN, r));
    ins := Step(token, i8, Input(HELLO(45000), r));
    assert ins == i5 + [Input(READY("b", "url"), r)] + DropAndReturn(r);
  }

  lemma NoInput(token: string)
    ensures Orderly(token, []) && After(token, []) == InitialContext()
  {
  }

  /** One more event of an orderly run. */
  lemma Step(token: string, ins: seq<Input>, i: Input) returns (more: seq<Input>)
    requires Orderly(token, ins)
    requires i.event.READY? ==> After(token, ins).state.Identifying?
    requires i.event.DISPATCH? ==> After(token, ins).state.Ready?
    ensures more == ins + [i] && Orderly(token, more)
    ensures After(token, more) == Handle(After(token, ins), i.event, token, i.random).0
  {
    more := ins + [i];
    assert Init(more) == ins && Last(more) == i;
  }

  /* ---------- Reconciles and reconnects ---------- */

  function Reconciles(acts: seq<Action>): nat {
    if acts == [] then 0 else Reconciles(Init(acts)) + if Last(acts).TRIGGER_RECONCILE? then 1 else 0
  }

  function Readies(ins: seq<Input>): nat {
    if ins == [] then 0 else Readies(Init(ins)) + if Last(ins).event.READY? then 1 else 0
  }

  lemma {:induction false} ReconcilesAppend(a: seq<Action>, b: seq<Action>)
    ensures Reconciles(a + b) == Reconciles(a) + Reconciles(b)
  {
    if b == [] {
      assert a + b == a;
    } else {
      assert Init(a + b) == a + Init(b);
      ReconcilesAppend(a, Init(b));
    }
  }

  lemma {:induction false} NoReconcile(acts: seq<Action>)
    requires forall a <- acts :: !a.TRIGGER_RECONCILE?
    ensures Reconciles(acts) == 0
  {
    if acts != [] {
      assert Last(acts) in acts && forall a <- Init(acts) :: a in acts;
      NoReconcile(Init(acts));
    }
  }

  /** Each new session triggers exactly one reconcile, and nothing else does: a clean RESUME none. */
  lemma {:induction false} OneReconcilePerSession(token: string, ins: seq<Input>)
    ensures Reconciles(Emitted(token, ins)) == Readies(ins)
  {
    if ins != [] {
      OneReconcilePerSession(token, Init(ins));
      hide Handle, After;
      ReconcilesAppend(Emitted(token, Init(ins)), LastActions(token, ins));
      ReconcilesOf(token, After(token, Init(ins)), Last(ins));
    }
  }

  lemma ReconcilesOf(token: string, ctx: Context, i: Input)
    ensures Reconciles(Handle(ctx, i.event, token, i.random).1) == if i.event.READY? then 1 else 0
  {
    var acts := Handle(ctx, i.event, token, i.random).1;
    if i.event.READY? {
      assert acts == [TRIGGER_RECONCILE] + [EMIT_HEALTH(true)];
      hide Handle;
      ReconcilesAppend([TRIGGER_RECONCILE], [EMIT_HEALTH(true)]);
      NoReconcile([EMIT_HEALTH(true)]);
      assert Init([TRIGGER_RECONCILE]) == [];
    } else {
      assert forall a <- acts :: !a.TRIGGER_RECONCILE?;
      hide Handle, Reconciles;
      NoReconcile(acts);
    }
  }

  /** The delay of the reconnect that is pending: scheduled, and nothing has connected since. */
  function Pending(token: string, ins: seq<Input>): Option<real> {
    if ins == [] then None
    else
      var acts := LastActions(token, ins);
      if acts != [] && acts[0].SCHEDULE_RECONNECT? then Some(acts[0].delayMs)
      else if After(token, ins).state.Disconnected? then Pending(token, Init(ins))
      else None
  }

  /** The connection has never been up: every state so far, the first included, was disconnected. */
  predicate NeverUp(token: string, ins: seq<Input>) {
    After(token, ins).state.Disconnected? && Pending(token, ins).None? && (ins != [] ==> NeverUp(token, Init(ins)))
  }

  /** Whenever a connection that has been up is disconnected, a reconnect is due within 1 to 30 seconds. */
  lemma {:induction false} DisconnectedReconnects(token: string, ins: seq<Input>)
    requires After(token, ins).state.Disconnected?
    ensures NeverUp(token, ins)
         || (Pending(token, ins).Some? && BASE_RECONNECT_MS <= Pending(token, ins).value <= MAX_RECONNECT_MS)
  {
    if ins != [] {
      var before := After(token, Init(ins));
      if before.state.Disconnected? {
        DisconnectedReconnects(token, Init(ins));
      }
    }
  }

  /** The failed connections since the last READY or RESUMED. */
  function Failures(token: string, ins: seq<Input>): nat {
    if ins == [] || Last(ins).event.READY? || Last(ins).event.RESUMED? then 0
    else
      Failures(token, Init(ins))
      + if After(token, ins).state.Disconnected? && DropsConnection(token, ins) then 1 else 0
  }

  predicate DropsConnection(token: string, ins: seq<Input>)
    requires ins != []
  {
    Last(ins).event.CLOSE? || (Last(ins).event.HEARTBEAT_MISSED? && After(token, Init(ins)).missedHeartbeats == 2)
  }

  lemma {:induction false} AttemptsCountFailures(token: string, ins: seq<Input>)
    ensures After(token, ins).reconnectAttempt == Failures(token, ins) && After(token, ins).missedHeartbeats <= 2
  {
    if ins != [] {
      AttemptsCountFailures(token, Init(ins));
    }
  }

  /** The wait doubles with every consecutive failure until it reaches the cap. */
  lemma BackoffDoubles(token: string, ins: seq<Input>)
    requires ins != [] && DropsConnection(token, ins)
    ensures var k := Failures(token, Init(ins));
            && Pending(token, ins).Some?
            && (BASE_RECONNECT_MS * Pow2(k) <= MAX_RECONNECT_MS ==>
               Pending(token, ins).value >= BASE_RECONNECT_MS * Pow2(k))
            && (BASE_RECONNECT_MS * Pow2(k) > MAX_RECONNECT_MS ==> Pending(token, ins).value == MAX_RECONNECT_MS)
  {
    AttemptsCountFailures(token, Init(ins));
  }
}
