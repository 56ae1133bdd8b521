/** The Gateway machine told from the events of its run alone: what it records, and what it sends. */
module GatewayHistory {
  import opened Common
  import opened Gateway

  /* ---------- What the events say ---------- */

  /** Close codes and answers after which Discord keeps no session to resume. */
  predicate EndsSession(event: Event) {
    match event
    case CLOSE(code) => code == 4004 || 4010 <= code <= 4014
    case INVALID_SESSION(resumable) => !resumable
    case _ => false
  }

  function SessionBy(ins: seq<Input>): Option<Id> {
    if ins == [] || EndsSession(Last(ins).event) then None
    else if Last(ins).event.READY? then Some(Last(ins).event.sessionId)
    else SessionBy(Init(ins))
  }

  function PositionBy(ins: seq<Input>): Option<int> {
    if ins == [] || EndsSession(Last(ins).event) then None
    else if Last(ins).event.DISPATCH? then Some(Last(ins).event.number)
    else PositionBy(Init(ins))
  }

  /** Heartbeats missed since the last acknowledgement or close; the third starts over. */
  function MissedBy(ins: seq<Input>): nat {
    if ins == [] then 0
    else
      match Last(ins).event
      case HEARTBEAT_ACK => 0
      case CLOSE(_) => 0
      case HEARTBEAT_MISSED => if MissedBy(Init(ins)) >= 2 then 0 else MissedBy(Init(ins)) + 1
      case _ => MissedBy(Init(ins))
  }

  function IntervalBy(ins: seq<Input>): Option<int> {
    if ins == [] then None
    else if Last(ins).event.HELLO? then Some(Last(ins).event.heartbeatInterval)
    else IntervalBy(Init(ins))
  }

  function UrlBy(ins: seq<Input>): Option<string> {
    if ins == [] then None
    else if Last(ins).event.READY? then Some(Last(ins).event.resumeGatewayUrl)
    else UrlBy(Init(ins))
  }

  predicate CanResume(ins: seq<Input>) {
    SessionBy(ins).Some? && SessionBy(ins).value != "" && PositionBy(ins).Some?
  }

  predicate ThirdMiss(ins: seq<Input>) { ins != [] && Last(ins).event.HEARTBEAT_MISSED? && MissedBy(Init(ins)) == 2 }

  function StateBy(ins: seq<Input>): GatewayState {
    if ins == [] || ThirdMiss(ins) then Disconnected
    else
      match Last(ins).event
      case OPEN => Connecting
      case HELLO(_) => if CanResume(Init(ins)) then Resuming else Identifying
      case READY(_, _) => Ready
      case RESUMED => Ready
      case CLOSE(_) => Disconnected
      case INVALID_SESSION(_) => Identifying
      case _ => StateBy(Init(ins))
  }

  /** Whether the session that is up, or being asked for, is a new one. */
  predicate NewSessionBy(ins: seq<Input>) {
    ins != [] &&
    match Last(ins).event
    case HELLO(_) => !CanResume(Init(ins))
    case READY(_, _) => true
    case RESUMED => false
    case INVALID_SESSION(_) => true
    case _ => NewSessionBy(Init(ins))
  }

  /* ---------- What the machine records ---------- */

  ghost predicate Recorded(ctx: Context, ins: seq<Input>) {
    && ctx.state == StateBy(ins)
    && ctx.sessionId == SessionBy(ins) && ctx.sequenceNumber == PositionBy(ins)
    && ctx.resumeGatewayUrl == UrlBy(ins) && ctx.heartbeatInterval == IntervalBy(ins)
    && ctx.missedHeartbeats == MissedBy(ins) && ctx.isNewSession == NewSessionBy(ins)
  }

  lemma OneEvent(token: string, ins: seq<Input>)
    requires ins != []
    ensures After(token, ins) == Handle(After(token, Init(ins)), Last(ins).event, token, Last(ins).random).0
  {
  }

  lemma HandledGreeting(ctx: Context, event: Event, token: string, r: Random)
    ensures var next := Handle(ctx, event, token, r).0;
            && next.heartbeatInterval == (if event.HELLO? then Some(event.heartbeatInterval) else ctx.heartbeatInterval)
            && next.resumeGatewayUrl == (if event.READY? then Some(event.resumeGatewayUrl) else ctx.resumeGatewayUrl)
  {
    hide ReconnectDelay;
  }

  lemma HandledSession(ctx: Context, event: Event, token: string, r: Random)
    ensures var next := Handle(ctx, event, token, r).0;
            && next.sessionId == (if EndsSession(event) then None
                                  else if event.READY? then Some(event.sessionId) else ctx.sessionId)
            && next.sequenceNumber == (if EndsSession(event) then None
                                       else if event.DISPATCH? then Some(event.number) else ctx.sequenceNumber)
  {
    hide ReconnectDelay;
  }

  lemma HandledMissed(ctx: Context, event: Event, token: string, r: Random)
    ensures Handle(ctx, event, token, r).0.missedHeartbeats ==
            match event
            case HEARTBEAT_ACK => 0
            case CLOSE(_) => 0
            case HEARTBEAT_MISSED => if ctx.missedHeartbeats >= 2 then 0 else ctx.missedHeartbeats + 1
            case _ => ctx.missedHeartbeats
  {
    hide ReconnectDelay;
  }

  lemma HandledState(ctx: Context, event: Event, token: string, r: Random)
    ensures var next := Handle(ctx, event, token, r).0;
            var resumes := ctx.sessionId.Some? && ctx.sessionId.value != "" && ctx.sequenceNumber.Some?;
            && next.state ==
               (match event
                case OPEN => Connecting
                case HELLO(_) => if resumes then Resuming else Identifying
                case READY(_, _) => Ready
                case RESUMED => Ready
                case CLOSE(_) => Disconnected
                case INVALID_SESSION(_) => Identifying
                case HEARTBEAT_MISSED => if ctx.missedHeartbeats >= 2 then Disconnected else ctx.state
                case _ => ctx.state)
            && next.isNewSession ==
               (match event
                case HELLO(_) => !resumes
                case READY(_, _) => true
                case RESUMED => false
                case INVALID_SESSION(_) => true
                case _ => ctx.isNewSession)
  {
    hide ReconnectDelay;
  }

  lemma RecordedStep(ctx: Context, ins: seq<Input>, token: string, r: Random)
    requires ins != [] && Recorded(ctx, Init(ins))
    ensures Recorded(Handle(ctx, Last(ins).event, token, r).0, ins)
  {
    hide Handle, EndsSession;
    HandledGreeting(ctx, Last(ins).event, token, r);
    HandledSession(ctx, Last(ins).event, token, r);
    HandledMissed(ctx, Last(ins).event, token, r);
    HandledState(ctx, Last(ins).event, token, r);
    MissedBelowThree(Init(ins));
  }

  lemma {:induction false} MissedBelowThree(ins: seq<Input>)
    ensures MissedBy(ins) <= 2
  {
    if ins != [] {
      MissedBelowThree(Init(ins));
    }
  }

  lemma NothingRecorded(token: string)
    ensures Recorded(After(token, []), [])
  {
  }

  /** In every run the context holds what the events say, and nothing else. */
  lemma {:induction false} ContextFollowsEvents(token: string, ins: seq<Input>)
    ensures Recorded(After(token, ins), ins)
  {
    if ins != [] {
      ContextFollowsEvents(token, Init(ins));
      hide After, Handle, Recorded;
      var ctx := After(token, Init(ins));
      OneEvent(token, ins);
      RecordedStep(ctx, ins, token, Last(ins).random);
    } else {
      assert Recorded(After(token, []), []) by { NothingRecorded(token); }
    }
  }

  /* ---------- What the machine sends ---------- */

  predicate IsMemberEvent(name: string) {
    || name == "GUILD_MEMBER_ADD" || name == "GUILD_MEMBER_UPDATE" || name == "GUILD_MEMBER_REMOVE"
    || name == "GUILD_ROLE_CREATE" || name == "GUILD_ROLE_UPDATE" || name == "GUILD_ROLE_DELETE"
  }

  predicate ReconnectWithin(a: Action, lo: real, hi: real) { a.SCHEDULE_RECONNECT? && lo <= a.delayMs <= hi }

  /** The actions that the last event of a run calls for, in order, told from the events. */
  ghost predicate Owed(token: string, ins: seq<Input>, acts: seq<Action>)
    requires ins != []
  {
    var before := Init(ins);
    match Last(ins).event
    case OPEN => acts == []
    case HELLO(interval) =>
      acts == [START_HEARTBEAT(interval), SEND_HEARTBEAT(PositionBy(before)),
               if CanResume(before) then SEND_RESUME(token, SessionBy(before).value, PositionBy(before).value)
               else SEND_IDENTIFY(token)]
    case READY(_, _) => acts == [TRIGGER_RECONCILE, EMIT_HEALTH(true)]
    case RESUMED => acts == [EMIT_HEALTH(true)]
    case HEARTBEAT_ACK => acts == []
    case HEARTBEAT_MISSED =>
      if ThirdMiss(ins) then |acts| == 2 && ReconnectWithin(acts[0], 1000.0, 30000.0) && acts[1] == EMIT_HEALTH(false)
      else acts == []
    case CLOSE(_) => |acts| == 2 && ReconnectWithin(acts[0], 1000.0, 30000.0) && acts[1] == EMIT_HEALTH(false)
    case DISPATCH(_, name, data) => acts == if IsMemberEvent(name) then [EMIT_MEMBER_EVENT(name, data)] else []
    case INVALID_SESSION(_) => |acts| == 1 && ReconnectWithin(acts[0], 1000.0, 5000.0)
  }

  /** In every run each event makes the machine do exactly what it owes. */
  lemma ActionsFollowEvents(token: string, ins: seq<Input>)
    requires ins != []
    ensures Owed(token, ins, LastActions(token, ins))
  {
    ContextFollowsEvents(token, Init(ins));
    MissedBelowThree(Init(ins));
    hide After, StateBy, NewSessionBy, UrlBy, IntervalBy;
  }

  /* ---------- Whole runs ---------- */

  /** The member and role events among the dispatches, in order. */
  function MemberDispatches(ins: seq<Input>): seq<(string, string)> {
    if ins == [] then []
    else
      MemberDispatches(Init(ins))
      + match Last(ins).event
        case DISPATCH(_, name, data) => if IsMemberEvent(name) then [(name, data)] else []
        case _ => []
  }

  function MemberEmissions(acts: seq<Action>): seq<(string, string)> {
    if acts == [] then []
    else
      MemberEmissions(Init(acts))
      + match Last(acts) case EMIT_MEMBER_EVENT(name, data) => [(name, data)] case _ => []
  }

  lemma {:induction false} MemberEmissionsAppend(a: seq<Action>, b: seq<Action>)
    ensures MemberEmissions(a + b) == MemberEmissions(a) + MemberEmissions(b)
  {
    if b == [] {
      assert a + b == a;
    } else {
      assert Init(a + b) == a + Init(b);
      MemberEmissionsAppend(a, Init(b));
    }
  }

  lemma {:induction false} NoEmission(acts: seq<Action>)
    requires forall a <- acts :: !a.EMIT_MEMBER_EVENT?
    ensures MemberEmissions(acts) == []
  {
    if acts != [] {
      assert acts == Init(acts) + [Last(acts)];
      NoEmission(Init(acts));
    }
  }

  lemma LastEmission(token: string, ins: seq<Input>)
    requires ins != []
    ensures MemberEmissions(LastActions(token, ins)) ==
            match Last(ins).event
            case DISPATCH(_, name, data) => if IsMemberEvent(name) then [(name, data)] else []
            case _ => []
  {
    ActionsFollowEvents(token, ins);
    var acts := LastActions(token, ins);
    hide LastActions, IsMemberEvent, CanResume, ThirdMiss;
    if Last(ins).event.DISPATCH? && IsMemberEvent(Last(ins).event.eventName) {
      assert Init(acts) == [];
    } else {
      NoEmission(acts);
    }
  }

  /** Over a run the member events handed on are exactly the dispatched ones, each once and in order. */
  lemma {:induction false} MemberEventsAreHandedOn(token: string, ins: seq<Input>)
    ensures MemberEmissions(Emitted(token, ins)) == MemberDispatches(ins)
  {
    if ins != [] {
      MemberEventsAreHandedOn(token, Init(ins));
      hide LastActions, IsMemberEvent;
      LastEmission(token, ins);
      MemberEmissionsAppend(Emitted(token, Init(ins)), LastActions(token, ins));
    }
  }
}
