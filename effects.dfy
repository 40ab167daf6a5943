/**
  What each handler of `VoIPCenter` does, as the list of observable effects it
  produces: events delivered to the attached Flutter sink, calls into the
  call-kit center, the audio-session step, `fulfill()` on a CallKit action and
  the PushKit `completion()` call. The class in module VoIP appends exactly
  these lists to its log.
 */
module Effects {
  import opened Wrappers
  import opened Payload
  import opened EventChannel

  /** Identity of the `FlutterEventSink` closure installed by `onListen`. */
  type SinkId = nat

  /** Identity of a CallKit action object. */
  type ActionId = nat

  /** `CXCallEndedReason`. */
  datatype EndedReason = Failed | RemoteEnded | Unanswered | AnsweredElsewhere | DeclinedElsewhere

  /** The calls `VoIPCenter` makes on its `CallKitCenter`. */
  datatype CenterCall =
    | IncomingCall(uuidString: string, callerId: string, callerName: string)
    | TerminatedIncomingCall
    | ConnectingOutgoingCall
    | Disconnected(reason: EndedReason)

  datatype Effect =
    | Delivered(sink: SinkId, event: Event)   // `self.eventSink?(...)` with a sink attached
    | CallKit(call: CenterCall)               // a call on `callKitCenter`
    | AudioSessionConfigured                  // `configureAudioSession()`
    | Fulfilled(action: ActionId)             // `action.fulfill()`
    | PushCompleted                           // PushKit's `completion()`

  /** The event an effect delivers, if it delivers one. */
  function Observed(f: Effect): seq<Event> {
    if f.Delivered? then [f.event] else []
  }

  /** The center call an effect is, if it is one. */
  function CallOf(f: Effect): seq<CenterCall> {
    if f.CallKit? then [f.call] else []
  }

  /** The events the listener received, in order. */
  function Events(log: seq<Effect>): seq<Event> {
    if |log| == 0 then [] else Observed(log[0]) + Events(log[1..])
  }

  /** The calls made on the call-kit center, in order. */
  function CallKitCalls(log: seq<Effect>): seq<CenterCall> {
    if |log| == 0 then [] else CallOf(log[0]) + CallKitCalls(log[1..])
  }

  lemma EffectsOfOne(f: Effect)
    ensures Events([f]) == Observed(f)
    ensures CallKitCalls([f]) == CallOf(f)
  {
    assert [f][1..] == [];
  }

  lemma {:induction false} EventsAppend(a: seq<Effect>, b: seq<Effect>)
    ensures Events(a + b) == Events(a) + Events(b)
  {
    if |a| == 0 {
      assert a + b == b;
    } else {
      assert (a + b)[0] == a[0];
      assert (a + b)[1..] == a[1..] + b;
      EventsAppend(a[1..], b);
      calc {
        Events(a + b);
        Observed(a[0]) + Events(a[1..] + b);
        Observed(a[0]) + (Events(a[1..]) + Events(b));
        (Observed(a[0]) + Events(a[1..])) + Events(b);
      }
    }
  }

  lemma {:induction false} CallKitCallsAppend(a: seq<Effect>, b: seq<Effect>)
    ensures CallKitCalls(a + b) == CallKitCalls(a) + CallKitCalls(b)
  {
    if |a| == 0 {
      assert a + b == b;
    } else {
      assert (a + b)[0] == a[0];
      assert (a + b)[1..] == a[1..] + b;
      CallKitCallsAppend(a[1..], b);
      calc {
        CallKitCalls(a + b);
        CallOf(a[0]) + CallKitCalls(a[1..] + b);
        CallOf(a[0]) + (CallKitCalls(a[1..]) + CallKitCalls(b));
        (CallOf(a[0]) + CallKitCalls(a[1..])) + CallKitCalls(b);
      }
    }
  }

  /** The projections of a log made of two effects. */
  lemma EffectsOfTwo(f: Effect, g: Effect)
    ensures Events([f, g]) == Observed(f) + Observed(g)
    ensures CallKitCalls([f, g]) == CallOf(f) + CallOf(g)
  {
    assert [f, g] == [f] + [g];
    EventsAppend([f], [g]);
    CallKitCallsAppend([f], [g]);
    EffectsOfOne(f);
    EffectsOfOne(g);
  }

  /** `self.eventSink?(message)`: delivered to the current sink, dropped without one. */
  function Emit(sink: Option<SinkId>, e: Event): (effects: seq<Effect>)
    ensures Events(effects) == (if sink.Some? then [e] else [])
    ensures CallKitCalls(effects) == []
    ensures forall f :: f in effects ==> sink.Some? && f == Delivered(sink.value, e)
    ensures |effects| == |Events(effects)|
  {
    match sink
    case Some(s) => EffectsOfOne(Delivered(s, e)); [Delivered(s, e)]
    case None => []
  }

  /** What the completion closure of `_pushRegistry` captures. */
  datatype Registration = Registration(payload: Dictionary, callerName: string)

  /** The error CallKit reports when it refuses a new incoming call. */
  datatype RegistrationError = RegistrationError(description: string)

  const Terminated := "terminated"

  /** How `_pushRegistry` ended. */
  datatype PushOutcome =
    | Trapped(error: ExtractionError)              // a force-cast would have crashed
    | RegistrationRequested(registration: Registration)
    | TerminationReported

  datatype PushStep = PushStep(outcome: PushOutcome, effects: seq<Effect>)

  /**
    `_pushRegistry`: parse the alert, read the four fields, then either ask the
    center to report an incoming call or tell it the call was terminated.
    No event is sent here; it is sent by the registration completion.
   */
  function HandlePush(payload: Dictionary): (r: PushStep)
    ensures Events(r.effects) == []
    ensures r.outcome.Trapped? <==> Extract(Parse(payload)).Err?
    ensures r.outcome.Trapped? ==> r.outcome.error == Extract(Parse(payload)).error && r.effects == []
    ensures !r.outcome.Trapped? ==>
      var a := Extract(Parse(payload)).value;
      |r.effects| == 1 &&
      (a.callState != Terminated ==>
        CallKitCalls(r.effects) == [IncomingCall(a.uuid, a.callerId, a.callerName)] &&
        r.outcome == RegistrationRequested(Registration(Parse(payload).value, a.callerName))) &&
      (a.callState == Terminated ==>
        CallKitCalls(r.effects) == [TerminatedIncomingCall] && r.outcome == TerminationReported)
  {
    var info := Parse(payload);
    match Extract(info)
    case Err(e) => PushStep(Trapped(e), [])
    case Ok(a) =>
      EffectsOfOne(CallKit(IncomingCall(a.uuid, a.callerId, a.callerName)));
      EffectsOfOne(CallKit(TerminatedIncomingCall));
      if a.callState != Terminated then
        PushStep(RegistrationRequested(Registration(info.value, a.callerName)),
                 [CallKit(IncomingCall(a.uuid, a.callerId, a.callerName))])
      else
        PushStep(TerminationReported, [CallKit(TerminatedIncomingCall)])
  }

  /**
    The completion closure passed to `incomingCall`: on error nothing at all;
    otherwise the push event to the current sink, then `completion()`.
   */
  function RegistrationCompleted(sink: Option<SinkId>, reg: Registration, error: Option<RegistrationError>)
    : (effects: seq<Effect>)
    ensures error.Some? ==> effects == []
    ensures error.None? ==>
      Events(effects) == (if sink.Some? then [IncomingPush(reg.payload, reg.callerName)] else []) &&
      CallKitCalls(effects) == [] &&
      |effects| > 0 && effects[|effects| - 1] == PushCompleted &&
      PushCompleted !in effects[..|effects| - 1]
    ensures error.None? ==> |effects| == |Events(effects)| + 1
    ensures forall f :: f in effects && f.Delivered? ==> sink == Some(f.sink)
  {
    match error
    case Some(_) => []
    case None =>
      var emitted := Emit(sink, IncomingPush(reg.payload, reg.callerName));
      EffectsOfOne(PushCompleted);
      EventsAppend(emitted, [PushCompleted]);
      CallKitCallsAppend(emitted, [PushCompleted]);
      assert (emitted + [PushCompleted])[..|emitted|] == emitted;
      emitted + [PushCompleted]
  }

  /** `CXStartCallAction`: tell the center the outgoing call is connecting, then fulfil. */
  function StartCallAction(action: ActionId): (effects: seq<Effect>)
    ensures Events(effects) == []
    ensures CallKitCalls(effects) == [ConnectingOutgoingCall]
    ensures |effects| == 2 && effects[1] == Fulfilled(action)
  {
    EffectsOfTwo(CallKit(ConnectingOutgoingCall), Fulfilled(action));
    [CallKit(ConnectingOutgoingCall), Fulfilled(action)]
  }

  /**
    `CXAnswerCallAction` after the action is stored on the center: configure
    audio, then send the accept event with the center's call id and caller id.
    The action is not fulfilled here.
   */
  function AnswerCallAction(sink: Option<SinkId>, uuid: Option<string>, callerId: Option<string>)
    : (effects: seq<Effect>)
    ensures |effects| > 0 && effects[0] == AudioSessionConfigured
    ensures Events(effects) == (if sink.Some? then [AcceptedIncomingCall(uuid, callerId)] else [])
    ensures CallKitCalls(effects) == []
    ensures forall f :: f in effects ==> !f.Fulfilled? && !f.PushCompleted?
    ensures |effects| == |Events(effects)| + 1
    ensures forall f :: f in effects && f.Delivered? ==> sink == Some(f.sink)
  {
    var emitted := Emit(sink, AcceptedIncomingCall(uuid, callerId));
    EffectsOfOne(AudioSessionConfigured);
    EventsAppend([AudioSessionConfigured], emitted);
    CallKitCallsAppend([AudioSessionConfigured], emitted);
    [AudioSessionConfigured] + emitted
  }

  /**
    `CXEndCallAction`: the reject event only while the callee has not yet
    accepted, then in every case `disconnected(.remoteEnded)` and `fulfill()`.
   */
  function EndCallAction(sink: Option<SinkId>, calleeBeforeAccept: bool,
                         uuid: Option<string>, callerId: Option<string>, action: ActionId)
    : (effects: seq<Effect>)
    ensures Events(effects) == (if calleeBeforeAccept && sink.Some? then [RejectedIncomingCall(uuid, callerId)] else [])
    ensures CallKitCalls(effects) == [Disconnected(RemoteEnded)]
    ensures |effects| >= 2 && effects[|effects| - 1] == Fulfilled(action)
    ensures effects[|effects| - 2] == CallKit(Disconnected(RemoteEnded))
    ensures |effects| == |Events(effects)| + 2
    ensures forall f :: f in effects && f.Delivered? ==> sink == Some(f.sink)
  {
    var rejected := if calleeBeforeAccept then Emit(sink, RejectedIncomingCall(uuid, callerId)) else [];
    var tail := [CallKit(Disconnected(RemoteEnded)), Fulfilled(action)];
    EffectsOfTwo(CallKit(Disconnected(RemoteEnded)), Fulfilled(action));
    EventsAppend(rejected, tail);
    CallKitCallsAppend(rejected, tail);
    rejected + tail
  }

  /** With no sink attached, no handler delivers anything. */
  lemma NoSinkNoEvents(payload: Dictionary, reg: Registration, error: Option<RegistrationError>,
                       calleeBeforeAccept: bool, uuid: Option<string>, callerId: Option<string>,
                       action: ActionId, e: Event)
    ensures Events(HandlePush(payload).effects) == []
    ensures Events(RegistrationCompleted(None, reg, error)) == []
    ensures Events(AnswerCallAction(None, uuid, callerId)) == []
    ensures Events(EndCallAction(None, calleeBeforeAccept, uuid, callerId, action)) == []
    ensures Events(StartCallAction(action)) == []
    ensures Emit(None, e) == []
  {
  }

  /**
    A push whose alert carries `a` and whose registration succeeds produces,
    in order: one `incomingCall` on the center, one push event carrying the
    alert dictionary and the caller name, then `completion()`.
   */
  lemma {:induction false} AnnouncedCallReachesListener(
    a: Announcement, extra: Dictionary, aps: Dictionary, top: Dictionary, sink: SinkId)
    requires a.callState != Terminated
    ensures var payload := Wrap(AlertOf(a, extra), aps, top);
            var push := HandlePush(payload);
            push.outcome.RegistrationRequested? &&
            var log := push.effects + RegistrationCompleted(Some(sink), push.outcome.registration, None);
            CallKitCalls(log) == [IncomingCall(a.uuid, a.callerId, a.callerName)] &&
            Events(log) == [IncomingPush(AlertOf(a, extra), a.callerName)] &&
            log[|log| - 1] == PushCompleted
  {
    var payload := Wrap(AlertOf(a, extra), aps, top);
    ExtractAlertOf(a, extra, aps, top);
    ParseWrap(AlertOf(a, extra), aps, top);
    var push := HandlePush(payload);
    var done := RegistrationCompleted(Some(sink), push.outcome.registration, None);
    EventsAppend(push.effects, done);
    CallKitCallsAppend(push.effects, done);
  }

  /** The projections of three consecutive pieces of a log. */
  lemma EffectsOfThree(a: seq<Effect>, b: seq<Effect>, c: seq<Effect>)
    ensures Events(a + b + c) == Events(a) + Events(b) + Events(c)
    ensures CallKitCalls(a + b + c) == CallKitCalls(a) + CallKitCalls(b) + CallKitCalls(c)
  {
    EventsAppend(a, b);
    EventsAppend(a + b, c);
    CallKitCallsAppend(a, b);
    CallKitCallsAppend(a + b, c);
  }

  /** What the listener sees when a registration completes and the callee then declines. */
  lemma CompletedThenDeclinedEvents(pushed: seq<Effect>, reg: Registration, sink: SinkId,
                                    uuid: Option<string>, callerId: Option<string>, action: ActionId)
    ensures Events(pushed + RegistrationCompleted(Some(sink), reg, None)
                   + EndCallAction(Some(sink), true, uuid, callerId, action))
         == Events(pushed) + [IncomingPush(reg.payload, reg.callerName), RejectedIncomingCall(uuid, callerId)]
  {
    var completed := RegistrationCompleted(Some(sink), reg, None);
    var ended := EndCallAction(Some(sink), true, uuid, callerId, action);
    EffectsOfThree(pushed, completed, ended);
  }

  /** What the center is asked when a registration completes and the callee then declines. */
  lemma CompletedThenDeclinedCalls(pushed: seq<Effect>, reg: Registration, sink: SinkId,
                                   uuid: Option<string>, callerId: Option<string>, action: ActionId)
    ensures CallKitCalls(pushed + RegistrationCompleted(Some(sink), reg, None)
                         + EndCallAction(Some(sink), true, uuid, callerId, action))
         == CallKitCalls(pushed) + [Disconnected(RemoteEnded)]
  {
    var completed := RegistrationCompleted(Some(sink), reg, None);
    var ended := EndCallAction(Some(sink), true, uuid, callerId, action);
    EffectsOfThree(pushed, completed, ended);
  }

  /**
    Whatever the log already holds, a completed registration followed by the
    callee declining adds the push event and the reject event to what the
    listener saw, and adds only the disconnect to what the center was asked.
   */
  lemma RegisteredThenDeclined(pushed: seq<Effect>, reg: Registration, sink: SinkId,
                               uuid: Option<string>, callerId: Option<string>, action: ActionId)
    ensures var log := pushed + RegistrationCompleted(Some(sink), reg, None)
                       + EndCallAction(Some(sink), true, uuid, callerId, action);
            Events(log) == Events(pushed) + [IncomingPush(reg.payload, reg.callerName), RejectedIncomingCall(uuid, callerId)] &&
            CallKitCalls(log) == CallKitCalls(pushed) + [Disconnected(RemoteEnded)]
  {
    CompletedThenDeclinedEvents(pushed, reg, sink, uuid, callerId, action);
    CompletedThenDeclinedCalls(pushed, reg, sink, uuid, callerId, action);
  }

  /**
    A push that CallKit registers and that the callee then declines: the
    listener receives the push event and then the reject event, and the
    center is asked to report the call and then to disconnect it.
   */
  lemma DeclinedCall(payload: Dictionary, sink: SinkId,
                     uuid: Option<string>, callerId: Option<string>, action: ActionId)
    requires Extract(Parse(payload)).Ok? && Extract(Parse(payload)).value.callState != Terminated
    ensures var a := Extract(Parse(payload)).value;
            var push := HandlePush(payload);
            var log := push.effects + RegistrationCompleted(Some(sink), push.outcome.registration, None)
                       + EndCallAction(Some(sink), true, uuid, callerId, action);
            Events(log) == [IncomingPush(Parse(payload).value, a.callerName), RejectedIncomingCall(uuid, callerId)] &&
            CallKitCalls(log) == [IncomingCall(a.uuid, a.callerId, a.callerName), Disconnected(RemoteEnded)]
  {
    var a := Extract(Parse(payload)).value;
    var push := HandlePush(payload);
    var reg := Registration(Parse(payload).value, a.callerName);
    assert push.outcome.registration == reg;
    assert Events(push.effects) == [];
    assert CallKitCalls(push.effects) == [IncomingCall(a.uuid, a.callerId, a.callerName)];
    RegisteredThenDeclined(push.effects, reg, sink, uuid, callerId, action);
  }
}
