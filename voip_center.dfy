/**
  `VoIPCenter` itself: the object PushKit, CallKit and the Flutter event
  channel call into. Its state is the optional event sink, the two token
  sources, and a log of every observable effect it has produced; the
  call-kit center it drives is an abstract collaborator.
 */
module VoIP {
  import opened Wrappers
  import opened DeviceToken
  import opened Payload
  import opened EventChannel
  import opened Effects

  /**
    The call-kit center, whose implementation is not part of this model. Its
    methods promise nothing about its fields afterwards: a caller of any of
    them may assume only what its `modifies` clause allows, namely that any
    field may have changed.
   */
  class CallKitCenter {
    var uuidString: Option<string>
    var incomingCallerId: Option<string>
    var isCalleeBeforeAcceptIncomingCall: bool
    var answerCallAction: Option<ActionId>

    constructor () {
      uuidString := None;
      incomingCallerId := None;
      isCalleeBeforeAcceptIncomingCall := false;
      answerCallAction := None;
    }

    method IncomingCall(uuidString: string, callerId: string, callerName: string)
      modifies this
    {
    }

    method TerminatedIncomingCall()
      modifies this
    {
    }

    method ConnectingOutgoingCall()
      modifies this
    {
    }

    method Disconnected(reason: EndedReason)
      modifies this
    {
    }
  }

  /** The `FlutterError?` that `onListen` and `onCancel` return. */
  datatype FlutterError = FlutterError(code: string, message: string)

  class VoIPCenter {
    const callKitCenter: CallKitCenter
    /** `eventSink`: the sink of the current listener, nil when nobody listens. */
    var eventSink: Option<SinkId>
    /** The token persisted under `Did_Update_VoIP_Device_Token` in user defaults. */
    var storedToken: Option<seq<byte>>
    /** The token PushKit has cached for the VoIP push type. */
    var cachedToken: Option<seq<byte>>
    /** Every observable effect so far, oldest first. */
    var log: seq<Effect>

    constructor (stored: Option<seq<byte>>, cached: Option<seq<byte>>)
      ensures fresh(callKitCenter)
      ensures eventSink == None && log == []
      ensures storedToken == stored && cachedToken == cached
    {
      callKitCenter := new CallKitCenter();
      eventSink := None;
      storedToken := stored;
      cachedToken := cached;
      log := [];
    }

    /** The `token` property. */
    function Token(): (t: Option<string>)
      reads this
      ensures t.Some? <==> storedToken.Some? || cachedToken.Some?
      ensures t.Some? ==> Decode(t.value) == (if storedToken.Some? then storedToken else cachedToken)
    {
      if storedToken.Some? || cachedToken.Some? then
        TokenDecodes(storedToken, cachedToken);
        DeviceToken.Token(storedToken, cachedToken)
      else
        None
    }

    /** `self.eventSink?(message)`. */
    method Send(e: Event)
      modifies this`log
      ensures log == old(log) + Emit(eventSink, e)
    {
      if eventSink.Some? {
        log := log + [Delivered(eventSink.value, e)];
      }
    }

    /**
      PushKit delivered new credentials: persist them and tell the listener.
      `tokenHex` is the credentials' rendering by the `hexString` extension.
     */
    method DidUpdatePushCredentials(token: seq<byte>, tokenHex: string)
      modifies this`storedToken, this`log
      ensures storedToken == Some(token)
      ensures Token() == Some(Encode(token))
      ensures log == old(log) + Emit(eventSink, PushTokenUpdated(tokenHex))
    {
      storedToken := Some(token);
      Send(PushTokenUpdated(tokenHex));
    }

    /** `_pushRegistry(parametersdidReceiveIncomingPushWith:for:completion:)`. */
    method DidReceiveIncomingPush(payload: Dictionary) returns (outcome: PushOutcome)
      modifies this`log, callKitCenter
      ensures outcome == HandlePush(payload).outcome
      ensures log == old(log) + HandlePush(payload).effects
    {
      var info := Parse(payload);
      var fields := Extract(info);
      if fields.Err? {
        outcome := Trapped(fields.error);
        return;
      }
      var a := fields.value;
      if a.callState != Terminated {
        log := log + [CallKit(IncomingCall(a.uuid, a.callerId, a.callerName))];
        callKitCenter.IncomingCall(a.uuid, a.callerId, a.callerName);
        outcome := RegistrationRequested(Registration(info.value, a.callerName));
      } else if a.callState == Terminated {
        log := log + [CallKit(TerminatedIncomingCall)];
        callKitCenter.TerminatedIncomingCall();
        outcome := TerminationReported;
      }
    }

    /** The completion closure given to `incomingCall`, run when CallKit has answered. */
    method IncomingCallRegistered(reg: Registration, error: Option<RegistrationError>)
      modifies this`log
      ensures log == old(log) + RegistrationCompleted(eventSink, reg, error)
    {
      if error.Some? {
        return;
      }
      Send(IncomingPush(reg.payload, reg.callerName));
      log := log + [PushCompleted];
    }

    /** `provider(_:perform:)` for a `CXStartCallAction`. */
    method PerformStartCallAction(action: ActionId)
      modifies this`log, callKitCenter
      ensures log == old(log) + StartCallAction(action)
    {
      log := log + [CallKit(ConnectingOutgoingCall)];
      callKitCenter.ConnectingOutgoingCall();
      log := log + [Fulfilled(action)];
    }

    /** `provider(_:perform:)` for a `CXAnswerCallAction`. */
    method PerformAnswerCallAction(action: ActionId)
      modifies this`log, callKitCenter`answerCallAction
      ensures callKitCenter.answerCallAction == Some(action)
      ensures log == old(log) + AnswerCallAction(eventSink, callKitCenter.uuidString, callKitCenter.incomingCallerId)
    {
      callKitCenter.answerCallAction := Some(action);
      log := log + [AudioSessionConfigured];
      Send(AcceptedIncomingCall(callKitCenter.uuidString, callKitCenter.incomingCallerId));
    }

    /** `provider(_:perform:)` for a `CXEndCallAction`. */
    method PerformEndCallAction(action: ActionId)
      modifies this`log, callKitCenter
      ensures log == old(log) + EndCallAction(eventSink, old(callKitCenter.isCalleeBeforeAcceptIncomingCall),
                                              old(callKitCenter.uuidString), old(callKitCenter.incomingCallerId), action)
    {
      if callKitCenter.isCalleeBeforeAcceptIncomingCall {
        Send(RejectedIncomingCall(callKitCenter.uuidString, callKitCenter.incomingCallerId));
      }
      log := log + [CallKit(Disconnected(RemoteEnded))];
      callKitCenter.Disconnected(RemoteEnded);
      log := log + [Fulfilled(action)];
    }

    /** `provider(_:didActivate:)`. */
    method DidActivateAudioSession()
      modifies this`log
      ensures log == old(log) + Emit(eventSink, ActivatedAudioSession)
    {
      Send(ActivatedAudioSession);
    }

    /** `provider(_:didDeactivate:)`. */
    method DidDeactivateAudioSession()
      modifies this`log
      ensures log == old(log) + Emit(eventSink, DeactivatedAudioSession)
    {
      Send(DeactivatedAudioSession);
    }

    /** `onListen(withArguments:eventSink:)`: the new sink replaces any previous one. */
    method OnListen(sink: SinkId) returns (error: Option<FlutterError>)
      modifies this`eventSink
      ensures eventSink == Some(sink) && error == None
    {
      eventSink := Some(sink);
      error := None;
    }

    /** `onCancel(withArguments:)`: detach the listener. */
    method OnCancel() returns (error: Option<FlutterError>)
      modifies this`eventSink
      ensures eventSink == None && error == None
    {
      eventSink := None;
      error := None;
    }
  }
}
