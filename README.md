# flutter_ios_voip_kit: the VoIPCenter core in Dafny

This project models `VoIPCenter`, the iOS side of the flutter_ios_voip_kit plugin. It sits
between PushKit (VoIP pushes), CallKit (the system call UI, reached through a `CallKitCenter`
object) and a Flutter event channel. Its decision logic has three parts:

- **Device token rendering** (`device_token.dfy`, module `DeviceToken`). `String(deviceToken:)`
  writes each byte as two lowercase hex digits and joins them. The `token` getter prefers the
  token persisted in user defaults, then PushKit's cached token, and otherwise gives nil.
- **Push payload reading** (`payload.dfy`, module `Payload`). `parse(payload:)` finds the
  `alert` dictionary under `aps`. `_pushRegistry` then force-casts four string fields from it:
  `uuid`, `incoming_caller_id`, `incoming_caller_name` and `incoming_call_state`.
- **Event emission** (`event_channel.dfy`, `effects.dfy`, `voip_center.dfy`). Each PushKit,
  CallKit and event-channel callback decides which event goes to the optional Flutter sink, with
  which fields, and which calls go to the call-kit center.

How the model is built:

- The `EventChannel` enum, the events and the dictionaries sent to Flutter are in module
  `EventChannel`.
- For each handler, module `Effects` has a pure function giving the list of observable effects
  it produces. An effect is one of:
  - an event delivered to a sink;
  - a call on the call-kit center;
  - the audio-session configuration step;
  - `fulfill()` on a CallKit action;
  - PushKit's `completion()`.
- The class `VoIP.VoIPCenter` holds:
  - the optional sink;
  - the two token sources;
  - a log of effects.
- Each handler method of `VoIPCenter` is proved to append exactly its handler's effect list to
  the log; `OnListen` and `OnCancel` leave the log alone and replace or clear the sink. The
  properties are proved about those lists, via the projections `Events` (what the listener
  received) and `CallKitCalls` (what the center was asked to do).
- `CallKitCenter` is not part of this model. It is a class with the fields `VoIPCenter` reads
  (`uuidString`, `incomingCallerId`, `isCalleeBeforeAcceptIncomingCall`) and writes
  (`answerCallAction`). Its methods promise nothing about those fields afterwards.

What the code in `ios/Classes/VoIPCenter.swift` does and does not do:

- `VoIPCenter` keeps no call-session state. Whether the callee has accepted is read from the
  call-kit center's `isCalleeBeforeAcceptIncomingCall`, and a `terminated` push only calls
  `terminatedIncomingCall()`.
- A malformed payload crashes at the `as!` casts (:129-132). The model represents that crash as
  the outcome `Trapped(MissingField(key))`, naming the first key whose cast fails, with no
  effects.
- The payload keys are `uuid`, `incoming_caller_id`, `incoming_caller_name` and
  `incoming_call_state`.

## Model

| member | source | states |
|---|---|---|
| DeviceToken.ByteToHex | ios/Classes/VoIPCenter.swift:16 | `%.2hhx` gives exactly two lowercase hex digits: the high nibble, then the low nibble |
| DeviceToken.Encode | ios/Classes/VoIPCenter.swift:14-17 | the rendering is twice as long as the token and consists only of lowercase hex digits |
| DeviceToken.EncodeAppend | ios/Classes/VoIPCenter.swift:16 | rendering then joining distributes over concatenation of byte sequences |
| DeviceToken.EncodeAt | ios/Classes/VoIPCenter.swift:16 | byte i is rendered at characters 2i and 2i+1, so the order of the bytes is preserved |
| DeviceToken.Decode | ios/Classes/VoIPCenter.swift:14-17 | reference reading of a rendered token: it succeeds exactly on even-length lowercase-hex strings, and then gives half as many bytes as characters |
| DeviceToken.DecodeEncode | ios/Classes/VoIPCenter.swift:14-17 | decoding the rendered token gives back exactly the original bytes |
| DeviceToken.EncodeDecode | ios/Classes/VoIPCenter.swift:14-17 | any string that decodes is the rendering of the bytes it decodes to, and `Decode` accepts exactly the even-length lowercase-hex strings, so the rendering is a bijection onto even-length lowercase hex |
| DeviceToken.EncodeInjective | ios/Classes/VoIPCenter.swift:14-17 | two different tokens never render to the same string |
| DeviceToken.Token | ios/Classes/VoIPCenter.swift:42-60 | `token` is non-nil iff some source has a token; the persisted token wins over PushKit's cached one; each is rendered with `String(deviceToken:)` |
| DeviceToken.TokenDecodes | ios/Classes/VoIPCenter.swift:42-60 | the reported token decodes to the bytes of the winning source |
| Payload.AsDictionary | ios/Classes/VoIPCenter.swift:160-161 | `as? [String: Any]` is non-nil iff the value exists and is a dictionary, and then it is that dictionary |
| Payload.AsString | ios/Classes/VoIPCenter.swift:129-132 | the string cast succeeds iff the value exists and is a string, and then it is that string |
| Payload.Lookup | ios/Classes/VoIPCenter.swift:160-161 | optional chaining `d?[key]` is non-nil iff the dictionary exists and holds the key, and then it is that entry |
| Payload.Parse | ios/Classes/VoIPCenter.swift:156-168 | `parse` is non-nil iff `aps` is a dictionary holding a dictionary under `alert`, and then it is that `alert` dictionary |
| Payload.ParseWrap | ios/Classes/VoIPCenter.swift:156-168 | whatever other keys the payload has at either level, `parse` returns the alert dictionary placed under `aps`/`alert` |
| Payload.ParseIsWrapped | ios/Classes/VoIPCenter.swift:156-168 | every payload that `parse` accepts is the returned alert wrapped in that shape |
| Payload.StringField | ios/Classes/VoIPCenter.swift:129-132 | a cast `info?[key] as! String` succeeds iff info exists and maps the key to a string, and then it yields exactly that string |
| Payload.FirstMissing | ios/Classes/VoIPCenter.swift:129-132 | reference definition: the first key in order whose string cast fails; none iff all casts succeed |
| Payload.FirstMissingOfFieldKeys | ios/Classes/VoIPCenter.swift:129-132 | for the four keys in source order, the first failing cast is uuid, then caller id, then caller name, then call state |
| Payload.Extract | ios/Classes/VoIPCenter.swift:128-132 | all four casts succeed iff every field is a string, and then the announcement holds exactly those strings; otherwise the failure names the first cast that would trap |
| Payload.ExtractAlertOf | ios/Classes/VoIPCenter.swift:128-132 | a payload whose alert carries the four fields (plus anything else) is read back as exactly that announcement |
| EventChannel.RawValue | ios/Classes/VoIPCenter.swift:27-35 | the raw values are the six case names of :28-34, given by the body's table; the contract states their shared `onDid` prefix |
| EventChannel.FromRawValue | ios/Classes/VoIPCenter.swift:27-35 | `EventChannel(rawValue:)` yields a tag only for that tag's raw value, and yields it for every tag's raw value |
| EventChannel.RawValueInjective | ios/Classes/VoIPCenter.swift:27-35 | distinct event tags have distinct raw values |
| EventChannel.Boxed | ios/Classes/VoIPCenter.swift:195-197 | an optional boxed `as Any` is `null` exactly when it is nil, and the Flutter side reads back the same optional (also at :205-207) |
| EventChannel.ToMessage | ios/Classes/VoIPCenter.swift:146-148 | every message sent to the sink carries `event` = the tag's raw value plus exactly that tag's field keys (also at :103-104, :195-197, :205-207, :218, :225) |
| EventChannel.FromMessage | ios/Classes/VoIPCenter.swift:146-148 | a message is read as an event only if its keys are exactly `event` plus that event's fields |
| EventChannel.FromToMessage | ios/Classes/VoIPCenter.swift:146-148 | every event reaches the listener intact: reading its message gives back the event |
| EventChannel.ToFromMessage | ios/Classes/VoIPCenter.swift:146-148 | a message that reads as an event is exactly that event's message |
| Effects.EventsAppend | ios/Classes/VoIPCenter.swift:146 | the listener sees the events of consecutive steps in the order the steps happened |
| Effects.CallKitCallsAppend | ios/Classes/VoIPCenter.swift:139 | the center sees the calls of consecutive steps in the order the steps happened |
| Effects.Emit | ios/Classes/VoIPCenter.swift:146 | `eventSink?(...)` delivers exactly one event to the current sink when one is attached, and nothing otherwise; it never calls the center |
| Effects.HandlePush | ios/Classes/VoIPCenter.swift:127-154 | a push emits no event; if a cast traps there are no effects at all; otherwise exactly one center call is made: `incomingCall(uuid, callerId, callerName)` when the state is not `terminated` (and a registration carrying the alert and caller name is pending), and `terminatedIncomingCall()` when it is |
| Effects.RegistrationCompleted | ios/Classes/VoIPCenter.swift:139-150 | if registration fails there are no effects and `completion()` is not called; if it succeeds, one push event with the alert and caller name goes to the current sink (if any), and `completion()` is called once, last; nothing else happens, and every delivery goes to the current sink |
| Effects.StartCallAction | ios/Classes/VoIPCenter.swift:181-187 | a start action emits nothing, calls `connectingOutgoingCall()` only, then fulfils the action |
| Effects.AnswerCallAction | ios/Classes/VoIPCenter.swift:189-198 | audio is configured first; exactly one accept event with the center's uuid and caller id goes to an attached sink; no center call; nothing is fulfilled; besides the one configuration step, every effect is a delivery to the current sink |
| Effects.EndCallAction | ios/Classes/VoIPCenter.swift:200-212 | the reject event with the center's uuid and caller id is emitted iff the callee had not yet accepted (and a sink is attached); `disconnected(.remoteEnded)` and then `fulfill()` happen in every case, once each and last; every other effect is a delivery to the current sink |
| Effects.NoSinkNoEvents | ios/Classes/VoIPCenter.swift:25 | with no sink attached, no handler delivers any event |
| Effects.AnnouncedCallReachesListener | ios/Classes/VoIPCenter.swift:127-150 | a well-formed ringing push that registers leads to one `incomingCall`, then one push event carrying the alert and caller name, then `completion()` |
| Effects.RegisteredThenDeclined | ios/Classes/VoIPCenter.swift:139-211 | after a successful registration and a decline before accepting, the listener gets the push event and then the reject event, and the center gets `disconnected(.remoteEnded)` |
| Effects.DeclinedCall | ios/Classes/VoIPCenter.swift:127-211 | a ringing push, a successful registration and a decline produce the events [push, reject] and the calls [incomingCall, disconnected] |
| VoIP.VoIPCenter.constructor | ios/Classes/VoIPCenter.swift:70-90 | a new center has no sink, an empty log, the given token sources and a fresh call-kit center |
| VoIP.VoIPCenter.Token | ios/Classes/VoIPCenter.swift:42-60 | the `token` property is non-nil iff the center holds a persisted or a cached token, and it decodes to the persisted token's bytes when there is one, else to the cached token's |
| VoIP.VoIPCenter.Send | ios/Classes/VoIPCenter.swift:146-148 | emitting appends `Emit(eventSink, e)` to the log: delivered to the current sink or dropped |
| VoIP.VoIPCenter.DidUpdatePushCredentials | ios/Classes/VoIPCenter.swift:97-105 | the new token is persisted and becomes what `token` reports; one token event goes to an attached sink |
| VoIP.VoIPCenter.DidReceiveIncomingPush | ios/Classes/VoIPCenter.swift:127-154 | the outcome and appended effects are those of `HandlePush` |
| VoIP.VoIPCenter.IncomingCallRegistered | ios/Classes/VoIPCenter.swift:139-150 | the completion closure appends the effects of `RegistrationCompleted`, reading the sink at completion time |
| VoIP.VoIPCenter.PerformStartCallAction | ios/Classes/VoIPCenter.swift:181-187 | appends the effects of `StartCallAction` |
| VoIP.VoIPCenter.PerformAnswerCallAction | ios/Classes/VoIPCenter.swift:189-198 | stores the action as the center's `answerCallAction`, changes no other center field, and appends the effects of `AnswerCallAction` |
| VoIP.VoIPCenter.PerformEndCallAction | ios/Classes/VoIPCenter.swift:200-212 | appends the effects of `EndCallAction`, using the center's flag and ids as they were before `disconnected` |
| VoIP.VoIPCenter.DidActivateAudioSession | ios/Classes/VoIPCenter.swift:214-219 | passes the activate event through to an attached sink and does nothing else |
| VoIP.VoIPCenter.DidDeactivateAudioSession | ios/Classes/VoIPCenter.swift:221-226 | passes the deactivate event through to an attached sink and does nothing else |
| VoIP.VoIPCenter.OnListen | ios/Classes/VoIPCenter.swift:251-254 | the new sink replaces any previous one; no error is returned |
| VoIP.VoIPCenter.OnCancel | ios/Classes/VoIPCenter.swift:256-259 | the sink is cleared; no error is returned |

## Left out

- VoIP.CallKitCenter: the center's implementation is not part of this model. Its methods have no postcondition, so any of its fields may change when one is called. The model does not know which call it presents or when it invokes the registration completion.
- PushKit registry construction, the delegate wiring and the Info.plist reading (:70-90): platform setup. The constructor takes the two token sources as parameters.
- Token persistence in user defaults and PushKit's token cache: both are plain fields (`storedToken`, `cachedToken`) that the model's environment sets.
- The `hexString` extension used for the token event (:104) is not part of this model. The rendered string enters `DidUpdatePushCredentials` as a parameter.
- The JSON serialise/deserialise round trip inside `parse` (:158-159) is taken as the identity. Its failure path, where `catch` gives nil, is not modelled separately. Payload numbers are integers, with no floating point.
- `configureAudioSession` (:230-244): an AVFoundation side effect on the audio hardware. It is a single `AudioSessionConfigured` effect on the answer path. Whether it fails is not observable, since the source only prints.
- The iOS 10 PushKit entry point (:109-115) passes an empty `completion`. Only the iOS 11 entry, with a real `completion`, is modelled; the other differs only in that `completion()` does nothing.
- `providerDidReset` (:175-179) and all `#if DEBUG` printing: they have no effect outside debug logs.
- Threading and queues: each callback runs as one method call, and the registration completion is a separate later call (`IncomingCallRegistered`) that receives the values its closure captured.
