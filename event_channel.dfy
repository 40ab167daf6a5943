/**
  What the plugin sends to Flutter over its event channel: one dictionary per
  event, whose `event` entry is the raw value of the `EventChannel` tag and
  whose other entries are the tag's fixed fields.
 */
module EventChannel {
  import opened Wrappers
  import opened Payload

  /** The private `EventChannel` enum of `VoIPCenter`. */
  datatype Tag =
    | OnDidReceiveIncomingPush
    | OnDidAcceptIncomingCall
    | OnDidRejectIncomingCall
    | OnDidUpdatePushToken
    | OnDidActivateAudioSession
    | OnDidDeactivateAudioSession

  /** A Swift `String` enum's raw value is the case name. */
  function RawValue(t: Tag): (r: string)
    ensures |r| > 5 && r[..5] == "onDid"
  {
    match t
    case OnDidReceiveIncomingPush => "onDidReceiveIncomingPush"
    case OnDidAcceptIncomingCall => "onDidAcceptIncomingCall"
    case OnDidRejectIncomingCall => "onDidRejectIncomingCall"
    case OnDidUpdatePushToken => "onDidUpdatePushToken"
    case OnDidActivateAudioSession => "onDidActivateAudioSession"
    case OnDidDeactivateAudioSession => "onDidDeactivateAudioSession"
  }

  /** `EventChannel(rawValue:)`: the tag whose raw value is `s`, nil for any other string. */
  function FromRawValue(s: string): (r: Option<Tag>)
    ensures r.Some? ==> RawValue(r.value) == s
    ensures forall t :: RawValue(t) == s ==> r == Some(t)
  {
    if s == "onDidReceiveIncomingPush" then Some(OnDidReceiveIncomingPush)
    else if s == "onDidAcceptIncomingCall" then Some(OnDidAcceptIncomingCall)
    else if s == "onDidRejectIncomingCall" then Some(OnDidRejectIncomingCall)
    else if s == "onDidUpdatePushToken" then Some(OnDidUpdatePushToken)
    else if s == "onDidActivateAudioSession" then Some(OnDidActivateAudioSession)
    else if s == "onDidDeactivateAudioSession" then Some(OnDidDeactivateAudioSession)
    else None
  }

  /** Distinct tags are told apart on the Flutter side. */
  lemma RawValueInjective(a: Tag, b: Tag)
    requires RawValue(a) == RawValue(b)
    ensures a == b
  {
    assert FromRawValue(RawValue(a)) == Some(a);
  }

  /**
    One event with its fields. `uuid` and `incoming_caller_id` are read from
    the call-kit center as optionals, so they may be nil.
   */
  datatype Event =
    | IncomingPush(payload: Dictionary, callerName: string)
    | AcceptedIncomingCall(uuid: Option<string>, callerId: Option<string>)
    | RejectedIncomingCall(uuid: Option<string>, callerId: Option<string>)
    | PushTokenUpdated(token: string)
    | ActivatedAudioSession
    | DeactivatedAudioSession

  function TagOf(e: Event): Tag {
    match e
    case IncomingPush(_, _) => OnDidReceiveIncomingPush
    case AcceptedIncomingCall(_, _) => OnDidAcceptIncomingCall
    case RejectedIncomingCall(_, _) => OnDidRejectIncomingCall
    case PushTokenUpdated(_) => OnDidUpdatePushToken
    case ActivatedAudioSession => OnDidActivateAudioSession
    case DeactivatedAudioSession => OnDidDeactivateAudioSession
  }

  /** An optional boxed with `as Any`: nil reaches Flutter as null. */
  function Boxed(o: Option<string>): (r: Value)
    ensures r == Null <==> o.None?
    ensures Unboxed(r) == Some(o)
  {
    match o
    case Some(s) => Str(s)
    case None => Null
  }

  /** The Flutter side's reading of a boxed optional: `null`, a string, or neither. */
  function Unboxed(v: Value): Option<Option<string>> {
    match v
    case Str(s) => Some(Some(s))
    case Null => Some(None)
    case _ => None
  }

  /** The dictionary handed to the event sink for `e`. */
  function ToMessage(e: Event): (m: Dictionary)
    ensures "event" in m && m["event"] == Str(RawValue(TagOf(e)))
    ensures m.Keys == {"event"} + FieldNames(TagOf(e))
  {
    var head := map["event" := Str(RawValue(TagOf(e)))];
    match e
    case IncomingPush(p, n) => head["payload" := Dict(p)]["incoming_caller_name" := Str(n)]
    case AcceptedIncomingCall(u, c) => head["uuid" := Boxed(u)]["incoming_caller_id" := Boxed(c)]
    case RejectedIncomingCall(u, c) => head["uuid" := Boxed(u)]["incoming_caller_id" := Boxed(c)]
    case PushTokenUpdated(t) => head["token" := Str(t)]
    case ActivatedAudioSession => head
    case DeactivatedAudioSession => head
  }

  /** The keys each tag carries besides `event`. */
  function FieldNames(t: Tag): set<string> {
    match t
    case OnDidReceiveIncomingPush => {"payload", "incoming_caller_name"}
    case OnDidAcceptIncomingCall => {"uuid", "incoming_caller_id"}
    case OnDidRejectIncomingCall => {"uuid", "incoming_caller_id"}
    case OnDidUpdatePushToken => {"token"}
    case OnDidActivateAudioSession => {}
    case OnDidDeactivateAudioSession => {}
  }

  /** How a listener reads a message back: the tag first, then the tag's fields. */
  function FromMessage(m: Dictionary): (r: Option<Event>)
    ensures r.Some? ==> m.Keys == {"event"} + FieldNames(TagOf(r.value))
  {
    if "event" !in m || !m["event"].Str? then None
    else match FromRawValue(m["event"].s)
      case None => None
      case Some(t) => if m.Keys == {"event"} + FieldNames(t) then FieldsFromMessage(t, m) else None
  }

  /** The event of tag `t` whose fields are the entries of `m`, if they have the right types. */
  function FieldsFromMessage(t: Tag, m: Dictionary): (r: Option<Event>)
    requires FieldNames(t) <= m.Keys
    ensures r.Some? ==> TagOf(r.value) == t
  {
    match t
    case OnDidReceiveIncomingPush =>
      if m["payload"].Dict? && m["incoming_caller_name"].Str?
      then Some(IncomingPush(m["payload"].fields, m["incoming_caller_name"].s)) else None
    case OnDidAcceptIncomingCall =>
      (match (Unboxed(m["uuid"]), Unboxed(m["incoming_caller_id"]))
       case (Some(u), Some(c)) => Some(AcceptedIncomingCall(u, c))
       case _ => None)
    case OnDidRejectIncomingCall =>
      (match (Unboxed(m["uuid"]), Unboxed(m["incoming_caller_id"]))
       case (Some(u), Some(c)) => Some(RejectedIncomingCall(u, c))
       case _ => None)
    case OnDidUpdatePushToken =>
      if m["token"].Str? then Some(PushTokenUpdated(m["token"].s)) else None
    case OnDidActivateAudioSession => Some(ActivatedAudioSession)
    case OnDidDeactivateAudioSession => Some(DeactivatedAudioSession)
  }

  /** Every event reaches the listener intact: reading the message gives the event back. */
  lemma FromToMessage(e: Event)
    ensures FromMessage(ToMessage(e)) == Some(e)
  {
    var m := ToMessage(e);
    assert FromRawValue(RawValue(TagOf(e))) == Some(TagOf(e));
  }

  /** Conversely, a message that reads as an event is exactly that event's message. */
  lemma ToFromMessage(m: Dictionary)
    requires FromMessage(m).Some?
    ensures ToMessage(FromMessage(m).value) == m
  {
    var e := FromMessage(m).value;
    var m' := ToMessage(e);
    assert FromRawValue(m["event"].s) == Some(TagOf(e));
    assert m'.Keys == m.Keys;
    forall k | k in m ensures m'[k] == m[k] {
    }
  }
}
