/**
  The push payload as the plugin reads it: a nested dictionary in which the
  call announcement sits under `aps` → `alert`, and the four string fields
  the push handler force-casts out of that alert dictionary.
 */
module Payload {
  import opened Wrappers

  /** A property-list / JSON value as it appears in a push payload. */
  datatype Value =
    | Null
    | Bool(b: bool)
    | Num(n: int)
    | Str(s: string)
    | Arr(items: seq<Value>)
    | Dict(fields: Dictionary)

  type Dictionary = map<string, Value>

  /** `d?[key]`: nil when the dictionary itself is nil or lacks the key. */
  function Lookup(d: Option<Dictionary>, key: string): (r: Option<Value>)
    ensures r.Some? <==> d.Some? && key in d.value
    ensures r.Some? ==> r.value == d.value[key]
  {
    match d
    case None => None
    case Some(m) => if key in m then Some(m[key]) else None
  }

  /** `as? [String: Any]`: a dictionary value, or nil for anything else. */
  function AsDictionary(v: Option<Value>): (r: Option<Dictionary>)
    ensures r.Some? <==> v.Some? && v.value.Dict?
    ensures r.Some? ==> v.value == Dict(r.value)
  {
    match v
    case Some(Dict(m)) => Some(m)
    case _ => None
  }

  /** `as? String` (and the test behind `as! String`). */
  function AsString(v: Option<Value>): (r: Option<string>)
    ensures r.Some? <==> v.Some? && v.value.Str?
    ensures r.Some? ==> v.value == Str(r.value)
  {
    match v
    case Some(Str(s)) => Some(s)
    case _ => None
  }

  /** `aps` is present and a dictionary, and so is `alert` inside it. */
  predicate HasAlert(payload: Dictionary) {
    "aps" in payload && payload["aps"].Dict? &&
    "alert" in payload["aps"].fields && payload["aps"].fields["alert"].Dict?
  }

  /**
    `parse(payload:)`: the `alert` dictionary nested under `aps`, or nil when
    either level is missing or is not a dictionary.
   */
  function Parse(payload: Dictionary): (r: Option<Dictionary>)
    ensures r.Some? <==> HasAlert(payload)
    ensures r.Some? ==> Dict(r.value) == payload["aps"].fields["alert"]
  {
    var aps := AsDictionary(Lookup(Some(payload), "aps"));
    AsDictionary(Lookup(aps, "alert"))
  }

  /** A payload that carries `alert` under `aps`, next to any other keys at either level. */
  function Wrap(alert: Dictionary, aps: Dictionary, top: Dictionary): (p: Dictionary) {
    top["aps" := Dict(aps["alert" := Dict(alert)])]
  }

  /** Whatever else the payload holds, `parse` finds the wrapped alert dictionary. */
  lemma ParseWrap(alert: Dictionary, aps: Dictionary, top: Dictionary)
    ensures Parse(Wrap(alert, aps, top)) == Some(alert)
  {
    var p := Wrap(alert, aps, top);
    assert p["aps"] == Dict(aps["alert" := Dict(alert)]);
  }

  /** Every payload `parse` accepts has that shape: it is the alert it yields, wrapped. */
  lemma ParseIsWrapped(payload: Dictionary)
    requires Parse(payload).Some?
    ensures payload == Wrap(Parse(payload).value, payload["aps"].fields, payload)
  {
    var aps := payload["aps"].fields;
    assert aps == aps["alert" := aps["alert"]];
    assert payload == payload["aps" := payload["aps"]];
  }

  /** The four alert keys `_pushRegistry` force-casts, in the order it reads them. */
  const UuidKey := "uuid"
  const CallerIdKey := "incoming_caller_id"
  const CallerNameKey := "incoming_caller_name"
  const CallStateKey := "incoming_call_state"
  const FieldKeys: seq<string> := [UuidKey, CallerIdKey, CallerNameKey, CallStateKey]

  /** The call announced by a push. */
  datatype Announcement = Announcement(uuid: string, callerId: string, callerName: string, callState: string)

  /** `as! String` on `key` trapped: the key is missing, not a string, or the alert is nil. */
  datatype ExtractionError = MissingField(key: string)

  /** `info?[key] as? String`. */
  function StringField(info: Option<Dictionary>, key: string): (r: Option<string>)
    ensures r.Some? <==> info.Some? && key in info.value && info.value[key].Str?
    ensures r.Some? ==> info.value[key] == Str(r.value)
  {
    AsString(Lookup(info, key))
  }

  predicate AllFieldsPresent(info: Option<Dictionary>) {
    forall k :: k in FieldKeys ==> StringField(info, k).Some?
  }

  /** The first of `keys` that is not a string field of `info`, if any. */
  function FirstMissing(info: Option<Dictionary>, keys: seq<string>): (r: Option<string>)
    ensures r.None? <==> forall k :: k in keys ==> StringField(info, k).Some?
    ensures r.Some? ==> r.value in keys && StringField(info, r.value).None?
    ensures r.Some? ==> exists i :: 0 <= i < |keys| && keys[i] == r.value &&
                                    forall j :: 0 <= j < i ==> StringField(info, keys[j]).Some?
  {
    if |keys| == 0 then None
    else if StringField(info, keys[0]).None? then Some(keys[0])
    else
      var r := FirstMissing(info, keys[1..]);
      assert forall k :: k in keys ==> k == keys[0] || k in keys[1..];
      if r.Some? then
        var i :| 0 <= i < |keys[1..]| && keys[1..][i] == r.value &&
                 forall j :: 0 <= j < i ==> StringField(info, keys[1..][j]).Some?;
        assert keys[i + 1] == r.value;
        r
      else r
  }

  /** The first missing field key, spelt out for the four keys in order. */
  lemma FirstMissingOfFieldKeys(info: Option<Dictionary>)
    ensures FirstMissing(info, FieldKeys) ==
      if StringField(info, UuidKey).None? then Some(UuidKey)
      else if StringField(info, CallerIdKey).None? then Some(CallerIdKey)
      else if StringField(info, CallerNameKey).None? then Some(CallerNameKey)
      else if StringField(info, CallStateKey).None? then Some(CallStateKey)
      else None
  {
    var k3 := [CallStateKey];
    var k2 := [CallerNameKey] + k3;
    var k1 := [CallerIdKey] + k2;
    assert k3[1..] == [];
    assert FirstMissing(info, k3) ==
      if StringField(info, CallStateKey).None? then Some(CallStateKey) else None;
    assert k2[1..] == k3;
    assert FirstMissing(info, k2) ==
      if StringField(info, CallerNameKey).None? then Some(CallerNameKey) else FirstMissing(info, k3);
    assert k1[1..] == k2;
    assert FirstMissing(info, k1) ==
      if StringField(info, CallerIdKey).None? then Some(CallerIdKey) else FirstMissing(info, k2);
    assert FieldKeys == [UuidKey] + k1;
    assert FieldKeys[1..] == k1;
  }

  /**
    The four force-casts of `_pushRegistry`, in source order. Where Swift would
    trap, the model fails with the key of the first cast that fails.
   */
  function Extract(info: Option<Dictionary>): (r: Result<Announcement, ExtractionError>)
    ensures r.Ok? <==> AllFieldsPresent(info)
    ensures r.Ok? ==> r.value == Announcement(
      StringField(info, UuidKey).value, StringField(info, CallerIdKey).value,
      StringField(info, CallerNameKey).value, StringField(info, CallStateKey).value)
    ensures r.Err? ==> Some(r.error.key) == FirstMissing(info, FieldKeys)
  {
    FirstMissingOfFieldKeys(info);
    match (StringField(info, UuidKey), StringField(info, CallerIdKey),
           StringField(info, CallerNameKey), StringField(info, CallStateKey))
    case (None, _, _, _) => Err(MissingField(UuidKey))
    case (Some(_), None, _, _) => Err(MissingField(CallerIdKey))
    case (Some(_), Some(_), None, _) => Err(MissingField(CallerNameKey))
    case (Some(_), Some(_), Some(_), None) => Err(MissingField(CallStateKey))
    case (Some(u), Some(i), Some(n), Some(s)) => Ok(Announcement(u, i, n, s))
  }

  /** An alert dictionary holding the four fields of an announcement, plus anything else. */
  function AlertOf(a: Announcement, extra: Dictionary): Dictionary {
    extra[UuidKey := Str(a.uuid)][CallerIdKey := Str(a.callerId)]
         [CallerNameKey := Str(a.callerName)][CallStateKey := Str(a.callState)]
  }

  /** A well-formed push is read back as exactly the announcement it carries. */
  lemma ExtractAlertOf(a: Announcement, extra: Dictionary, aps: Dictionary, top: Dictionary)
    ensures Extract(Parse(Wrap(AlertOf(a, extra), aps, top))) == Ok(a)
  {
    ParseWrap(AlertOf(a, extra), aps, top);
    var info := Some(AlertOf(a, extra));
    assert StringField(info, UuidKey) == Some(a.uuid);
    assert StringField(info, CallerIdKey) == Some(a.callerId);
    assert StringField(info, CallerNameKey) == Some(a.callerName);
    assert StringField(info, CallStateKey) == Some(a.callState);
  }
}
