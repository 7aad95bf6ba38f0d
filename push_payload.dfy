/** The decision an incoming VoIP push goes through: a payload whose `"type"`
    is the string `"cancel_call"` ends all calls; any other payload becomes the
    ten-key call-info dictionary handed to the call-UI plugin, each key copied
    from the payload when present and given a fixed default when absent. */
module PushPayload {

  /** A value of PushKit's loosely typed `dictionaryPayload` (Swift `Any`).
      `Other` stands for every kind the delegate never inspects (numbers
      that are not integers, arrays, `NSNull`, ...); its tag tells such
      values apart. */
  datatype Value =
    | Str(s: string)
    | Int(i: int)
    | Bool(b: bool)
    | Dict(entries: map<string, Value>)
    | Other(tag: nat)

  type Payload = map<string, Value>

  /** What the delegate does with a push. */
  datatype PushOutcome =
    | Cancel
    | Incoming(info: map<string, Value>)

  /** The reserved `"type"` value that marks a cancellation. */
  const CancelCallType: string := "cancel_call"

  /** The keys of the call-info dictionary. */
  const CallInfoKeys: set<string> :=
    {"id", "nameCaller", "handle", "type", "textAccept", "textDecline",
     "textMissedCall", "textCallback", "extra", "ios"}

  /** The platform options used when the payload carries no `"ios"` entry. */
  function IosDefaults(): Value {
    Dict(map[
      "iconName" := Str("CallKitIcon"),
      "handleType" := Str("generic"),
      "supportsVideo" := Bool(true),
      "maximumCallGroups" := Int(2),
      "maximumCallsPerCallGroup" := Int(1)
    ])
  }

  /** Reference table: the value a call-info key takes when the payload
      lacks it. `freshId` stands for the `UUID().uuidString` of the code. */
  function DefaultFor(key: string, freshId: string): Value
    requires key in CallInfoKeys
  {
    match key
    case "id" => Str(freshId)
    case "nameCaller" => Str("Unknown")
    case "handle" => Str("Caller")
    case "type" => Int(0)
    case "textAccept" => Str("Answer")
    case "textDecline" => Str("Decline")
    case "textMissedCall" => Str("Missed call")
    case "textCallback" => Str("Call back")
    case "extra" => Dict(map[])
    case "ios" => IosDefaults()
  }

  /** The whole default table as a dictionary. */
  function Defaults(freshId: string): (d: map<string, Value>)
    ensures d.Keys == CallInfoKeys
  {
    map k | k in CallInfoKeys :: DefaultFor(k, freshId)
  }

  /** Swift's `dictionary[key] ?? fallback`: the fallback only when the key is
      absent; a present value of any kind is kept. */
  function ValueOr(payload: Payload, key: string, fallback: Value): Value {
    if key in payload then payload[key] else fallback
  }

  /** `dictionary["type"] as? String` followed by `== "cancel_call"`. */
  predicate IsCancelPush(payload: Payload) {
    "type" in payload && payload["type"].Str? && payload["type"].s == CancelCallType
  }

  /** The incoming-call dictionary: each of the ten keys gets
      `dictionary[key] ?? default`, one assignment per key. */
  function Normalise(payload: Payload, freshId: string): (info: map<string, Value>)
    ensures info.Keys == CallInfoKeys
    ensures forall k :: k in CallInfoKeys && k in payload ==> info[k] == payload[k]
    ensures forall k :: k in CallInfoKeys && k !in payload ==> info[k] == DefaultFor(k, freshId)
  {
    map k | k in CallInfoKeys :: ValueOr(payload, k, DefaultFor(k, freshId))
  }

  /** The dispatch decision of the incoming-push handler. */
  function Classify(payload: Payload, freshId: string): (o: PushOutcome)
    ensures o.Cancel? <==> "type" in payload && payload["type"] == Str("cancel_call")
    ensures o.Incoming? ==> o.info == Normalise(payload, freshId)
  {
    if IsCancelPush(payload) then Cancel else Incoming(Normalise(payload, freshId))
  }

  /** The call-info dictionary is the default table overridden by the
      payload's own call-info keys; keys outside the table are dropped. */
  lemma NormaliseIsOverride(payload: Payload, freshId: string)
    ensures Normalise(payload, freshId)
         == Defaults(freshId) + (map k | k in payload && k in CallInfoKeys :: payload[k])
  {
  }

  /** A cancel push ends all calls whatever else it carries and whatever id
      would have been generated. */
  lemma CancelIgnoresOtherKeys(payload: Payload, freshId: string)
    ensures Classify(payload["type" := Str(CancelCallType)], freshId) == Cancel
  {
  }

  /** A payload whose `"type"` is absent, not a string, or another string is
      an incoming call; its `"type"` is copied through unchanged, and only an
      absent one becomes `0`. */
  lemma IncomingKeepsType(payload: Payload, freshId: string)
    requires "type" !in payload || payload["type"] != Str(CancelCallType)
    ensures Classify(payload, freshId).Incoming?
    ensures Classify(payload, freshId).info["type"]
         == if "type" in payload then payload["type"] else Int(0)
  {
  }

  /** Only the ten call-info keys of the payload matter for an incoming call. */
  lemma NormaliseOnlyReadsCallKeys(p: Payload, q: Payload, freshId: string)
    requires forall k :: k in CallInfoKeys ==> (k in p <==> k in q)
    requires forall k :: k in CallInfoKeys && k in p ==> k in q && p[k] == q[k]
    ensures Normalise(p, freshId) == Normalise(q, freshId)
  {
  }

  /** The generated id is used only when the payload has no `"id"`. */
  lemma FreshIdOnlyWhenAbsent(payload: Payload, id1: string, id2: string)
    ensures "id" in payload ==> Normalise(payload, id1) == Normalise(payload, id2)
    ensures "id" !in payload ==> Normalise(payload, id1)["id"] == Str(id1)
  {
  }

  /** Normalising an already normalised dictionary changes nothing. */
  lemma NormaliseIdempotent(payload: Payload, id1: string, id2: string)
    ensures Normalise(Normalise(payload, id1), id2) == Normalise(payload, id1)
  {
  }

  /** An empty payload is an incoming call carrying every default. */
  lemma EmptyPayloadIsAllDefaults(freshId: string)
    ensures Classify(map[], freshId) == Incoming(map[
      "id" := Str(freshId),
      "nameCaller" := Str("Unknown"),
      "handle" := Str("Caller"),
      "type" := Int(0),
      "textAccept" := Str("Answer"),
      "textDecline" := Str("Decline"),
      "textMissedCall" := Str("Missed call"),
      "textCallback" := Str("Call back"),
      "extra" := Dict(map[]),
      "ios" := Dict(map[
        "iconName" := Str("CallKitIcon"),
        "handleType" := Str("generic"),
        "supportsVideo" := Bool(true),
        "maximumCallGroups" := Int(2),
        "maximumCallsPerCallGroup" := Int(1)
      ])
    ])
  {
  }

  /** A payload with only an id, a caller name and a handle, of any values,
      keeps those three and defaults the other seven keys. */
  lemma CallerFieldsKept(id: Value, name: Value, handle: Value, freshId: string)
    ensures Classify(map["id" := id, "nameCaller" := name, "handle" := handle], freshId)
         == Incoming(Defaults(freshId)["id" := id]["nameCaller" := name]["handle" := handle])
  {
  }
}
