/** Operational events, their broker messages, and how a consumer reads a message
    (state/postgres_event_store.py, state/msk_consumer.py). */
module Envelopes {
  import opened Sequences

  /** A JSON value. JBroken is a string with an unpaired surrogate, which has no UTF-8 encoding. */
  datatype Json =
    | JNull
    | JBool(b: bool)
    | JInt(n: int)
    | JFloat(text: string)
    | JStr(s: string)
    | JBroken
    | JArr(items: seq<Json>)
    | JObj(fields: map<string, Json>)

  datatype OperationalEvent = OperationalEvent(
    eventId: string, tenantId: string, aggregateType: string, aggregateId: string, aggregateVersion: nat,
    partitionKey: string, eventType: string, schemaVersion: string, occurredAt: string, correlationId: string,
    causationId: Option<string>, actorSubject: string, payload: map<string, Json>, topic: string)

  function Envelope(e: OperationalEvent): map<string, Json> {
    map["event_id" := JStr(e.eventId), "tenant_id" := JStr(e.tenantId),
        "aggregate_type" := JStr(e.aggregateType), "aggregate_id" := JStr(e.aggregateId),
        "aggregate_version" := JInt(e.aggregateVersion), "partition_key" := JStr(e.partitionKey),
        "event_type" := JStr(e.eventType), "schema_version" := JStr(e.schemaVersion),
        "occurred_at" := JStr(e.occurredAt), "correlation_id" := JStr(e.correlationId),
        "causation_id" := if e.causationId.Some? then JStr(e.causationId.value) else JNull,
        "actor_subject" := JStr(e.actorSubject), "payload" := JObj(e.payload)]
  }

  /** A message value is bytes. ParseRaises stands for those on which the JSON parser fails with an error other than
      a decoding error: an integer of more than 4300 digits, or nesting beyond the recursion limit. */
  datatype Value = NotJson | ParseRaises | Document(json: Json)

  /** A message key is missing, text, or bytes that may fail to decode. */
  datatype Key = NoKey | TextKey(text: string) | ByteKey(text: string) | BrokenKey

  datatype Message = Message(key: Key, value: Value)

  const REQUIRED_FIELDS := {
    "event_id", "tenant_id", "aggregate_type", "aggregate_id", "aggregate_version", "partition_key",
    "event_type", "schema_version", "occurred_at", "correlation_id", "actor_subject", "payload"}

  /** A positive integer; the original's test also lets the boolean true pass. */
  predicate PositiveInteger(j: Json) { (j.JInt? && j.n > 0) || j == JBool(true) }

  function DecodeEvent(value: Value): Option<map<string, Json>> {
    if !value.Document? || !value.json.JObj? then None
    else
      var envelope := value.json.fields;
      if !(REQUIRED_FIELDS <= envelope.Keys) then None
      else if !PositiveInteger(envelope["aggregate_version"]) then None
      else if !envelope["payload"].JObj? then None
      else Some(envelope)
  }

  /** None when the bytes of the key do not decode. */
  function MessageKey(m: Message): Option<string> {
    match m.key
    case NoKey => Some("")
    case TextKey(text) => Some(text)
    case ByteKey(text) => Some(text)
    case BrokenKey => None
  }

  // ----- what the tables accept -----

  predicate IsHex(c: char) { '0' <= c <= '9' || 'a' <= c <= 'f' || 'A' <= c <= 'F' }

  function LowerHex(c: char): char {
    if 'A' <= c <= 'F' then (c as int + 32) as char else c
  }

  /** Hex digit pairs i to 15 of a UUID in lower case, with an optional hyphen after every second pair. */
  function HexPairs(s: string, i: nat): (digits: Option<string>)
    requires i <= 16
    ensures digits.Some? ==> |digits.value| == 2 * (16 - i)
    decreases |s|
  {
    if i == 16 then (if s == "" then Some("") else None)
    else if |s| < 2 || !IsHex(s[0]) || !IsHex(s[1]) then None
    else
      var rest := if |s| > 2 && s[2] == '-' && i % 2 == 1 && i < 15 then s[3..] else s[2..];
      var tail := HexPairs(rest, i + 1);
      if tail.None? then None else Some([LowerHex(s[0]), LowerHex(s[1])] + tail.value)
  }

  /** The 32 digits of a text that a uuid column accepts. */
  function UuidDigits(s: string): (digits: Option<string>)
    ensures digits.Some? ==> |digits.value| == 32
  {
    if |s| >= 2 && s[0] == '{' && s[|s| - 1] == '}' then HexPairs(s[1..|s| - 1], 0) else HexPairs(s, 0)
  }

  /** The text that str(uuid) gives. */
  function Hyphenated(digits: string): string
    requires |digits| == 32
  {
    digits[..8] + "-" + digits[8..12] + "-" + digits[12..16] + "-" + digits[16..20] + "-" + digits[20..]
  }

  predicate GeneratedUuid(s: string) {
    UuidDigits(s).Some? && s == Hyphenated(UuidDigits(s).value)
  }

  /** A text column takes everything but the zero character. */
  predicate StorableText(s: string) { '\0' !in s }

  function DecimalDigits(n: nat): nat { if n < 10 then 1 else 1 + DecimalDigits(n / 10) }

  /** A jsonb column takes neither zero characters nor unpaired surrogates nor the numbers that are none; and integers
      of more than 4300 digits are not even written out. */
  predicate StorableJson(j: Json) {
    match j
    case JInt(n) => DecimalDigits(if n < 0 then -n else n) <= 4300
    case JFloat(text) => text !in {"NaN", "Infinity", "-Infinity"}
    case JStr(s) => StorableText(s)
    case JBroken => false
    case JArr(items) => forall i :: 0 <= i < |items| ==> StorableJson(items[i])
    case JObj(fields) => forall k :: k in fields ==> StorableText(k) && StorableJson(fields[k])
    case _ => true
  }

  /** The consumed-event table has a text column for the tenant and a uuid column for the event. */
  predicate Recordable(envelope: map<string, Json>) {
    && "tenant_id" in envelope && envelope["tenant_id"].JStr? && StorableText(envelope["tenant_id"].s)
    && "event_id" in envelope && envelope["event_id"].JStr? && UuidDigits(envelope["event_id"].s).Some?
  }

  function TextColumns(e: OperationalEvent): seq<string> {
    [e.tenantId, e.aggregateType, e.aggregateId, e.partitionKey, e.eventType, e.schemaVersion, e.actorSubject, e.topic]
  }

  function UuidColumns(e: OperationalEvent): seq<string> {
    [e.correlationId] + (if e.causationId.Some? then [e.causationId.value] else [])
  }

  /** What the columns of the event and outbox tables accept. */
  predicate Insertable(e: OperationalEvent) {
    && GeneratedUuid(e.eventId)
    && (forall text :: text in TextColumns(e) ==> StorableText(text))
    && (forall text :: text in UuidColumns(e) ==> UuidDigits(text).Some?)
    && StorableJson(JObj(e.payload))
  }

  // ----- what a consumer does with a message -----

  /** Apply it, dead-letter it, or fail on it every time without committing. */
  datatype Verdict = Process(envelope: map<string, Json>) | Poison | Blocked

  predicate KeyAgrees(key: string, envelope: map<string, Json>)
    requires "partition_key" in envelope
  {
    key == "" || JStr(key) == envelope["partition_key"]
  }

  function Classify(m: Message): Verdict {
    var envelope := DecodeEvent(m.value);
    var key := MessageKey(m);
    // An error the decoder does not catch, and a key that does not decode, which makes the dead-letter path itself fail.
    if m.value.ParseRaises? || key.None? then Blocked
    else if envelope.None? then Poison
    else if !KeyAgrees(key.value, envelope.value) then Poison
    // The insert into the consumed-event table fails on every delivery.
    else if !Recordable(envelope.value) then Blocked
    else Process(envelope.value)
  }

  /** The messages that fail on every delivery: the parser raises, the key does not decode, or the envelope is good but
      its tenant is no text or its event id no UUID. */
  predicate StopsItsLane(m: Message) {
    || m.value.ParseRaises?
    || m.key.BrokenKey?
    || (var envelope := DecodeEvent(m.value);
        envelope.Some? && KeyAgrees(MessageKey(m).value, envelope.value) && !Recordable(envelope.value))
  }

  lemma BlockedIffStops(m: Message)
    ensures Classify(m).Blocked? <==> StopsItsLane(m)
  {
  }

  /** The message the outbox publishes for an event. */
  function Render(e: OperationalEvent): Message {
    Message(ByteKey(e.partitionKey), Document(JObj(Envelope(e))))
  }

  /** The envelope says all there is to say about the event: its thirteen fields, and nothing else. */
  ghost predicate Tells(envelope: map<string, Json>, e: OperationalEvent) {
    && envelope.Keys == REQUIRED_FIELDS + {"causation_id"}
    && envelope["event_id"] == JStr(e.eventId) && envelope["tenant_id"] == JStr(e.tenantId)
    && envelope["aggregate_type"] == JStr(e.aggregateType) && envelope["aggregate_id"] == JStr(e.aggregateId)
    && envelope["aggregate_version"] == JInt(e.aggregateVersion)
    && envelope["partition_key"] == JStr(e.partitionKey)
    && envelope["event_type"] == JStr(e.eventType) && envelope["schema_version"] == JStr(e.schemaVersion)
    && envelope["occurred_at"] == JStr(e.occurredAt) && envelope["correlation_id"] == JStr(e.correlationId)
    && (e.causationId.None? ==> envelope["causation_id"] == JNull)
    && (e.causationId.Some? ==> envelope["causation_id"] == JStr(e.causationId.value))
    && envelope["actor_subject"] == JStr(e.actorSubject) && envelope["payload"] == JObj(e.payload)
  }

  lemma EnvelopeFields(e: OperationalEvent)
    ensures Tells(Envelope(e), e)
  {
  }

  /** Two envelopes that tell of one event are the same. */
  lemma OneEnvelope(a: map<string, Json>, b: map<string, Json>, e: OperationalEvent)
    requires Tells(a, e) && Tells(b, e)
    ensures a == b
  {
    forall k | k in a
      ensures a[k] == b[k]
    {
    }
  }

  /** A published event is always readable. */
  lemma RenderedIsProcessable(e: OperationalEvent)
    requires e.aggregateVersion > 0 && Insertable(e)
    ensures Classify(Render(e)) == Process(Envelope(e)) && Tells(Envelope(e), e)
  {
    EnvelopeFields(e);
    TellingIsProcessable(Envelope(e), e);
  }

  lemma TellingIsProcessable(envelope: map<string, Json>, e: OperationalEvent)
    requires Tells(envelope, e) && e.aggregateVersion > 0 && Insertable(e)
    ensures Classify(Message(ByteKey(e.partitionKey), Document(JObj(envelope)))) == Process(envelope)
  {
    assert TextColumns(e)[0] == e.tenantId;
  }

  /** Generated ids with the same digits are the same text. */
  lemma GeneratedUuidsDiffer(a: string, b: string)
    requires GeneratedUuid(a) && GeneratedUuid(b) && UuidDigits(a) == UuidDigits(b)
    ensures a == b
  {
  }
}
