/** What a consumer accepts and what the tables store, each in its own words (state/msk_consumer.py,
    state/postgres_event_store.py). */
module EnvelopeRules {
  import opened Sequences
  import opened Envelopes

  // ----- reading a message -----

  ghost predicate HasFields(envelope: map<string, Json>) {
    && "event_id" in envelope && "tenant_id" in envelope && "aggregate_type" in envelope && "aggregate_id" in envelope
    && "aggregate_version" in envelope && "partition_key" in envelope && "event_type" in envelope
    && "schema_version" in envelope && "occurred_at" in envelope && "correlation_id" in envelope
    && "actor_subject" in envelope && "payload" in envelope
  }

  /** The value is an object with the twelve required fields, a positive version and an object as payload. */
  ghost predicate IsEvent(value: Value, envelope: map<string, Json>) {
    && value == Document(JObj(envelope)) && HasFields(envelope)
    && (match envelope["aggregate_version"]
        case JInt(n) => n >= 1
        case JBool(b) => b
        case _ => false)
    && envelope["payload"].JObj?
  }

  lemma DecodedIff(value: Value, envelope: map<string, Json>)
    ensures DecodeEvent(value) == Some(envelope) <==> IsEvent(value, envelope)
  {
  }

  /** No key, an empty one, or the one the envelope names. */
  ghost predicate KeyFits(m: Message, envelope: map<string, Json>) {
    match m.key
    case NoKey => true
    case BrokenKey => false
    case TextKey(text) => text == "" || ("partition_key" in envelope && envelope["partition_key"] == JStr(text))
    case ByteKey(text) => text == "" || ("partition_key" in envelope && envelope["partition_key"] == JStr(text))
  }

  /** The consumed-event table can name the event: by a tenant it can store and an id that is a UUID. */
  ghost predicate CanBeNamed(envelope: map<string, Json>) {
    "tenant_id" in envelope && "event_id" in envelope
    && match (envelope["tenant_id"], envelope["event_id"])
       case (JStr(tenant), JStr(id)) => '\0' !in tenant && UuidDigits(id).Some?
       case _ => false
  }

  /** A message is applied exactly if it is an event, its key fits, and the table can name it. */
  lemma ProcessedIff(m: Message, envelope: map<string, Json>)
    ensures Classify(m) == Process(envelope) <==> IsEvent(m.value, envelope) && KeyFits(m, envelope) && CanBeNamed(envelope)
  {
    DecodedIff(m.value, envelope);
  }

  /** It is dead-lettered exactly if key and value can be read, and the value is no event, or the key is another's. */
  lemma PoisonIff(m: Message)
    ensures Classify(m).Poison? <==>
      m.key != BrokenKey && m.value != ParseRaises && forall envelope :: !(IsEvent(m.value, envelope) && KeyFits(m, envelope))
  {
    if DecodeEvent(m.value).Some? {
      DecodedIff(m.value, DecodeEvent(m.value).value);
    }
    forall envelope
      ensures DecodeEvent(m.value) == Some(envelope) <==> IsEvent(m.value, envelope)
    {
      DecodedIff(m.value, envelope);
    }
  }

  // ----- UUIDs -----

  function Lowered(s: string): string { seq(|s|, i requires 0 <= i < |s| => LowerHex(s[i])) }

  predicate IsDigit(c: char) { c != '-' }

  /** The digits of the text, without hyphens, in lower case. */
  ghost function Plain(s: string): string { Lowered(Filter(IsDigit, s)) }

  lemma LowerCaseHex(c: char)
    requires IsHex(c)
    ensures IsHex(LowerHex(c)) && !('A' <= LowerHex(c) <= 'F') && c != '-'
    ensures LowerHex(c) == c <==> !('A' <= c <= 'F')
    ensures 'A' <= c <= 'F' ==> LowerHex(c) as int - 'a' as int == c as int - 'A' as int
  {
  }

  lemma PlainSplits(s: string, t: string)
    ensures Plain(s + t) == Plain(s) + Plain(t)
  {
    FilterConcat(IsDigit, s, t);
  }

  lemma PlainPair(s: string)
    requires |s| == 2 && IsHex(s[0]) && IsHex(s[1])
    ensures Plain(s) == [LowerHex(s[0]), LowerHex(s[1])]
  {
    assert s == [s[0]] + [s[1]];
    FilterConcat(IsDigit, [s[0]], [s[1]]);
    FilterOne(IsDigit, s[0]);
    FilterOne(IsDigit, s[1]);
  }

  /** What is read are the digits of the text. */
  lemma {:induction false} HexPairsArePlain(s: string, i: nat)
    requires i <= 16 && HexPairs(s, i).Some?
    ensures HexPairs(s, i).value == Plain(s)
    decreases |s|
  {
    if i < 16 {
      var hyphen := |s| > 2 && s[2] == '-' && i % 2 == 1 && i < 15;
      var rest := if hyphen then s[3..] else s[2..];
      HexPairsArePlain(rest, i + 1);
      PlainPair(s[..2]);
      if hyphen {
        assert s == s[..2] + ("-" + s[3..]);
        PlainSplits(s[..2], "-" + s[3..]);
        PlainSplits("-", s[3..]);
        FilterOne(IsDigit, '-');
      } else {
        assert s == s[..2] + s[2..];
        PlainSplits(s[..2], s[2..]);
      }
    }
  }

  predicate InBraces(s: string) { |s| >= 2 && s[0] == '{' && s[|s| - 1] == '}' }

  /** The digits of an accepted text are those it shows, braces aside; so the case of letters and the place of hyphens do
      not tell ids apart. */
  lemma UuidIsPlain(s: string)
    ensures UuidDigits(s).Some? ==> UuidDigits(s).value == Plain(if InBraces(s) then s[1..|s| - 1] else s)
  {
    var inner := if InBraces(s) then s[1..|s| - 1] else s;
    if UuidDigits(s).Some? {
      HexPairsArePlain(inner, 0);
    }
  }

  ghost predicate LowerHexText(d: string) {
    forall i :: 0 <= i < |d| ==> '0' <= d[i] <= '9' || 'a' <= d[i] <= 'f'
  }

  /** What follows the i-th pair of digits. */
  function HyphenAfter(i: nat): string { if i in {3, 5, 7, 9} then "-" else "" }

  /** The digits with hyphens, if the first two are the i-th pair. */
  function Written(digits: string, i: nat): string {
    if |digits| < 2 then digits else [digits[0], digits[1]] + HyphenAfter(i) + Written(digits[2..], i + 1)
  }

  /** A pair of lower-case digits is read off the front, with the hyphen behind it if there is one. */
  lemma PairIsRead(a: char, b: char, hyphen: bool, rest: string, i: nat, digits: string)
    requires i < 16 && LowerHexText([a, b]) && HexPairs(rest, i + 1) == Some(digits)
    requires if hyphen then i % 2 == 1 && i < 15 else i < 15 ==> rest != "" && rest[0] != '-'
    ensures HexPairs([a, b] + (if hyphen then "-" else "") + rest, i) == Some([a, b] + digits)
  {
    var s := [a, b] + (if hyphen then "-" else "") + rest;
    assert [a, b][0] == a && [a, b][1] == b;
    assert s[0] == a && s[1] == b && LowerHex(a) == a && LowerHex(b) == b;
    if hyphen {
      assert s[2] == '-' && s[3..] == rest;
    } else {
      assert s[2..] == rest;
    }
  }

  lemma {:induction false} WrittenIsRead(d: string, i: nat)
    requires i <= 16 && |d| == 32 - 2 * i && LowerHexText(d)
    ensures HexPairs(Written(d, i), i) == Some(d)
    decreases 16 - i
  {
    if i < 16 {
      WrittenIsRead(d[2..], i + 1);
      assert i < 15 ==> Written(d[2..], i + 1)[0] == d[2];
      PairIsRead(d[0], d[1], i in {3, 5, 7, 9}, Written(d[2..], i + 1), i, d[2..]);
      assert d == [d[0], d[1]] + d[2..];
    }
  }

  /** Two pairs make a group; all but the first are followed by a hyphen. */
  lemma GroupOfFour(head: string, tail: string, i: nat)
    requires |head| == 4 && i % 2 == 0
    ensures Written(head + tail, i) == head + HyphenAfter(i + 1) + Written(tail, i + 2)
  {
    var d := head + tail;
    assert d[2..] == head[2..] + tail && d[2..][2..] == tail;
    assert HyphenAfter(i) == "";
    assert head == [d[0], d[1]] + [d[2], d[3]];
  }

  lemma {:induction false} TailHasNoHyphens(d: string, i: nat)
    requires i >= 10
    ensures Written(d, i) == d
    decreases |d|
  {
    if |d| >= 2 {
      TailHasNoHyphens(d[2..], i + 1);
    }
  }

  lemma JoinGroups(a: string, b: string, c: string, e: string, f: string, g: string)
    ensures a + (b + "-" + (c + "-" + (e + "-" + (f + "-" + g)))) == (a + b) + "-" + c + "-" + e + "-" + f + "-" + g
  {
    assert e + "-" + (f + "-" + g) == e + "-" + f + "-" + g;
    assert c + "-" + (e + "-" + f + "-" + g) == c + "-" + e + "-" + f + "-" + g;
    assert b + "-" + (c + "-" + e + "-" + f + "-" + g) == b + "-" + c + "-" + e + "-" + f + "-" + g;
  }

  lemma TwoGroups(a: string, b: string, rest: string, i: nat)
    requires |a| == |b| == 4 && i in {2, 6}
    ensures Written(a + (b + rest), i) == a + "-" + (b + "-" + Written(rest, i + 4))
  {
    GroupOfFour(b, rest, i + 2);
    GroupOfFour(a, b + rest, i);
  }

  lemma GroupsAreWritten(a: string, b: string, c: string, e: string, f: string, g: string)
    requires |a| == |b| == |c| == |e| == |f| == 4
    ensures Written(a + (b + (c + (e + (f + g)))), 0) == (a + b) + "-" + c + "-" + e + "-" + f + "-" + g
  {
    TailHasNoHyphens(g, 10);
    TwoGroups(e, f, g, 6);
    TwoGroups(b, c, e + (f + g), 2);
    GroupOfFour(a, b + (c + (e + (f + g))), 0);
    JoinGroups(a, b, c, e, f, g);
  }

  lemma HyphenatedIsWritten(d: string)
    requires |d| == 32
    ensures Hyphenated(d) == Written(d, 0)
  {
    GroupsAreWritten(d[..4], d[4..8], d[8..12], d[12..16], d[16..20], d[20..]);
    assert d[16..] == d[16..20] + d[20..] && d[12..] == d[12..16] + d[16..] && d[8..] == d[8..12] + d[12..];
    assert d[4..] == d[4..8] + d[8..] && d == d[..4] + d[4..];
    assert d[..8] == d[..4] + d[4..8];
  }

  /** Writing out 32 digits and reading them back gives the digits: str(uuid) is accepted, and is itself. */
  lemma UuidRoundTrip(d: string)
    requires |d| == 32 && LowerHexText(d)
    ensures UuidDigits(Hyphenated(d)) == Some(d) && GeneratedUuid(Hyphenated(d))
  {
    HyphenatedIsWritten(d);
    WrittenIsRead(d, 0);
    assert Hyphenated(d)[0] == d[0];
  }

  // ----- what a jsonb column stores -----

  function Power(n: nat): int { if n == 0 then 1 else 10 * Power(n - 1) }

  lemma {:induction false} DigitsIff(n: nat, k: nat)
    requires k >= 1
    ensures DecimalDigits(n) <= k <==> n < Power(k)
  {
    if n < 10 {
      PowerIsLarge(k);
    } else if k == 1 {
      assert Power(1) == 10 * Power(0);
      assert DecimalDigits(n / 10) >= 1;
    } else {
      DigitsIff(n / 10, k - 1);
    }
  }

  lemma {:induction false} PowerIsLarge(k: nat)
    requires k >= 1
    ensures Power(k) >= 10
  {
    if k > 1 {
      PowerIsLarge(k - 1);
    }
  }

  /** The value itself, or a part of one of its items or fields. */
  ghost predicate IsPart(part: Json, j: Json)
    decreases j
  {
    || part == j
    || match j
       case JArr(items) => exists i :: 0 <= i < |items| && IsPart(part, items[i])
       case JObj(fields) => exists k :: k in fields && IsPart(part, fields[k])
       case _ => false
  }

  /** No unpaired surrogate, no zero character, no number that is none, no integer of more than 4300 digits. */
  ghost predicate IsPlainValue(part: Json) {
    && part != JBroken
    && (part.JStr? ==> '\0' !in part.s)
    && (part.JFloat? ==> part.text != "NaN" && part.text != "Infinity" && part.text != "-Infinity")
    && (part.JInt? ==> -Power(4300) < part.n < Power(4300))
    && (part.JObj? ==> forall k :: k in part.fields ==> '\0' !in k)
  }

  lemma IntIsStorable(n: int)
    ensures StorableJson(JInt(n)) <==> -Power(4300) < n < Power(4300)
  {
    DigitsIff(if n < 0 then -n else n, 4300);
  }

  lemma {:induction false} StorableParts(j: Json)
    requires StorableJson(j)
    ensures forall part :: IsPart(part, j) ==> IsPlainValue(part)
    decreases j
  {
    forall part | IsPart(part, j)
      ensures IsPlainValue(part)
    {
      if part == j {
        if j.JInt? {
          IntIsStorable(j.n);
        }
      } else {
        match j
        case JArr(items) =>
          var i :| 0 <= i < |items| && IsPart(part, items[i]);
          StorableParts(items[i]);
        case JObj(fields) =>
          var k :| k in fields && IsPart(part, fields[k]);
          StorableParts(fields[k]);
        case _ =>
      }
    }
  }

  lemma {:induction false} PlainPartsAreStorable(j: Json)
    requires forall part :: IsPart(part, j) ==> IsPlainValue(part)
    ensures StorableJson(j)
    decreases j
  {
    assert IsPart(j, j);
    match j
    case JInt(n) => IntIsStorable(n);
    case JArr(items) =>
      forall i | 0 <= i < |items|
        ensures StorableJson(items[i])
      {
        assert forall part :: IsPart(part, items[i]) ==> IsPart(part, j);
        PlainPartsAreStorable(items[i]);
      }
    case JObj(fields) =>
      forall k | k in fields
        ensures StorableJson(fields[k])
      {
        assert forall part :: IsPart(part, fields[k]) ==> IsPart(part, j);
        PlainPartsAreStorable(fields[k]);
      }
    case _ =>
  }

  /** A value is stored exactly if all its parts are plain. */
  lemma StorableIff(j: Json)
    ensures StorableJson(j) <==> forall part :: IsPart(part, j) ==> IsPlainValue(part)
  {
    if StorableJson(j) {
      StorableParts(j);
    }
    if forall part :: IsPart(part, j) ==> IsPlainValue(part) {
      PlainPartsAreStorable(j);
    }
  }

  /** The event's texts have no zero character, its correlation and causation are UUIDs, and its payload is plain. */
  ghost predicate FitsColumns(e: OperationalEvent) {
    && '\0' !in e.tenantId && '\0' !in e.aggregateType && '\0' !in e.aggregateId && '\0' !in e.partitionKey
    && '\0' !in e.eventType && '\0' !in e.schemaVersion && '\0' !in e.actorSubject && '\0' !in e.topic
    && UuidDigits(e.correlationId).Some? && (e.causationId.Some? ==> UuidDigits(e.causationId.value).Some?)
    && (forall part :: IsPart(part, JObj(e.payload)) ==> IsPlainValue(part))
  }

  lemma TextColumnsMean(e: OperationalEvent)
    ensures (forall text :: text in TextColumns(e) ==> StorableText(text)) <==>
      && '\0' !in e.tenantId && '\0' !in e.aggregateType && '\0' !in e.aggregateId && '\0' !in e.partitionKey
      && '\0' !in e.eventType && '\0' !in e.schemaVersion && '\0' !in e.actorSubject && '\0' !in e.topic
  {
    var c := TextColumns(e);
    assert c[0] in c && c[1] in c && c[2] in c && c[3] in c && c[4] in c && c[5] in c && c[6] in c && c[7] in c;
  }

  lemma UuidColumnsMean(e: OperationalEvent)
    ensures (forall text :: text in UuidColumns(e) ==> UuidDigits(text).Some?) <==>
      UuidDigits(e.correlationId).Some? && (e.causationId.Some? ==> UuidDigits(e.causationId.value).Some?)
  {
    var c := UuidColumns(e);
    assert c[0] in c && (e.causationId.Some? ==> c[1] in c);
  }

  /** An event is inserted exactly if its id is a generated one and it fits its columns. */
  lemma InsertableIff(e: OperationalEvent)
    ensures Insertable(e) <==> GeneratedUuid(e.eventId) && FitsColumns(e)
  {
    TextColumnsMean(e);
    UuidColumnsMean(e);
    StorableIff(JObj(e.payload));
  }
}
