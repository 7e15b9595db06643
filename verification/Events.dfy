/** The events that cross the bus, the keys derived from them, and their rows in the bus journal. */
module Events {
  import opened Wrappers
  import opened PyStrings
  import opened Sequences

  /** A metadata value, as far as the code looks into it. */
  datatype MetaValue = Text(text: string) | Null | Flag(on: bool) | Number(n: int) {
    /** `str(value)`. */
    function Str(): string {
      match this
      case Text(s) => s
      case Null => "None"
      case Flag(b) => if b then "True" else "False"
      case Number(n) => if n < 0 then "-" + Decimal(-n) else Decimal(n)
    }

    /** `bool(value)`. */
    predicate Truthy() {
      match this
      case Text(s) => s != ""
      case Null => false
      case Flag(b) => b
      case Number(n) => n != 0
    }
  }

  type Metadata = map<string, MetaValue>

  datatype InboundEvent = InboundEvent(
    channel: string, sessionId: string, userId: string, text: string,
    metadata: Metadata, createdAt: string, envelopeVersion: int, correlationId: string)

  datatype OutboundEvent = OutboundEvent(
    channel: string, sessionId: string, target: string, text: string, metadata: Metadata,
    attempt: int, maxAttempts: int, retryable: bool,
    deadLettered: bool, deadLetterReason: string, lastError: string,
    createdAt: string, envelopeVersion: int, correlationId: string)

  // ---------- Delivery keys ----------

  const KEY_FIELD := "_delivery_idempotency_key"
  const REPLAYED_FIELD := "_replayed_from_dead_letter"

  function HexDigit(n: nat): char
    requires n < 16
  {
    if n < 10 then ('0' as int + n) as char else ('a' as int + n - 10) as char
  }

  /** The text of a digest. */
  function Hex(n: nat): (r: string)
    ensures r != "" && Stripped(r)
  {
    if n < 16 then [HexDigit(n)] else Hex(n / 16) + [HexDigit(n % 16)]
  }

  /** SHA-256 is any function from texts to numbers. */
  type Digest = string -> nat

  /** No two texts share a digest. */
  ghost predicate Injective(sha: Digest) {
    forall s, t :: sha(s) == sha(t) ==> s == t
  }

  lemma HexDigitInjective(a: nat, b: nat)
    requires a < 16 && b < 16 && HexDigit(a) == HexDigit(b)
    ensures a == b
  {
  }

  lemma {:induction false} HexInjective(m: nat, n: nat)
    requires Hex(m) == Hex(n)
    ensures m == n
  {
    HexDigitInjective(m % 16, n % 16);
    if m >= 16 && n >= 16 {
      assert Hex(m)[..|Hex(m)| - 1] == Hex(m / 16) && Hex(n)[..|Hex(n)| - 1] == Hex(n / 16);
      HexInjective(m / 16, n / 16);
    }
  }

  function KeyPayload(e: OutboundEvent): string {
    e.channel + "\n" + e.sessionId + "\n" + e.target + "\n" + e.text + "\n" + e.createdAt
  }

  function DerivedKey(e: OutboundEvent, sha: Digest): (key: string)
    ensures key != "" && Stripped(key) && key[0] == 'd'
  {
    "dlv:" + Hex(sha(KeyPayload(e)))
  }

  lemma SuffixCancels(a: string, b: string, tail: string)
    requires a + tail == b + tail
    ensures a == b
  {
    assert |a| == |b|;
    assert a == (a + tail)[..|a|] && b == (b + tail)[..|b|];
  }

  lemma PrefixCancels(head: string, a: string, b: string)
    requires head + a == head + b
    ensures a == b
  {
    assert a == (head + a)[|head|..] && b == (head + b)[|head|..];
  }

  /** Two texts that end in a line each, and agree in one of the two parts. */
  lemma LineTells(a: string, x: string, b: string, y: string)
    requires a + "\n" + x == b + "\n" + y
    ensures x == y ==> a == b
    ensures a == b ==> x == y
  {
    if x == y {
      SuffixCancels(a + "\n", b + "\n", x);
      SuffixCancels(a, b, "\n");
    }
    if a == b { PrefixCancels(a + "\n", x, y); }
  }

  /** How many of the five texts that make up a derived key differ. */
  function Differences(a: OutboundEvent, b: OutboundEvent): nat {
    (if a.channel != b.channel then 1 else 0) + (if a.sessionId != b.sessionId then 1 else 0)
    + (if a.target != b.target then 1 else 0) + (if a.text != b.text then 1 else 0) + (if a.createdAt != b.createdAt then 1 else 0)
  }

  lemma PayloadTellsOne(a: OutboundEvent, b: OutboundEvent)
    requires Differences(a, b) == 1
    ensures KeyPayload(a) != KeyPayload(b)
  {
    var a2, b2 := a.channel + "\n" + a.sessionId, b.channel + "\n" + b.sessionId;
    var a3, b3 := a2 + "\n" + a.target, b2 + "\n" + b.target;
    var a4, b4 := a3 + "\n" + a.text, b3 + "\n" + b.text;
    if KeyPayload(a) == KeyPayload(b) {
      LineTells(a4, a.createdAt, b4, b.createdAt);
      if a.createdAt == b.createdAt { LineTells(a3, a.text, b3, b.text); }
      if a3 == b3 { LineTells(a2, a.target, b2, b.target); }
      if a2 == b2 { LineTells(a.channel, a.sessionId, b.channel, b.sessionId); }
    }
  }

  /** Two events that differ in one of channel, session, target, text and creation time have different derived keys. */
  lemma DerivedKeysDiffer(a: OutboundEvent, b: OutboundEvent, sha: Digest)
    requires Injective(sha) && Differences(a, b) == 1
    ensures DerivedKey(a, sha) != DerivedKey(b, sha)
  {
    PayloadTellsOne(a, b);
    if DerivedKey(a, sha) == DerivedKey(b, sha) {
      assert DerivedKey(a, sha)[4..] == Hex(sha(KeyPayload(a))) && DerivedKey(b, sha)[4..] == Hex(sha(KeyPayload(b)));
      HexInjective(sha(KeyPayload(a)), sha(KeyPayload(b)));
    }
  }

  predicate OneLine(s: string) {
    Free(s, '\n')
  }

  lemma FirstLineIsFixed(a: string, x: string, b: string, y: string)
    requires OneLine(a) && OneLine(b) && a + "\n" + x == b + "\n" + y
    ensures a == b && x == y
  {
    PartitionAt(a, "\n", x);
    PartitionAt(b, "\n", y);
  }

  lemma {:induction false} LastBreakAt(a: string, x: string)
    requires OneLine(x)
    ensures LastOf(a + "\n" + x, '\n') == |a|
    decreases |x|
  {
    if x == "" {
      LastOfPush(a, '\n', '\n');
      assert a + "\n" + x == a + ['\n'];
    } else {
      var front, last := x[..|x| - 1], x[|x| - 1];
      LastBreakAt(a, front);
      LastOfPush(a + "\n" + front, last, '\n');
      assert a + "\n" + x == a + "\n" + front + [last];
    }
  }

  lemma LastLineIsFixed(a: string, x: string, b: string, y: string)
    requires OneLine(x) && OneLine(y) && a + "\n" + x == b + "\n" + y
    ensures a == b && x == y
  {
    LastBreakAt(a, x);
    LastBreakAt(b, y);
    assert a == (a + "\n" + x)[..|a|] && b == (b + "\n" + y)[..|b|];
    LineTells(a, x, b, y);
  }

  lemma Regroup(a: string, b: string, c: string, d: string)
    ensures a + "\n" + b + "\n" + c + "\n" + d == a + "\n" + (b + "\n" + c + "\n" + d)
  {
  }

  lemma RegroupThree(a: string, b: string, c: string)
    ensures a + "\n" + b + "\n" + c == a + "\n" + (b + "\n" + c)
  {
  }

  lemma ThreeLinesAreFixed(a: string, b: string, c: string, a': string, b': string, c': string)
    requires OneLine(a) && OneLine(b) && OneLine(a') && OneLine(b')
    requires a + "\n" + b + "\n" + c == a' + "\n" + b' + "\n" + c'
    ensures a == a' && b == b' && c == c'
  {
    RegroupThree(a, b, c);
    RegroupThree(a', b', c');
    FirstLineIsFixed(a, b + "\n" + c, a', b' + "\n" + c');
    FirstLineIsFixed(b, c, b', c');
  }

  lemma FourLinesAreFixed(a: string, b: string, c: string, d: string, a': string, b': string, c': string, d': string)
    requires OneLine(a) && OneLine(b) && OneLine(c) && OneLine(a') && OneLine(b') && OneLine(c')
    requires a + "\n" + b + "\n" + c + "\n" + d == a' + "\n" + b' + "\n" + c' + "\n" + d'
    ensures a == a' && b == b' && c == c' && d == d'
  {
    Regroup(a, b, c, d);
    Regroup(a', b', c', d');
    FirstLineIsFixed(a, b + "\n" + c + "\n" + d, a', b' + "\n" + c' + "\n" + d');
    ThreeLinesAreFixed(b, c, d, b', c', d');
  }

  /** No line break can be taken for another where only the text has several lines. */
  predicate Lined(e: OutboundEvent) {
    OneLine(e.channel) && OneLine(e.sessionId) && OneLine(e.target) && OneLine(e.createdAt)
  }

  lemma PayloadIsFixed(a: OutboundEvent, b: OutboundEvent)
    requires Lined(a) && Lined(b) && KeyPayload(a) == KeyPayload(b)
    ensures Differences(a, b) == 0
  {
    var a4 := a.channel + "\n" + a.sessionId + "\n" + a.target + "\n" + a.text;
    var b4 := b.channel + "\n" + b.sessionId + "\n" + b.target + "\n" + b.text;
    LastLineIsFixed(a4, a.createdAt, b4, b.createdAt);
    FourLinesAreFixed(a.channel, a.sessionId, a.target, a.text, b.channel, b.sessionId, b.target, b.text);
  }

  /** Events whose ids and times are single lines share a derived key exactly when all five texts agree. */
  lemma SameDerivedKeyIff(a: OutboundEvent, b: OutboundEvent, sha: Digest)
    requires Injective(sha) && Lined(a) && Lined(b)
    ensures DerivedKey(a, sha) == DerivedKey(b, sha) <==> Differences(a, b) == 0
  {
    if DerivedKey(a, sha) == DerivedKey(b, sha) {
      assert DerivedKey(a, sha)[4..] == Hex(sha(KeyPayload(a))) && DerivedKey(b, sha)[4..] == Hex(sha(KeyPayload(b)));
      HexInjective(sha(KeyPayload(a)), sha(KeyPayload(b)));
      PayloadIsFixed(a, b);
    }
  }

  /** The explicit key as the sender reads it: `str(metadata.get(field, "")).strip()`. */
  function ExplicitForSender(m: Metadata): string {
    if KEY_FIELD in m then Strip(m[KEY_FIELD].Str()) else ""
  }

  /** The explicit key as the bus and the dead-letter journal read it: `str(metadata.get(field, "") or "").strip()`. */
  function ExplicitForBus(m: Metadata): string {
    if KEY_FIELD in m && m[KEY_FIELD].Truthy() then Strip(m[KEY_FIELD].Str()) else ""
  }

  /** The key the sender remembers, and the event with that key in its metadata. */
  function Ensured(e: OutboundEvent, sha: Digest): (OutboundEvent, string) {
    var explicit := ExplicitForSender(e.metadata);
    if explicit != "" then (e, explicit)
    else
      var key := DerivedKey(e, sha);
      (e.(metadata := e.metadata[KEY_FIELD := Text(key)]), key)
  }

  function BusKey(e: OutboundEvent, sha: Digest): string {
    var explicit := ExplicitForBus(e.metadata);
    if explicit != "" then explicit else DerivedKey(e, sha)
  }

  /** A text that is not blank is the event's key, stripped, for the sender and for the bus; without one, or with a blank one, both derive it. */
  lemma ExplicitKeyWins(e: OutboundEvent, sha: Digest)
    ensures var v := if KEY_FIELD in e.metadata then e.metadata[KEY_FIELD] else Text("");
            v.Text? ==>
              if Strip(v.text) != "" then Ensured(e, sha) == (e, Strip(v.text)) && BusKey(e, sha) == Strip(v.text)
              else Ensured(e, sha) == (e.(metadata := e.metadata[KEY_FIELD := Text(DerivedKey(e, sha))]), DerivedKey(e, sha))
                   && BusKey(e, sha) == DerivedKey(e, sha)
  {
    assert Strip("") == "";
  }

  /** A falsy value that is not a text: the sender turns it into a key, the bus does not. */
  predicate OddKey(m: Metadata) {
    KEY_FIELD in m && !m[KEY_FIELD].Text? && !m[KEY_FIELD].Truthy()
  }

  lemma OddKeyText(v: MetaValue)
    requires !v.Text? && !v.Truthy()
    ensures Strip(v.Str()) != "" && Strip(v.Str())[0] != 'd'
  {
    assert Stripped("None") && Stripped("False") && Stripped("0");
    assert Decimal(0) == "0";
  }

  /** Sender and bus agree on an event's key exactly when its explicit key is absent, a text, or truthy. */
  lemma KeysAgreeIff(e: OutboundEvent, sha: Digest)
    ensures Ensured(e, sha).1 == BusKey(e, sha) <==> !OddKey(e.metadata)
  {
    if OddKey(e.metadata) { OddKeyText(e.metadata[KEY_FIELD]); }
  }

  /** Once ensured, the key survives every rewriting that keeps the key field: retries and replays change nothing. */
  lemma EnsuredKeyIsStable(e: OutboundEvent, rewritten: OutboundEvent, sha: Digest)
    requires KEY_FIELD in rewritten.metadata && KEY_FIELD in Ensured(e, sha).0.metadata
    requires rewritten.metadata[KEY_FIELD] == Ensured(e, sha).0.metadata[KEY_FIELD]
    ensures Ensured(rewritten, sha) == (rewritten, Ensured(e, sha).1)
    ensures !OddKey(e.metadata) ==> BusKey(rewritten, sha) == Ensured(e, sha).1
  {
    if OddKey(e.metadata) { OddKeyText(e.metadata[KEY_FIELD]); }
  }

  // ---------- Journal rows ----------

  datatype OutboundRow = OutboundRow(
    correlationId: string, channel: string, sessionId: string, target: string, text: string, metadata: Metadata,
    attempt: int, maxAttempts: int, retryable: int,
    deadLettered: int, deadLetterReason: string, lastError: string, createdAt: string)

  function BoolColumn(b: bool): int { if b then 1 else 0 }

  function OrOne(n: int): int { if n == 0 then 1 else n }

  function ToRow(e: OutboundEvent): OutboundRow {
    OutboundRow(e.correlationId, e.channel, e.sessionId, e.target, e.text, e.metadata,
                e.attempt, e.maxAttempts, BoolColumn(e.retryable),
                BoolColumn(e.deadLettered), e.deadLetterReason, e.lastError, e.createdAt)
  }

  function FromRow(r: OutboundRow): OutboundEvent {
    OutboundEvent(r.channel, r.sessionId, r.target, r.text, r.metadata,
                  OrOne(r.attempt), OrOne(r.maxAttempts), r.retryable != 0,
                  r.deadLettered != 0, r.deadLetterReason, r.lastError,
                  r.createdAt, 1, r.correlationId)
  }

  /** A row gives its event back exactly when the attempt counters are not zero and the envelope is version 1. */
  lemma RowRoundTripIff(e: OutboundEvent)
    ensures FromRow(ToRow(e)) == e <==> e.attempt != 0 && e.maxAttempts != 0 && e.envelopeVersion == 1
  {
    var back := FromRow(ToRow(e));
    assert back == e.(attempt := OrOne(e.attempt), maxAttempts := OrOne(e.maxAttempts), envelopeVersion := 1);
  }
}
