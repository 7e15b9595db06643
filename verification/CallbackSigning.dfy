/**
 Signed callback payloads: `s1.<nonce>.<data>.<signature>`, each field in URL-safe base64 (section 5 of
 RFC 4648) without its padding. UTF-8 and HMAC-SHA256 are parameters.
 */
module CallbackSigning {
  import opened Wrappers
  import opened PyStrings

  type Byte = n: nat | n < 256

  // ---------- Base64 ----------

  function Letter(v: nat): (c: char)
    requires v < 64
    ensures c != '=' && c != '.' && c < 128 as char
  {
    if v < 26 then ('A' as int + v) as char
    else if v < 52 then ('a' as int + v - 26) as char
    else if v < 62 then ('0' as int + v - 52) as char
    else if v == 62 then '-' else '_'
  }

  /** The decoder also takes the two letters of the standard alphabet. */
  function Value(c: char): (v: Option<nat>)
    ensures v.Some? ==> v.value < 64
  {
    if 'A' <= c <= 'Z' then Some(c as int - 'A' as int)
    else if 'a' <= c <= 'z' then Some(c as int - 'a' as int + 26)
    else if '0' <= c <= '9' then Some(c as int - '0' as int + 52)
    else if c == '-' || c == '+' then Some(62)
    else if c == '_' || c == '/' then Some(63)
    else None
  }

  lemma ValueOfLetter(v: nat)
    requires v < 64
    ensures Value(Letter(v)) == Some(v)
  {
  }

  /** The four letters of three bytes. */
  function Quartet(x: Byte, y: Byte, z: Byte): (s: string)
    ensures |s| == 4 && IsBase64(s)
  {
    [Letter(x / 4), Letter(x % 4 * 16 + y / 16), Letter(y % 16 * 4 + z / 64), Letter(z % 64)]
  }

  predicate IsBase64(s: string) {
    forall i :: 0 <= i < |s| ==> s[i] != '=' && s[i] != '.' && s[i] as int < 128
  }

  /** `urlsafe_b64encode`. */
  function Encode(b: seq<Byte>): (s: string)
    ensures |s| % 4 == 0 && (s == "" <==> b == [])
  {
    if |b| == 0 then ""
    else if |b| == 1 then Quartet(b[0], 0, 0)[..2] + "=="
    else if |b| == 2 then Quartet(b[0], b[1], 0)[..3] + "="
    else Quartet(b[0], b[1], b[2]) + Encode(b[3..])
  }

  /** `rstrip("=")`. */
  function Unpadded(s: string): (r: string)
    ensures |r| <= |s| && r == s[..|r|]
  {
    if s != "" && s[|s| - 1] == '=' then Unpadded(s[..|s| - 1]) else s
  }

  function Repeat(c: char, n: nat): (s: string)
    ensures |s| == n
  {
    if n == 0 then "" else [c] + Repeat(c, n - 1)
  }

  function Padded(s: string): string {
    s + Repeat('=', (4 - |s| % 4) % 4)
  }

  /** The bits carried over to the next letter fit its place in the quartet. */
  predicate Carry(q: nat, left: nat) {
    q < 4 && left < (if q == 0 then 1 else if q == 1 then 64 else if q == 2 then 16 else 4)
  }

  /**
   The lenient decoder: letters outside the alphabet are skipped, and padding that completes a quartet
   ends the text. `q` letters of the current quartet have been read.
   */
  function DecodeFrom(s: string, q: nat, left: nat, pads: nat): Option<seq<Byte>>
    requires Carry(q, left)
  {
    if s == "" then if q == 0 then Some([]) else None
    else if s[0] == '=' then
      if q >= 2 && q + pads + 1 >= 4 then Some([])
      else DecodeFrom(s[1..], q, left, if q >= 2 then pads + 1 else pads)
    else
      match Value(s[0])
      case None => DecodeFrom(s[1..], q, left, pads)
      case Some(v) =>
        if q == 0 then DecodeFrom(s[1..], 1, v, 0)
        else if q == 1 then Emit(left * 4 + v / 16, DecodeFrom(s[1..], 2, v % 16, 0))
        else if q == 2 then Emit(left * 16 + v / 4, DecodeFrom(s[1..], 3, v % 4, 0))
        else Emit(left * 64 + v, DecodeFrom(s[1..], 0, 0, 0))
  }

  function Emit(b: Byte, rest: Option<seq<Byte>>): Option<seq<Byte>> {
    if rest.Some? then Some([b] + rest.value) else None
  }

  predicate IsAscii(s: string) {
    forall i :: 0 <= i < |s| ==> s[i] as int < 128
  }

  /** `_urlsafe_b64decode`; `None` stands for any exception. */
  function Decode(s: string): Option<seq<Byte>> {
    if IsAscii(s) then DecodeFrom(Padded(s), 0, 0, 0) else None
  }

  lemma ReadHead(s: string, c: char, rest: string, q: nat, left: nat, pads: nat)
    requires Carry(q, left) && s == [c] + rest && c != '='
    ensures DecodeFrom(s, q, left, pads) ==
            match Value(c)
            case None => DecodeFrom(rest, q, left, pads)
            case Some(v) =>
              if q == 0 then DecodeFrom(rest, 1, v, 0)
              else if q == 1 then Emit(left * 4 + v / 16, DecodeFrom(rest, 2, v % 16, 0))
              else if q == 2 then Emit(left * 16 + v / 4, DecodeFrom(rest, 3, v % 4, 0))
              else Emit(left * 64 + v, DecodeFrom(rest, 0, 0, 0))
  {
    assert s[0] == c && s[1..] == rest;
  }

  /** What a text decodes to depends on its letters' values only: two tails that decode alike do so behind any head. */
  lemma {:induction false} DecodeBehind(head: string, s: string, t: string, q: nat, left: nat, pads: nat)
    requires Carry(q, left) && forall q, left, pads :: Carry(q, left) ==> DecodeFrom(s, q, left, pads) == DecodeFrom(t, q, left, pads)
    ensures DecodeFrom(head + s, q, left, pads) == DecodeFrom(head + t, q, left, pads)
    decreases |head|
  {
    if head == "" {
      assert head + s == s && head + t == t;
    } else {
      assert (head + s)[1..] == head[1..] + s && (head + t)[1..] == head[1..] + t;
      assert (head + s)[0] == head[0] == (head + t)[0];
      forall q, left, pads | Carry(q, left)
        ensures DecodeFrom(head[1..] + s, q, left, pads) == DecodeFrom(head[1..] + t, q, left, pads)
      {
        DecodeBehind(head[1..], s, t, q, left, pads);
      }
    }
  }

  /** A character outside both alphabets, padding apart, is skipped wherever it stands. */
  lemma JunkIsSkipped(head: string, junk: char, tail: string)
    requires Value(junk).None? && junk != '='
    ensures DecodeFrom(head + ([junk] + tail), 0, 0, 0) == DecodeFrom(head + tail, 0, 0, 0)
  {
    forall q, left, pads | Carry(q, left) ensures DecodeFrom([junk] + tail, q, left, pads) == DecodeFrom(tail, q, left, pads) {
      ReadHead([junk] + tail, junk, tail, q, left, pads);
    }
    DecodeBehind(head, [junk] + tail, tail, 0, 0, 0);
  }

  /** The letters `+` and `/` of the standard alphabet stand for `-` and `_`. */
  lemma StandardLettersAreTaken(head: string, tail: string)
    ensures DecodeFrom(head + (['+'] + tail), 0, 0, 0) == DecodeFrom(head + (['-'] + tail), 0, 0, 0)
    ensures DecodeFrom(head + (['/'] + tail), 0, 0, 0) == DecodeFrom(head + (['_'] + tail), 0, 0, 0)
  {
    forall q, left, pads, c, d | Carry(q, left) && ((c == '+' && d == '-') || (c == '/' && d == '_'))
      ensures DecodeFrom([c] + tail, q, left, pads) == DecodeFrom([d] + tail, q, left, pads)
    {
      ReadHead([c] + tail, c, tail, q, left, pads);
      ReadHead([d] + tail, d, tail, q, left, pads);
    }
    DecodeBehind(head, ['+'] + tail, ['-'] + tail, 0, 0, 0);
    DecodeBehind(head, ['/'] + tail, ['_'] + tail, 0, 0, 0);
  }

  /** Reading one letter. */
  lemma ReadLetter(v: nat, rest: string, q: nat, left: nat)
    requires v < 64 && Carry(q, left)
    ensures DecodeFrom([Letter(v)] + rest, q, left, 0)
            == if q == 0 then DecodeFrom(rest, 1, v, 0)
               else if q == 1 then Emit(left * 4 + v / 16, DecodeFrom(rest, 2, v % 16, 0))
               else if q == 2 then Emit(left * 16 + v / 4, DecodeFrom(rest, 3, v % 4, 0))
               else Emit(left * 64 + v, DecodeFrom(rest, 0, 0, 0))
  {
    var s := [Letter(v)] + rest;
    ValueOfLetter(v);
    assert s[0] == Letter(v) && s[1..] == rest;
  }

  /** Four letters in a row give three bytes. */
  lemma DecodeQuartet(a: nat, b: nat, c: nat, d: nat, rest: string)
    requires a < 64 && b < 64 && c < 64 && d < 64
    ensures DecodeFrom([Letter(a), Letter(b), Letter(c), Letter(d)] + rest, 0, 0, 0)
            == Emit(a * 4 + b / 16, Emit(b % 16 * 16 + c / 4, Emit(c % 4 * 64 + d, DecodeFrom(rest, 0, 0, 0))))
  {
    var s3 := [Letter(d)] + rest;
    var s2 := [Letter(c)] + s3;
    var s1 := [Letter(b)] + s2;
    assert [Letter(a), Letter(b), Letter(c), Letter(d)] + rest == [Letter(a)] + s1;
    ReadLetter(a, s1, 0, 0);
    ReadLetter(b, s2, 1, a);
    ReadLetter(c, s3, 2, b % 16);
    ReadLetter(d, rest, 3, c % 4);
  }

  /** The letters of three bytes carry their bits. */
  lemma BytesFromLetters(x: Byte, y: Byte, z: Byte)
    ensures x / 4 * 4 + (x % 4 * 16 + y / 16) / 16 == x
    ensures (x % 4 * 16 + y / 16) % 16 * 16 + (y % 16 * 4 + z / 64) / 4 == y
    ensures (y % 16 * 4 + z / 64) % 4 * 64 + z % 64 == z
  {
  }

  /** The padding of a last quartet ends the text. */
  lemma ReadPadding(q: nat, left: nat)
    requires (q == 2 || q == 3) && Carry(q, left)
    ensures DecodeFrom(if q == 2 then "==" else "=", q, left, 0) == Some([])
  {
    assert "=="[1..] == "=";
    assert DecodeFrom("=", q, left, if q == 2 then 1 else 0) == Some([]);
  }

  lemma DecodeOne(x: Byte)
    ensures DecodeFrom(Encode([x]), 0, 0, 0) == Some([x])
  {
    var s1 := [Letter(x % 4 * 16)] + "==";
    assert Encode([x]) == [Letter(x / 4)] + s1;
    ReadLetter(x / 4, s1, 0, 0);
    ReadLetter(x % 4 * 16, "==", 1, x / 4);
    ReadPadding(2, x % 4 * 16 % 16);
    BytesFromLetters(x, 0, 0);
    assert [x] + [] == [x];
  }

  lemma DecodeTwo(x: Byte, y: Byte)
    ensures DecodeFrom(Encode([x, y]), 0, 0, 0) == Some([x, y])
  {
    var s2 := [Letter(y % 16 * 4)] + "=";
    var s1 := [Letter(x % 4 * 16 + y / 16)] + s2;
    assert Encode([x, y]) == [Letter(x / 4)] + s1;
    ReadLetter(x / 4, s1, 0, 0);
    ReadLetter(x % 4 * 16 + y / 16, s2, 1, x / 4);
    ReadLetter(y % 16 * 4, "=", 2, (x % 4 * 16 + y / 16) % 16);
    ReadPadding(3, y % 16 * 4 % 4);
    BytesFromLetters(x, y, 0);
    assert [x] + ([y] + []) == [x, y];
  }

  lemma DecodeThree(x: Byte, y: Byte, z: Byte, rest: string)
    ensures DecodeFrom(Quartet(x, y, z) + rest, 0, 0, 0) == Emit(x, Emit(y, Emit(z, DecodeFrom(rest, 0, 0, 0))))
  {
    DecodeQuartet(x / 4, x % 4 * 16 + y / 16, y % 16 * 4 + z / 64, z % 64, rest);
    BytesFromLetters(x, y, z);
  }

  /** Decoding undoes encoding, padding and all. */
  lemma {:induction false} DecodeUndoesEncode(b: seq<Byte>)
    ensures DecodeFrom(Encode(b), 0, 0, 0) == Some(b)
  {
    if |b| == 0 {
    } else if |b| == 1 {
      assert b == [b[0]];
      DecodeOne(b[0]);
    } else if |b| == 2 {
      assert b == [b[0], b[1]];
      DecodeTwo(b[0], b[1]);
    } else {
      DecodeUndoesEncode(b[3..]);
      DecodeThree(b[0], b[1], b[2], Encode(b[3..]));
      assert b == [b[0]] + ([b[1]] + ([b[2]] + b[3..]));
    }
  }

  lemma {:induction false} UnpaddedConcat(a: string, b: string)
    requires a != "" && a[|a| - 1] != '='
    ensures Unpadded(a + b) == a + Unpadded(b)
    decreases |b|
  {
    var s := a + b;
    if b == "" {
      assert s == a;
    } else if b[|b| - 1] == '=' {
      assert s[..|s| - 1] == a + b[..|b| - 1];
      UnpaddedConcat(a, b[..|b| - 1]);
    }
  }

  lemma PaddingOf(letters: string, n: nat)
    requires IsBase64(letters) && letters != ""
    ensures Unpadded(letters + Repeat('=', n)) == letters
    decreases n
  {
    UnpaddedConcat(letters, Repeat('=', n));
    UnpaddedPadding(n);
  }

  lemma {:induction false} UnpaddedPadding(n: nat)
    ensures Unpadded(Repeat('=', n)) == "" && (n > 0 ==> Repeat('=', n)[n - 1] == '=')
  {
    if n > 0 {
      RepeatSnoc('=', n - 1);
      assert Repeat('=', n)[..n - 1] == Repeat('=', n - 1);
      UnpaddedPadding(n - 1);
    }
  }

  lemma {:induction false} RepeatSnoc(c: char, n: nat)
    ensures Repeat(c, n + 1) == Repeat(c, n) + [c]
  {
    if n > 0 { RepeatSnoc(c, n - 1); }
  }

  lemma PaddedQuartet(head: string, tail: string)
    requires |head| == 4
    ensures Padded(head + tail) == head + Padded(tail)
  {
    assert |head + tail| % 4 == |tail| % 4;
  }

  /** An encoding is letters and then the padding that completes the last quartet. */
  lemma {:induction false} EncodingIsLetters(b: seq<Byte>) returns (letters: string)
    ensures IsBase64(letters) && Encode(b) == Padded(letters) && (letters == "" <==> b == [])
  {
    if |b| == 0 {
      letters := "";
    } else if |b| == 1 {
      letters := Quartet(b[0], 0, 0)[..2];
      assert Repeat('=', 2) == "==";
    } else if |b| == 2 {
      letters := Quartet(b[0], b[1], 0)[..3];
      assert Repeat('=', 1) == "=";
    } else {
      var tail := EncodingIsLetters(b[3..]);
      letters := Quartet(b[0], b[1], b[2]) + tail;
      PaddedQuartet(Quartet(b[0], b[1], b[2]), tail);
    }
  }

  /** Stripping the padding and putting it back gives the encoding again. */
  lemma PaddingIsRestored(b: seq<Byte>)
    ensures IsBase64(Unpadded(Encode(b))) && Padded(Unpadded(Encode(b))) == Encode(b)
    ensures Unpadded(Encode(b)) == "" <==> b == []
  {
    var letters := EncodingIsLetters(b);
    if letters != "" { PaddingOf(letters, (4 - |letters| % 4) % 4); }
  }

  // ---------- Signing ----------

  /** UTF-8 and HMAC-SHA256 over UTF-8, as far as they are used: the first 12 bytes of the 32-byte digest. */
  datatype Crypto = Crypto(utf8: string -> seq<Byte>, decode: seq<Byte> -> Option<string>, hmac12: (string, string) -> seq<Byte>)

  ghost predicate Sound(k: Crypto) {
    && (forall s :: k.decode(k.utf8(s)) == Some(s) && (k.utf8(s) == [] <==> s == ""))
    && (forall secret, text :: |k.hmac12(secret, text)| == 12)
  }

  function Signature(k: Crypto, secret: string, nonce: string, data: string): string {
    Unpadded(Encode(k.hmac12(secret, nonce + "." + data)))
  }

  function Sign(k: Crypto, secret: string, nonceBytes: seq<Byte>, data: string): string {
    var nonce := Unpadded(Encode(nonceBytes));
    var encoded := Unpadded(Encode(k.utf8(data)));
    "s1." + nonce + "." + encoded + "." + Signature(k, secret, nonce, encoded)
  }

  // ---------- Verification ----------

  /** `split(sep, most)`. */
  function Split(s: string, sep: string, most: nat): (parts: seq<string>)
    ensures 1 <= |parts| <= most + 1
  {
    if most == 0 then [s]
    else
      var p := Partition(s, sep);
      if p.found then [p.head] + Split(p.tail, sep, most - 1) else [s]
  }

  /** Whether the payload is genuine, the data it carries, and whether it is a signed one at all. */
  datatype Verdict = Verdict(genuine: bool, data: string, signed: bool)

  const REJECTED := Verdict(false, "", true)

  /** The comparison of signatures raises on a text outside ASCII. */
  function Verify(k: Crypto, secret: string, raw: string): Result<Verdict> {
    if !StartsWith(raw, "s1.") then Success(Verdict(false, raw, false))
    else
      var parts := Split(raw, ".", 3);
      if |parts| != 4 then Success(REJECTED)
      else VerifyParts(k, secret, parts[1], parts[2], parts[3])
  }

  function VerifyParts(k: Crypto, secret: string, nonce: string, encoded: string, given: string): Result<Verdict> {
    if nonce == "" || encoded == "" || given == "" || secret == "" then Success(REJECTED)
    else
      var bytes := Decode(encoded);
      var text := if bytes.Some? then k.decode(bytes.value) else None;
      if text.None? then Success(REJECTED)
      else if !IsAscii(given) then Failure("TypeError")
      else if given != Signature(k, secret, nonce, encoded) then Success(REJECTED)
      else Success(Verdict(true, text.value, true))
  }

  function Fields(nonce: string, encoded: string, given: string): string {
    "s1." + nonce + "." + encoded + "." + given
  }

  lemma SplitNext(head: string, tail: string, most: nat)
    requires Free(head, '.') && most > 0
    ensures Split(head + "." + tail, ".", most) == [head] + Split(tail, ".", most - 1)
  {
    PartitionAt(head, ".", tail);
  }

  lemma SplitTwo(nonce: string, encoded: string, given: string)
    requires Free(nonce, '.') && Free(encoded, '.')
    ensures Split(nonce + "." + (encoded + "." + given), ".", 2) == [nonce, encoded, given]
  {
    SplitNext(nonce, encoded + "." + given, 2);
    SplitNext(encoded, given, 1);
    assert Split(given, ".", 0) == [given];
    assert [nonce] + ([encoded] + [given]) == [nonce, encoded, given];
  }

  lemma SplitThree(mark: string, nonce: string, encoded: string, given: string)
    requires Free(mark, '.') && Free(nonce, '.') && Free(encoded, '.')
    ensures Split(mark + "." + (nonce + "." + (encoded + "." + given)), ".", 3) == [mark, nonce, encoded, given]
  {
    SplitNext(mark, nonce + "." + (encoded + "." + given), 3);
    SplitTwo(nonce, encoded, given);
    assert [mark] + [nonce, encoded, given] == [mark, nonce, encoded, given];
  }

  lemma FieldsFromTheRight(nonce: string, encoded: string, given: string)
    ensures Fields(nonce, encoded, given) == "s1" + "." + (nonce + "." + (encoded + "." + given))
    ensures StartsWith(Fields(nonce, encoded, given), "s1.")
  {
    assert Fields(nonce, encoded, given)[..3] == "s1.";
  }

  /** Three fields come apart again when the first two have no dot; the third may. */
  lemma SplitFields(nonce: string, encoded: string, given: string)
    requires Free(nonce, '.') && Free(encoded, '.')
    ensures Split(Fields(nonce, encoded, given), ".", 3) == ["s1", nonce, encoded, given]
  {
    FieldsFromTheRight(nonce, encoded, given);
    SplitThree("s1", nonce, encoded, given);
  }

  // ---------- Round trip ----------

  lemma DecodeUndoesUnpadded(b: seq<Byte>)
    ensures Decode(Unpadded(Encode(b))) == Some(b)
  {
    PaddingIsRestored(b);
    DecodeUndoesEncode(b);
  }

  lemma VerifyFields(k: Crypto, secret: string, nonce: string, encoded: string, given: string)
    requires Free(nonce, '.') && Free(encoded, '.')
    ensures Verify(k, secret, Fields(nonce, encoded, given)) == VerifyParts(k, secret, nonce, encoded, given)
  {
    SplitFields(nonce, encoded, given);
    FieldsFromTheRight(nonce, encoded, given);
  }

  lemma SignatureIsPlain(k: Crypto, secret: string, nonce: string, encoded: string)
    requires Sound(k)
    ensures IsBase64(Signature(k, secret, nonce, encoded)) && Signature(k, secret, nonce, encoded) != ""
  {
    PaddingIsRestored(k.hmac12(secret, nonce + "." + encoded));
  }

  /** Verification gives back what was signed, for every secret, nonce and data; empty data alone is refused. */
  lemma VerifyUndoesSign(k: Crypto, secret: string, nonceBytes: seq<Byte>, data: string)
    requires Sound(k) && secret != "" && nonceBytes != []
    ensures Verify(k, secret, Sign(k, secret, nonceBytes, data)) == Success(if data == "" then REJECTED else Verdict(true, data, true))
  {
    var nonce, encoded := Unpadded(Encode(nonceBytes)), Unpadded(Encode(k.utf8(data)));
    PaddingIsRestored(nonceBytes);
    PaddingIsRestored(k.utf8(data));
    SignatureIsPlain(k, secret, nonce, encoded);
    DecodeUndoesUnpadded(k.utf8(data));
    VerifyFields(k, secret, nonce, encoded, Signature(k, secret, nonce, encoded));
  }

  // ---------- What is accepted ----------

  lemma HeadIsFree(s: string)
    ensures Partition(s, ".").found ==> Free(Partition(s, ".").head, '.')
    ensures Partition(s, ".").found <==> !Free(s, '.')
  {
    var r := Find(s, ".");
    forall i | 0 <= i < |s| ensures OccursAt(s, ".", i) <==> s[i] == '.' {
      if s[i] == '.' { assert s[i..i + 1] == "."; }
    }
  }

  /** Four parts put back together give the text, and only the last may hold a dot. */
  lemma SplitJoins(raw: string)
    requires |Split(raw, ".", 3)| == 4
    ensures var p := Split(raw, ".", 3);
            && raw == p[0] + "." + (p[1] + "." + (p[2] + "." + p[3]))
            && Free(p[0], '.') && Free(p[1], '.') && Free(p[2], '.')
  {
    var p := Split(raw, ".", 3);
    var tail1 := Partition(raw, ".").tail;
    var tail2 := Partition(tail1, ".").tail;
    HeadIsFree(raw);
    HeadIsFree(tail1);
    HeadIsFree(tail2);
    assert p[1..] == Split(tail1, ".", 2);
    assert Split(tail1, ".", 2)[1..] == Split(tail2, ".", 1);
    assert Split(tail2, ".", 1)[1..] == Split(Partition(tail2, ".").tail, ".", 0);
  }

  /** The payload is three undotted fields, the last the signature of the first two, and its data is what the second decodes to. */
  ghost predicate Carries(k: Crypto, secret: string, raw: string, nonce: string, encoded: string, data: string) {
    && nonce != "" && encoded != "" && Free(nonce, '.') && Free(encoded, '.')
    && raw == Fields(nonce, encoded, Unpadded(Encode(k.hmac12(secret, nonce + "." + encoded))))
    && Decode(encoded).Some? && k.decode(Decode(encoded).value) == Some(data)
  }

  lemma MarkIsS1(mark: string, tail: string)
    requires Free(mark, '.') && StartsWith(mark + "." + tail, "s1.")
    ensures mark == "s1"
  {
    var raw := mark + "." + tail;
    assert raw[0] == raw[..3][0] && raw[1] == raw[..3][1] && raw[2] == raw[..3][2];
    assert raw[|mark|] == '.';
    assert forall i :: 0 <= i < |mark| ==> raw[i] == mark[i];
  }

  lemma FieldsOf(k: Crypto, secret: string, raw: string) returns (nonce: string, encoded: string, given: string)
    requires StartsWith(raw, "s1.") && |Split(raw, ".", 3)| == 4
    ensures raw == Fields(nonce, encoded, given) && Free(nonce, '.') && Free(encoded, '.')
    ensures Verify(k, secret, raw) == VerifyParts(k, secret, nonce, encoded, given)
  {
    var p := Split(raw, ".", 3);
    nonce, encoded, given := p[1], p[2], p[3];
    SplitJoins(raw);
    MarkIsS1(p[0], nonce + "." + (encoded + "." + given));
    FieldsFromTheRight(nonce, encoded, given);
  }

  lemma AcceptedCarries(k: Crypto, secret: string, raw: string, data: string) returns (nonce: string, encoded: string)
    requires Verify(k, secret, raw) == Success(Verdict(true, data, true))
    ensures secret != "" && Carries(k, secret, raw, nonce, encoded, data)
  {
    var given;
    nonce, encoded, given := FieldsOf(k, secret, raw);
  }

  /** A payload is accepted exactly when it carries its data under a valid signature and a secret is set. */
  lemma AcceptedIff(k: Crypto, secret: string, raw: string, data: string)
    requires Sound(k)
    ensures Verify(k, secret, raw) == Success(Verdict(true, data, true))
            <==> secret != "" && exists nonce, encoded :: Carries(k, secret, raw, nonce, encoded, data)
  {
    if Verify(k, secret, raw) == Success(Verdict(true, data, true)) {
      var nonce, encoded := AcceptedCarries(k, secret, raw, data);
    }
    if secret != "" && exists nonce, encoded :: Carries(k, secret, raw, nonce, encoded, data) {
      var nonce, encoded :| Carries(k, secret, raw, nonce, encoded, data);
      SignatureIsPlain(k, secret, nonce, encoded);
      VerifyFields(k, secret, nonce, encoded, Signature(k, secret, nonce, encoded));
    }
  }

  // ---------- What a signature covers ----------

  /** The signature of an accepted payload is that of its own nonce and data. */
  lemma AcceptedIsSigned(k: Crypto, secret: string, nonce: string, encoded: string, given: string, data: string)
    requires Free(nonce, '.') && Free(encoded, '.')
    requires Verify(k, secret, Fields(nonce, encoded, given)) == Success(Verdict(true, data, true))
    ensures Decode(given) == Some(k.hmac12(secret, nonce + "." + encoded))
    ensures Decode(encoded).Some? && k.decode(Decode(encoded).value) == Some(data)
  {
    VerifyFields(k, secret, nonce, encoded, given);
    DecodeUndoesUnpadded(k.hmac12(secret, nonce + "." + encoded));
  }

  /** Two accepted payloads with one signature have one MAC, however their nonces and data differ. */
  lemma SameSignatureSameMac(
      k: Crypto, secret: string, nonce: string, encoded: string, data: string, nonce': string, encoded': string, data': string, given: string)
    requires Free(nonce, '.') && Free(encoded, '.') && Free(nonce', '.') && Free(encoded', '.')
    requires Verify(k, secret, Fields(nonce, encoded, given)) == Success(Verdict(true, data, true))
    requires Verify(k, secret, Fields(nonce', encoded', given)) == Success(Verdict(true, data', true))
    ensures k.hmac12(secret, nonce + "." + encoded) == k.hmac12(secret, nonce' + "." + encoded')
  {
    AcceptedIsSigned(k, secret, nonce, encoded, given, data);
    AcceptedIsSigned(k, secret, nonce', encoded', given, data');
  }

  lemma SignedFields(k: Crypto, secret: string, nonceBytes: seq<Byte>, data: string) returns (given: string)
    requires Sound(k)
    ensures var nonce, encoded := Unpadded(Encode(nonceBytes)), Unpadded(Encode(k.utf8(data)));
            && Free(nonce, '.') && Free(encoded, '.') && Decode(encoded) == Some(k.utf8(data))
            && Sign(k, secret, nonceBytes, data) == Fields(nonce, encoded, given)
            && Decode(given) == Some(k.hmac12(secret, nonce + "." + encoded))
  {
    var nonce, encoded := Unpadded(Encode(nonceBytes)), Unpadded(Encode(k.utf8(data)));
    given := Signature(k, secret, nonce, encoded);
    PaddingIsRestored(nonceBytes);
    PaddingIsRestored(k.utf8(data));
    DecodeUndoesUnpadded(k.utf8(data));
    DecodeUndoesUnpadded(k.hmac12(secret, nonce + "." + encoded));
  }

  lemma UndottedFieldsAreFixed(nonce: string, encoded: string, nonce': string, encoded': string)
    requires Free(nonce, '.') && Free(nonce', '.') && nonce + "." + encoded == nonce' + "." + encoded'
    ensures nonce == nonce' && encoded == encoded'
  {
    PartitionAt(nonce, ".", encoded);
    PartitionAt(nonce', ".", encoded');
  }

  /**
   Someone who changes the nonce or the data of a signed payload and keeps its signature is refused, unless the changed
   text happens to have the same MAC.
   */
  lemma AlteredPayloadIsRefused(
      k: Crypto, secret: string, nonceBytes: seq<Byte>, data: string, given: string, nonce': string, encoded': string, data': string)
    requires Sound(k) && Free(nonce', '.') && Free(encoded', '.')
    requires Sign(k, secret, nonceBytes, data) == Fields(Unpadded(Encode(nonceBytes)), Unpadded(Encode(k.utf8(data))), given)
    requires Verify(k, secret, Fields(nonce', encoded', given)) == Success(Verdict(true, data', true))
    ensures var nonce, encoded := Unpadded(Encode(nonceBytes)), Unpadded(Encode(k.utf8(data)));
            && k.hmac12(secret, nonce' + "." + encoded') == k.hmac12(secret, nonce + "." + encoded)
            && (nonce' + "." + encoded' == nonce + "." + encoded ==> nonce' == nonce && encoded' == encoded && data' == data)
  {
    var nonce, encoded := Unpadded(Encode(nonceBytes)), Unpadded(Encode(k.utf8(data)));
    var signed := SignedFields(k, secret, nonceBytes, data);
    LastFieldIsFixed(nonce, encoded, signed, given);
    AcceptedIsSigned(k, secret, nonce', encoded', given, data');
    if nonce' + "." + encoded' == nonce + "." + encoded { UndottedFieldsAreFixed(nonce, encoded, nonce', encoded'); }
  }

  lemma LastFieldIsFixed(nonce: string, encoded: string, given: string, given': string)
    requires Fields(nonce, encoded, given) == Fields(nonce, encoded, given')
    ensures given == given'
  {
    var head := "s1." + nonce + "." + encoded + ".";
    assert Fields(nonce, encoded, given)[|head|..] == given && Fields(nonce, encoded, given')[|head|..] == given';
  }

  /** The payload is three non-empty fields, the first two undotted, whose data decodes and whose signature is outside ASCII. */
  ghost predicate Trips(k: Crypto, raw: string, nonce: string, encoded: string, given: string) {
    && raw == Fields(nonce, encoded, given) && nonce != "" && encoded != "" && given != ""
    && Free(nonce, '.') && Free(encoded, '.')
    && Decode(encoded).Some? && k.decode(Decode(encoded).value).Some? && !IsAscii(given)
  }

  /** Of all payloads the check raises, instead of refusing, on exactly those, if a secret is set. */
  lemma RaisesIff(k: Crypto, secret: string, raw: string)
    ensures Verify(k, secret, raw).Failure? <==> secret != "" && exists nonce, encoded, given :: Trips(k, raw, nonce, encoded, given)
  {
    if Verify(k, secret, raw).Failure? {
      var nonce, encoded, given := FieldsOf(k, secret, raw);
      assert Trips(k, raw, nonce, encoded, given);
    }
    if secret != "" && exists nonce, encoded, given :: Trips(k, raw, nonce, encoded, given) {
      var nonce, encoded, given :| Trips(k, raw, nonce, encoded, given);
      VerifyFields(k, secret, nonce, encoded, given);
    }
  }
}
