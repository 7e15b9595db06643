/** The Python string operations the modelled code relies on, over Unicode scalar values. */
module PyStrings {

  /** The code points that `str.strip` removes and `str.isspace` accepts. */
  predicate IsSpace(c: char) {
    var n := c as int;
    || 0x09 <= n <= 0x0D || 0x1C <= n <= 0x20 || n == 0x85 || n == 0xA0 || n == 0x1680
    || 0x2000 <= n <= 0x200A || n == 0x2028 || n == 0x2029 || n == 0x202F || n == 0x205F || n == 0x3000
  }

  function LStrip(s: string): (r: string)
    ensures |r| <= |s|
    ensures r != "" ==> !IsSpace(r[0])
    ensures s != "" && !IsSpace(s[0]) ==> r == s
    ensures r != "" && s != "" ==> r[|r| - 1] == s[|s| - 1]
  {
    if s != "" && IsSpace(s[0]) then LStrip(s[1..]) else s
  }

  function RStrip(s: string): (r: string)
    ensures |r| <= |s|
    ensures r == s[..|r|]
    ensures r != "" ==> !IsSpace(r[|r| - 1])
    ensures s != "" && !IsSpace(s[|s| - 1]) ==> r == s
  {
    if s != "" && IsSpace(s[|s| - 1]) then RStrip(s[..|s| - 1]) else s
  }

  predicate Stripped(s: string) {
    s == "" || (!IsSpace(s[0]) && !IsSpace(s[|s| - 1]))
  }

  function Strip(s: string): (r: string)
    ensures Stripped(r)
    ensures Stripped(s) ==> r == s
  {
    RStrip(LStrip(s))
  }

  predicate StartsWith(s: string, prefix: string) {
    |prefix| <= |s| && s[..|prefix|] == prefix
  }

  predicate EndsWith(s: string, suffix: string) {
    |suffix| <= |s| && s[|s| - |suffix|..] == suffix
  }

  predicate OccursAt(s: string, sub: string, i: int): (r: bool)
    ensures r && sub != "" ==> 0 <= i < |s| && s[i] == sub[0]
  {
    assert 0 <= i && i + |sub| <= |s| && sub != "" ==> s[i..i + |sub|][0] == s[i];
    0 <= i && i + |sub| <= |s| && s[i..i + |sub|] == sub
  }

  /** `str.find` from position `from`: the first occurrence, or -1. */
  function FindFrom(s: string, sub: string, from: nat): (r: int)
    ensures r == -1 || (from <= r && OccursAt(s, sub, r))
    ensures forall i :: from <= i && (r == -1 || i < r) ==> !OccursAt(s, sub, i)
    decreases |s| - from
  {
    if from + |sub| > |s| then -1
    else if OccursAt(s, sub, from) then from
    else FindFrom(s, sub, from + 1)
  }

  function Find(s: string, sub: string): (r: int)
    ensures r == -1 || OccursAt(s, sub, r)
    ensures forall i :: 0 <= i && (r == -1 || i < r) ==> !OccursAt(s, sub, i)
  {
    FindFrom(s, sub, 0)
  }

  predicate Contains(s: string, sub: string) {
    Find(s, sub) != -1
  }

  /** `str.partition`: the text before and after the first separator, and whether there is one. */
  datatype Parts = Parts(head: string, found: bool, tail: string)

  function Partition(s: string, sep: string): (r: Parts)
    ensures !r.found ==> r.head == s && r.tail == ""
    ensures r.found ==> s == r.head + sep + r.tail
  {
    var i := Find(s, sep);
    if i == -1 then Parts(s, false, "") else Parts(s[..i], true, s[i + |sep|..])
  }

  predicate Free(s: string, c: char) {
    forall i :: 0 <= i < |s| ==> s[i] != c
  }

  lemma NotAt(s: string, sub: string, i: int, k: nat)
    requires k < |sub| && (i < 0 || i + k >= |s| || s[i + k] != sub[k])
    ensures !OccursAt(s, sub, i)
  {
    if 0 <= i && i + |sub| <= |s| { assert s[i..i + |sub|][k] == s[i + k]; }
  }

  lemma NotPrefix(s: string, prefix: string, i: nat)
    requires i < |prefix| && (i >= |s| || s[i] != prefix[i])
    ensures !StartsWith(s, prefix)
  {
    if |prefix| <= |s| { assert s[..|prefix|][i] == s[i]; }
  }

  lemma JoinIsStripped(a: string, b: string)
    requires a != "" && b != "" && Stripped(a) && Stripped(b)
    ensures Stripped(a + b) && a + b != ""
  {
  }

  /** An id as the platforms give it out: not empty, not padded, and without colons. */
  predicate IsId(s: string) {
    s != "" && Stripped(s) && Free(s, ':')
  }

  /** A separator is found right after a head that does not contain the separator's first character. */
  lemma PartitionAt(head: string, sep: string, tail: string)
    requires sep != "" && Free(head, sep[0])
    ensures Partition(head + sep + tail, sep) == Parts(head, true, tail)
  {
    var s := head + sep + tail;
    assert OccursAt(s, sep, |head|);
    assert forall i :: 0 <= i < |head| ==> s[i] == head[i];
    assert Find(s, sep) == |head|;
  }

  /** A text that lacks the separator's first character lacks the separator. */
  lemma PartitionMisses(s: string, sep: string)
    requires sep != "" && Free(s, sep[0])
    ensures Partition(s, sep) == Parts(s, false, "") && !Contains(s, sep)
  {
    assert forall i :: 0 <= i < |s| ==> !OccursAt(s, sep, i);
  }

  function ToLowerChar(c: char): char {
    if 'A' <= c <= 'Z' then (c as int + 32) as char else c
  }

  function ToUpperChar(c: char): char {
    if 'a' <= c <= 'z' then (c as int - 32) as char else c
  }

  function Lower(s: string): (r: string)
    ensures |r| == |s|
  {
    seq(|s|, i requires 0 <= i < |s| => ToLowerChar(s[i]))
  }

  function Upper(s: string): (r: string)
    ensures |r| == |s|
  {
    seq(|s|, i requires 0 <= i < |s| => ToUpperChar(s[i]))
  }

  // ---------- Decimal numbers ----------

  predicate IsDigit(c: char) {
    '0' <= c <= '9'
  }

  predicate AllDigits(s: string) {
    forall i :: 0 <= i < |s| ==> IsDigit(s[i])
  }

  function Decimal(n: nat): (r: string)
    ensures r != "" && AllDigits(r)
  {
    var digit := [('0' as int + n % 10) as char];
    if n < 10 then digit else Decimal(n / 10) + digit
  }

  // ---------- Lexicographic order ----------

  predicate StrLe(a: string, b: string) {
    if a == "" then true
    else if b == "" then false
    else a[0] < b[0] || (a[0] == b[0] && StrLe(a[1..], b[1..]))
  }

  lemma {:induction false} StrLeTotal(a: string, b: string)
    ensures StrLe(a, b) || StrLe(b, a)
  {
    if a != "" && b != "" && a[0] == b[0] { StrLeTotal(a[1..], b[1..]); }
  }

  lemma {:induction false} StrLeTransitive(a: string, b: string, c: string)
    requires StrLe(a, b) && StrLe(b, c)
    ensures StrLe(a, c)
  {
    if a != "" && b != "" && c != "" && a[0] == b[0] == c[0] { StrLeTransitive(a[1..], b[1..], c[1..]); }
  }
}
