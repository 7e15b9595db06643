/** Splitting an outgoing text into messages of at most `maxLen` characters, at line ends and blanks where possible. */
module MessageSplit {
  import opened PyStrings

  // ---------- Sanitizing ----------

  /** Both replacements of carriage returns. */
  function Newlines(s: string): (r: string)
    ensures Free(r, '\r') && |r| <= |s|
    ensures Free(s, '\r') ==> r == s
  {
    if s == "" then ""
    else if s[0] == '\r' then "\n" + Newlines(if |s| > 1 && s[1] == '\n' then s[2..] else s[1..])
    else [s[0]] + Newlines(s[1..])
  }

  const REPLACEMENT := '\U{FFFD}'

  predicate Keeps(c: char, control: char -> bool) {
    c == '\n' || c == '\t' || (c != REPLACEMENT && !control(c))
  }

  function Kept(s: string, control: char -> bool): (r: string)
    ensures forall i :: 0 <= i < |r| ==> Keeps(r[i], control)
    ensures (forall i :: 0 <= i < |s| ==> Keeps(s[i], control)) ==> r == s
    ensures Free(s, '\r') ==> Free(r, '\r')
  {
    if s == "" then "" else (if Keeps(s[0], control) then [s[0]] else "") + Kept(s[1..], control)
  }

  /** `control` says which characters have a Unicode category that starts with C. */
  function Sanitized(s: string, control: char -> bool): (r: string)
    ensures Free(r, '\r')
  {
    Kept(Newlines(s), control)
  }

  /** Sanitizing again changes nothing. */
  lemma SanitizedIsClean(s: string, control: char -> bool)
    ensures Sanitized(Sanitized(s, control), control) == Sanitized(s, control)
  {
  }

  /** The characters of a text that are kept and break no line, in order. */
  function Plain(s: string, control: char -> bool): string {
    if s == "" then "" else (if Keeps(s[0], control) && s[0] != '\n' && s[0] != '\r' then [s[0]] else "") + Plain(s[1..], control)
  }

  lemma {:induction false} NewlinesKeepPlain(s: string, control: char -> bool)
    ensures Plain(Newlines(s), control) == Plain(s, control)
  {
    if s != "" {
      if s[0] == '\r' {
        var rest := if |s| > 1 && s[1] == '\n' then s[2..] else s[1..];
        NewlinesKeepPlain(rest, control);
        assert Newlines(s) == "\n" + Newlines(rest) && Newlines(s)[1..] == Newlines(rest);
        if |s| > 1 && s[1] == '\n' { assert s[1..][1..] == s[2..]; }
      } else {
        NewlinesKeepPlain(s[1..], control);
        assert Newlines(s)[1..] == Newlines(s[1..]);
      }
    }
  }

  lemma {:induction false} KeptKeepsPlain(s: string, control: char -> bool)
    ensures Plain(Kept(s, control), control) == Plain(s, control)
  {
    if s != "" {
      var rest := Kept(s[1..], control);
      KeptKeepsPlain(s[1..], control);
      if Keeps(s[0], control) {
        assert Kept(s, control) == [s[0]] + rest && ([s[0]] + rest)[1..] == rest;
      } else {
        assert Kept(s, control) == "" + rest == rest;
      }
    }
  }

  /** Sanitizing loses nothing but control characters and replacement characters, and changes nothing but line breaks. */
  lemma SanitizedKeepsPlain(s: string, control: char -> bool)
    ensures Plain(Sanitized(s, control), control) == Plain(s, control)
    ensures Free(s, '\r') && (forall i :: 0 <= i < |s| ==> Keeps(s[i], control)) ==> Sanitized(s, control) == s
  {
    NewlinesKeepPlain(s, control);
    KeptKeepsPlain(Newlines(s), control);
  }

  // ---------- Lists of parts ----------

  /** A line of the text, or a message to send. */
  datatype Part = Part(text: string)

  function Concat(parts: seq<Part>): string {
    if parts == [] then "" else Concat(parts[..|parts| - 1]) + parts[|parts| - 1].text
  }

  lemma ConcatPush(parts: seq<Part>, s: Part)
    ensures Concat(parts + [s]) == Concat(parts) + s.text
  {
    assert (parts + [s])[..|parts|] == parts;
  }

  lemma Regroup(a: string, b: string, c: string)
    ensures a + b + c == a + (b + c)
  {
  }

  lemma {:induction false} ConcatAppend(a: seq<Part>, b: seq<Part>)
    ensures Concat(a + b) == Concat(a) + Concat(b)
  {
    if b == [] {
      assert a + b == a;
    } else {
      var front, last := b[..|b| - 1], b[|b| - 1];
      ConcatAppend(a, front);
      assert b == front + [last] && a + b == a + front + [last];
      ConcatPush(a + front, last);
      Regroup(Concat(a), Concat(front), last.text);
    }
  }

  lemma ConcatCons(s: Part, rest: seq<Part>)
    ensures Concat([s] + rest) == s.text + Concat(rest)
  {
    ConcatAppend([s], rest);
    assert [s][..0] == [];
  }

  /** A text taken apart after its first `n` characters. */
  lemma ConcatHead(s: string, n: nat, rest: seq<Part>)
    requires n <= |s| && Concat(rest) == s[n..]
    ensures Concat([Part(s[..n])] + rest) == s
  {
    ConcatCons(Part(s[..n]), rest);
    assert s == s[..n] + s[n..];
  }

  predicate Fits(parts: seq<Part>, maxLen: nat) {
    forall i :: 0 <= i < |parts| ==> 1 <= |parts[i].text| <= maxLen
  }

  // ---------- Lines ----------

  /** Where `splitlines` breaks; a text without carriage returns needs no pairs. */
  predicate IsBreak(c: char) {
    var n := c as int;
    0x0A <= n <= 0x0D || 0x1C <= n <= 0x1E || n == 0x85 || n == 0x2028 || n == 0x2029
  }

  function LineLength(s: string): (n: nat)
    requires s != ""
    ensures 1 <= n <= |s|
    ensures forall i :: 0 <= i < n - 1 ==> !IsBreak(s[i])
    ensures n < |s| ==> IsBreak(s[n - 1])
  {
    if IsBreak(s[0]) || |s| == 1 then 1 else 1 + LineLength(s[1..])
  }

  /** `splitlines(True)`. */
  function Lines(s: string): seq<Part> {
    if s == "" then [] else [Part(s[..LineLength(s)])] + Lines(s[LineLength(s)..])
  }

  lemma {:induction false} LinesAreTheText(s: string)
    ensures Concat(Lines(s)) == s
  {
    if s != "" {
      var n := LineLength(s);
      LinesAreTheText(s[n..]);
      ConcatHead(s, n, Lines(s[n..]));
    }
  }

  /** A line is not empty, breaks at most at its end, and does so there unless it is the last. */
  predicate IsLine(line: string, last: bool) {
    && line != ""
    && (forall j :: 0 <= j < |line| - 1 ==> !IsBreak(line[j]))
    && (!last ==> IsBreak(line[|line| - 1]))
  }

  lemma {:induction false} LinesAreLines(s: string, i: nat)
    requires i < |Lines(s)|
    ensures IsLine(Lines(s)[i].text, i == |Lines(s)| - 1)
  {
    var n := LineLength(s);
    if i > 0 {
      LinesAreLines(s[n..], i - 1);
    } else if |Lines(s)| > 1 {
      assert s[n..] != "";
    }
  }

  // ---------- A line that is too long ----------

  /** `rfind`. */
  function RFind(s: string, sub: string): (r: int)
    ensures r == -1 || OccursAt(s, sub, r)
    ensures forall i :: r < i <= |s| ==> !OccursAt(s, sub, i)
  {
    RFindFrom(s, sub, |s|)
  }

  function RFindFrom(s: string, sub: string, from: int): (r: int)
    requires -1 <= from <= |s|
    ensures -1 <= r <= from
    ensures r == -1 || OccursAt(s, sub, r)
    ensures forall i :: r < i <= from ==> !OccursAt(s, sub, i)
  {
    if from == -1 || OccursAt(s, sub, from) then from else RFindFrom(s, sub, from - 1)
  }

  function Max(a: int, b: int): int {
    if a < b then b else a
  }

  /** The length of the next part of a text longer than `maxLen`. */
  function CutAt(s: string, maxLen: nat): (cut: nat)
    requires 1 <= maxLen < |s|
    ensures 1 <= cut <= maxLen
  {
    var window := s[..maxLen + 1];
    var at := Max(Max(RFind(window, "\n\n"), RFind(window, "\n")), RFind(window, " "));
    if at <= 0 || at < maxLen / 2 then maxLen else at
  }

  predicate IsBlank(c: char) {
    c == '\n' || c == ' '
  }

  lemma OneCharOccurs(s: string, c: char, i: int)
    ensures OccursAt(s, [c], i) <==> 0 <= i < |s| && s[i] == c
  {
    if 0 <= i < |s| { assert s[i..i + 1] == [s[i]]; }
  }

  /** A double newline is never the reason for a cut: the second newline lies further right. */
  lemma DoubleNewlineNeverWins(s: string)
    ensures RFind(s, "\n\n") == -1 || RFind(s, "\n\n") < RFind(s, "\n")
  {
    var p := RFind(s, "\n\n");
    if p != -1 {
      assert s[p + 1] == s[p..p + 2][1];
      OneCharOccurs(s, '\n', p + 1);
    }
  }

  /** The cut is before the last newline or space that leaves at least half a message, or else at the full length. */
  lemma CutIsLastBlank(s: string, maxLen: nat)
    requires 1 <= maxLen < |s|
    ensures var cut := CutAt(s, maxLen);
            && (forall i :: cut < i <= maxLen && i >= maxLen / 2 ==> !IsBlank(s[i]))
            && (cut < maxLen ==> IsBlank(s[cut]) && cut >= maxLen / 2)
            && (cut == maxLen && !IsBlank(s[maxLen]) ==> forall i :: 1 <= i <= maxLen && i >= maxLen / 2 ==> !IsBlank(s[i]))
  {
    var window := s[..maxLen + 1];
    DoubleNewlineNeverWins(window);
    forall i | 0 <= i <= maxLen ensures OccursAt(window, "\n", i) <==> s[i] == '\n' { OneCharOccurs(window, '\n', i); }
    forall i | 0 <= i <= maxLen ensures OccursAt(window, " ", i) <==> s[i] == ' ' { OneCharOccurs(window, ' ', i); }
  }

  function LongParts(s: string, maxLen: nat): (parts: seq<Part>)
    requires maxLen >= 1
    ensures Fits(parts, maxLen)
    ensures |s| > maxLen ==> |parts| >= 2
    decreases |s|
  {
    if |s| <= maxLen then (if s == "" then [] else [Part(s)])
    else
      var cut := CutAt(s, maxLen);
      [Part(s[..cut])] + LongParts(s[cut..], maxLen)
  }

  lemma {:induction false} LongPartsAreTheText(s: string, maxLen: nat)
    requires maxLen >= 1
    ensures Concat(LongParts(s, maxLen)) == s
    decreases |s|
  {
    if |s| > maxLen {
      var cut := CutAt(s, maxLen);
      LongPartsAreTheText(s[cut..], maxLen);
      ConcatHead(s, cut, LongParts(s[cut..], maxLen));
    } else if s != "" {
      ConcatCons(Part(s), []);
      assert [Part(s)] + [] == [Part(s)];
    }
  }

  method CutLength(remaining: string, maxLen: nat) returns (splitAt: nat)
    requires 1 <= maxLen < |remaining|
    ensures splitAt == CutAt(remaining, maxLen)
  {
    var window := remaining[..maxLen + 1];
    var at := Max(Max(RFind(window, "\n\n"), RFind(window, "\n")), RFind(window, " "));
    if at <= 0 || at < maxLen / 2 { at := maxLen; }
    splitAt := at;
  }

  lemma LongPartsNext(s: string, maxLen: nat, done: seq<Part>, cut: nat)
    requires 1 <= maxLen < |s| && cut == CutAt(s, maxLen)
    ensures done + LongParts(s, maxLen) == done + [Part(s[..cut])] + LongParts(s[cut..], maxLen)
  {
  }

  /** With `maxLen` 0 the loop would never end. */
  method SplitLongSegment(text: string, maxLen: nat) returns (parts: seq<Part>)
    requires maxLen >= 1
    ensures parts == LongParts(text, maxLen)
  {
    var remaining := text;
    parts := [];
    while |remaining| > maxLen
      invariant parts + LongParts(remaining, maxLen) == LongParts(text, maxLen)
      decreases |remaining|
    {
      var splitAt := CutLength(remaining, maxLen);
      LongPartsNext(remaining, maxLen, parts, splitAt);
      parts := parts + [Part(remaining[..splitAt])];
      remaining := remaining[splitAt..];
    }
    if remaining != "" { parts := parts + [Part(remaining)]; }
  }

  // ---------- Packing lines ----------

  /** What one or more messages are made of: whole lines packed together, or one line too long for a message. */
  datatype Group = Whole(lines: seq<Part>) | Broken(line: Part)

  function LinesOf(g: Group): seq<Part> {
    if g.Whole? then g.lines else [g.line]
  }

  function PartsOf(g: Group, maxLen: nat): seq<Part>
    requires maxLen >= 1
  {
    if g.Whole? then [Part(Concat(g.lines))] else LongParts(g.line.text, maxLen)
  }

  function AllLines(gs: seq<Group>): seq<Part> {
    if gs == [] then [] else AllLines(gs[..|gs| - 1]) + LinesOf(gs[|gs| - 1])
  }

  function AllParts(gs: seq<Group>, maxLen: nat): seq<Part>
    requires maxLen >= 1
  {
    if gs == [] then [] else AllParts(gs[..|gs| - 1], maxLen) + PartsOf(gs[|gs| - 1], maxLen)
  }

  ghost predicate IsGroup(g: Group, maxLen: nat) {
    if g.Whole? then g.lines != [] && 1 <= |Concat(g.lines)| <= maxLen else |g.line.text| > maxLen
  }

  /** The first line of a group would not have fitted into the group of whole lines before it. */
  ghost predicate Overflows(before: Group, first: string, maxLen: nat) {
    before.Whole? ==> |Concat(before.lines)| + |first| > maxLen
  }

  ghost predicate Packing(gs: seq<Group>, maxLen: nat) {
    && (forall i :: 0 <= i < |gs| ==> IsGroup(gs[i], maxLen))
    && (forall i :: 0 <= i < |gs| - 1 ==> Overflows(gs[i], LinesOf(gs[i + 1])[0].text, maxLen))
  }

  lemma GroupsPush(gs: seq<Group>, g: Group, maxLen: nat)
    requires maxLen >= 1
    ensures AllLines(gs + [g]) == AllLines(gs) + LinesOf(g) && AllParts(gs + [g], maxLen) == AllParts(gs, maxLen) + PartsOf(g, maxLen)
  {
    assert (gs + [g])[..|gs|] == gs;
  }

  lemma PackingPush(gs: seq<Group>, g: Group, maxLen: nat)
    requires Packing(gs, maxLen) && IsGroup(g, maxLen)
    requires gs != [] ==> Overflows(gs[|gs| - 1], LinesOf(g)[0].text, maxLen)
    ensures Packing(gs + [g], maxLen)
  {
  }

  lemma FitsConcat(a: seq<Part>, b: seq<Part>, maxLen: nat)
    requires Fits(a, maxLen) && Fits(b, maxLen)
    ensures Fits(a + b, maxLen)
  {
  }

  /** However the lines are grouped, the parts put together are the lines put together, and each part fits. */
  lemma {:induction false} PartsAreTheLines(gs: seq<Group>, maxLen: nat)
    requires maxLen >= 1 && forall i :: 0 <= i < |gs| ==> IsGroup(gs[i], maxLen)
    ensures Concat(AllParts(gs, maxLen)) == Concat(AllLines(gs)) && Fits(AllParts(gs, maxLen), maxLen)
  {
    if gs != [] {
      var front, g := gs[..|gs| - 1], gs[|gs| - 1];
      PartsAreTheLines(front, maxLen);
      ConcatAppend(AllParts(front, maxLen), PartsOf(g, maxLen));
      ConcatAppend(AllLines(front), LinesOf(g));
      OneGroup(g, maxLen);
      FitsConcat(AllParts(front, maxLen), PartsOf(g, maxLen), maxLen);
    }
  }

  lemma OneGroup(g: Group, maxLen: nat)
    requires maxLen >= 1 && IsGroup(g, maxLen)
    ensures Concat(PartsOf(g, maxLen)) == Concat(LinesOf(g)) && Fits(PartsOf(g, maxLen), maxLen)
  {
    if g.Whole? {
      ConcatPush([], Part(Concat(g.lines)));
      assert [] + [Part(Concat(g.lines))] == [Part(Concat(g.lines))];
    } else {
      LongPartsAreTheText(g.line.text, maxLen);
      ConcatPush([], g.line);
      assert [] + [g.line] == [g.line];
    }
  }

  /** The loop's state: closed groups, and the lines of the message being filled. */
  ghost predicate Filling(gs: seq<Group>, open: seq<Part>, current: string, parts: seq<Part>, maxLen: nat) {
    && maxLen >= 1 && Packing(gs, maxLen) && parts == AllParts(gs, maxLen)
    && current == Concat(open) && |current| <= maxLen && (open == [] <==> current == "")
    && (gs != [] && open != [] ==> Overflows(gs[|gs| - 1], open[0].text, maxLen))
  }

  lemma LineFits(gs: seq<Group>, open: seq<Part>, current: string, parts: seq<Part>, line: Part, maxLen: nat)
    requires Filling(gs, open, current, parts, maxLen) && line.text != "" && |current| + |line.text| <= maxLen
    requires open == [] && gs != [] ==> Overflows(gs[|gs| - 1], line.text, maxLen)
    ensures Filling(gs, open + [line], current + line.text, parts, maxLen)
  {
    ConcatPush(open, line);
  }

  lemma CloseGroup(gs: seq<Group>, open: seq<Part>, current: string, parts: seq<Part>, maxLen: nat)
    requires Filling(gs, open, current, parts, maxLen) && open != []
    ensures Filling(gs + [Whole(open)], [], "", parts + [Part(current)], maxLen)
    ensures AllLines(gs + [Whole(open)]) == AllLines(gs) + open
  {
    PackingPush(gs, Whole(open), maxLen);
    GroupsPush(gs, Whole(open), maxLen);
  }

  lemma BreakLine(gs: seq<Group>, parts: seq<Part>, line: Part, maxLen: nat)
    requires Filling(gs, [], "", parts, maxLen) && |line.text| > maxLen
    ensures Filling(gs + [Broken(line)], [], "", parts + LongParts(line.text, maxLen), maxLen)
    ensures AllLines(gs + [Broken(line)]) == AllLines(gs) + [line]
    ensures forall first :: Overflows(Broken(line), first, maxLen)
  {
    PackingPush(gs, Broken(line), maxLen);
    GroupsPush(gs, Broken(line), maxLen);
  }

  /** Sends off the message being filled, if there is one; a line that did not fit into it may start the next. */
  method SendOff(current: string, parts: seq<Part>, maxLen: nat, ghost line: string, ghost gs: seq<Group>, ghost open: seq<Part>)
    returns (sent: seq<Part>, ghost closed: seq<Group>)
    requires Filling(gs, open, current, parts, maxLen)
    requires open == [] && gs != [] ==> Overflows(gs[|gs| - 1], line, maxLen)
    requires open != [] ==> |current| + |line| > maxLen
    ensures Filling(closed, [], "", sent, maxLen) && AllLines(closed) == AllLines(gs) + open
    ensures closed != [] ==> Overflows(closed[|closed| - 1], line, maxLen)
  {
    sent, closed := parts, gs;
    if current != "" {
      CloseGroup(gs, open, current, parts, maxLen);
      sent, closed := parts + [Part(current)], gs + [Whole(open)];
    }
  }

  /** A line that does not fit into the message being filled: it starts the next one, or is broken up. */
  method PlaceLine(line: Part, parts: seq<Part>, maxLen: nat, ghost gs: seq<Group>)
    returns (current': string, parts': seq<Part>, ghost gs': seq<Group>, ghost open': seq<Part>)
    requires Filling(gs, [], "", parts, maxLen) && line.text != ""
    requires gs != [] ==> Overflows(gs[|gs| - 1], line.text, maxLen)
    ensures Filling(gs', open', current', parts', maxLen)
    ensures AllLines(gs') + open' == AllLines(gs) + [line]
    ensures open' == [] && gs' != [] ==> gs'[|gs'| - 1].Broken?
  {
    if |line.text| <= maxLen {
      LineFits(gs, [], "", parts, line, maxLen);
      assert "" + line.text == line.text && [] + [line] == [line];
      return line.text, parts, gs, [line];
    }
    BreakLine(gs, parts, line, maxLen);
    var more := SplitLongSegment(line.text, maxLen);
    return "", parts + more, gs + [Broken(line)], [];
  }

  /** One round of the loop. */
  method AddLine(line: Part, current: string, parts: seq<Part>, maxLen: nat, ghost gs: seq<Group>, ghost open: seq<Part>)
    returns (current': string, parts': seq<Part>, ghost gs': seq<Group>, ghost open': seq<Part>)
    requires Filling(gs, open, current, parts, maxLen) && line.text != ""
    requires open == [] && gs != [] ==> Overflows(gs[|gs| - 1], line.text, maxLen)
    ensures Filling(gs', open', current', parts', maxLen)
    ensures AllLines(gs') + open' == AllLines(gs) + open + [line]
    ensures open' == [] && gs' != [] ==> gs'[|gs'| - 1].Broken?
  {
    if |current| + |line.text| <= maxLen {
      LineFits(gs, open, current, parts, line, maxLen);
      return current + line.text, parts, gs, open + [line];
    }
    var sent, closed := SendOff(current, parts, maxLen, line.text, gs, open);
    current', parts', gs', open' := PlaceLine(line, sent, maxLen, closed);
  }

  lemma StartFilling(maxLen: nat)
    requires maxLen >= 1
    ensures Filling([], [], "", [], maxLen) && AllLines([]) == []
  {
  }

  /** The groups and the open part hold the first `n` lines. */
  ghost predicate Taken(gs: seq<Group>, open: seq<Part>, lines: seq<Part>, n: nat)
    requires n <= |lines|
  {
    AllLines(gs) + open == lines[..n]
  }

  lemma TakenNext(gs: seq<Group>, open: seq<Part>, gs': seq<Group>, open': seq<Part>, lines: seq<Part>, n: nat)
    requires n < |lines| && Taken(gs, open, lines, n) && AllLines(gs') + open' == AllLines(gs) + open + [lines[n]]
    ensures Taken(gs', open', lines, n + 1)
  {
  }

  lemma TakenAll(gs: seq<Group>, open: seq<Part>, lines: seq<Part>)
    requires Taken(gs, open, lines, |lines|)
    ensures AllLines(gs) + open == lines
  {
  }

  method AddLines(lines: seq<Part>, maxLen: nat)
    returns (current: string, parts: seq<Part>, ghost groups: seq<Group>, ghost open: seq<Part>)
    requires maxLen >= 1 && forall i :: 0 <= i < |lines| ==> lines[i].text != ""
    ensures Filling(groups, open, current, parts, maxLen) && AllLines(groups) + open == lines
  {
    current, parts, groups, open := "", [], [], [];
    StartFilling(maxLen);
    for i := 0 to |lines|
      invariant Filling(groups, open, current, parts, maxLen) && Taken(groups, open, lines, i)
      invariant open == [] && groups != [] ==> groups[|groups| - 1].Broken?
    {
      ghost var gs, before := groups, open;
      current, parts, groups, open := AddLine(lines[i], current, parts, maxLen, groups, open);
      TakenNext(gs, before, groups, open, lines, i);
    }
    TakenAll(groups, open, lines);
  }

  /** Packs the lines of a text into messages. */
  method PackLines(lines: seq<Part>, maxLen: nat) returns (parts: seq<Part>, ghost groups: seq<Group>)
    requires maxLen >= 1 && forall i :: 0 <= i < |lines| ==> lines[i].text != ""
    ensures Packing(groups, maxLen) && AllLines(groups) == lines && parts == AllParts(groups, maxLen)
  {
    var current, sent, closed, open := AddLines(lines, maxLen);
    parts, groups := sent, closed;
    if current != "" {
      CloseGroup(closed, open, current, sent, maxLen);
      parts, groups := sent + [Part(current)], closed + [Whole(open)];
    }
  }

  /** The parts are the sanitized text, cut at line ends where lines fit, each message filled with as many lines as fit. */
  method SplitMessage(text: string, maxLen: nat, control: char -> bool) returns (parts: seq<Part>, ghost groups: seq<Group>)
    requires maxLen >= 1
    ensures Concat(parts) == Sanitized(text, control)
    ensures |Sanitized(text, control)| <= maxLen ==> parts == [Part(Sanitized(text, control))]
    ensures |Sanitized(text, control)| > maxLen ==>
              && Fits(parts, maxLen) && Packing(groups, maxLen)
              && AllLines(groups) == Lines(Sanitized(text, control)) && parts == AllParts(groups, maxLen)
  {
    var content := Sanitized(text, control);
    if |content| <= maxLen {
      ConcatPush([], Part(content));
      assert [] + [Part(content)] == [Part(content)];
      return [Part(content)], [];
    }
    forall i | 0 <= i < |Lines(content)| ensures Lines(content)[i].text != "" { LinesAreLines(content, i); }
    parts, groups := PackLines(Lines(content), maxLen);
    LinesAreTheText(content);
    PartsAreTheLines(groups, maxLen);
  }
}
