/** Telegram session ids, the targets derived from them, and the parsing of targets. */
module TelegramTargets {
  import opened Wrappers
  import opened PyStrings

  // ---------- Numbers ----------

  /** `int(text)` of a stripped text: an optional sign, digits, single underscores between digits. */
  function IntValue(s: string): Option<int> {
    if s != "" && s[0] == '-' then (var n := DigitsValue(s[1..], 0, false); if n.Some? then Some(-n.value) else None)
    else if s != "" && s[0] == '+' then DigitsValue(s[1..], 0, false)
    else DigitsValue(s, 0, false)
  }

  /** The digits read so far are worth `acc`; `after` says whether the last character was one. */
  function DigitsValue(s: string, acc: nat, after: bool): (r: Option<int>)
    ensures r.Some? ==> r.value >= 0
  {
    if s == "" then if after then Some(acc) else None
    else if IsDigit(s[0]) then DigitsValue(s[1..], 10 * acc + (s[0] as int - '0' as int), true)
    else if s[0] == '_' && after then DigitsValue(s[1..], acc, false)
    else None
  }

  /** What a non-empty run of digits is worth after digits worth `acc`. */
  function Run(s: string, acc: nat): (n: nat)
    requires AllDigits(s)
  {
    if s == "" then acc else Run(s[1..], 10 * acc + (s[0] as int - '0' as int))
  }

  lemma {:induction false} DigitsAreRun(s: string, acc: nat, after: bool)
    requires AllDigits(s) && (s != "" || after)
    ensures DigitsValue(s, acc, after) == Some(Run(s, acc))
  {
    if s != "" { DigitsAreRun(s[1..], 10 * acc + (s[0] as int - '0' as int), true); }
  }

  lemma {:induction false} RunPush(s: string, d: char, acc: nat)
    requires AllDigits(s) && IsDigit(d)
    ensures Run(s + [d], acc) == 10 * Run(s, acc) + (d as int - '0' as int)
  {
    if s == "" {
      assert s + [d] == [d] && [d][1..] == "";
    } else {
      RunPush(s[1..], d, 10 * acc + (s[0] as int - '0' as int));
      assert (s + [d])[1..] == s[1..] + [d];
    }
  }

  lemma {:induction false} RunOfDecimal(n: nat)
    ensures Run(Decimal(n), 0) == n
  {
    var last := ('0' as int + n % 10) as char;
    if n < 10 {
      assert Decimal(n) == [last] && [last][1..] == "";
    } else {
      RunOfDecimal(n / 10);
      RunPush(Decimal(n / 10), last, 0);
    }
  }

  /** A number is read back from its decimal text. */
  lemma IntUndoesDecimal(n: nat)
    ensures IntValue(Decimal(n)) == Some(n)
  {
    assert IsDigit(Decimal(n)[0]);
    DigitsAreRun(Decimal(n), 0, false);
    RunOfDecimal(n);
  }

  /** `coerce_thread_id` of a text. */
  function ThreadOf(s: string): Option<int> {
    var n := IntValue(s);
    if n.Some? && n.value > 0 then n else None
  }

  // ---------- The three conversions ----------

  /** A payload taken apart at `:topic:`, else at `:thread:`. */
  function AtThread(payload: string): Parts {
    if Contains(payload, ":topic:") then Partition(payload, ":topic:") else Partition(payload, ":thread:")
  }

  /** `_session_id_for_chat`. */
  function SessionId(chat: string, chatType: string, thread: Option<int>): string {
    var id, kind := Strip(chat), Lower(Strip(chatType));
    var positive := thread.Some? && thread.value > 0;
    if kind == "supergroup" && positive then "telegram:" + id + ":topic:" + Decimal(thread.value)
    else if kind == "private" && positive then "telegram:" + id + ":thread:" + Decimal(thread.value)
    else "telegram:" + id
  }

  function TargetOfPayload(payload: string): string {
    var p := AtThread(payload);
    if !p.found then Strip(payload)
    else if Strip(p.tail) == "" then Strip(p.head)
    else Strip(p.head) + ":" + Strip(p.tail)
  }

  /** `_target_from_session_id` for a Telegram session id. */
  function Target(sessionId: string): string {
    var raw := Strip(sessionId);
    if raw == "" then ""
    else if StartsWith(raw, "telegram:") then TargetOfPayload(Strip(Partition(raw, ":").tail))
    else if StartsWith(raw, "tg_") then TargetOfPayload(raw[3..])
    else if Contains(raw, ":") then Strip(Partition(raw, ":").tail)
    else raw
  }

  datatype Parsed = Parsed(chat: string, thread: Option<int>)

  function ParsePayload(payload: string): Parsed {
    var p := AtThread(payload);
    if p.found then Parsed(Strip(p.head), ThreadOf(Strip(p.tail))) else ParsePlain(payload)
  }

  function ParsePlain(raw: string): Parsed {
    var p := Partition(raw, ":");
    if p.found then Parsed(Strip(p.head), ThreadOf(Strip(p.tail))) else Parsed(Strip(p.head), None)
  }

  /** `parse_target`. */
  function Parse(target: string): Parsed {
    var raw := Strip(target);
    if raw == "" then Parsed("", None)
    else if StartsWith(raw, "telegram:") then ParsePayload(Strip(Partition(raw, ":").tail))
    else if StartsWith(raw, "tg_") then ParsePayload(Strip(raw[3..]))
    else ParsePlain(raw)
  }

  // ---------- Round trips ----------

  lemma DecimalIsId(n: nat)
    ensures IsId(Decimal(n))
  {
    var s := Decimal(n);
    assert IsDigit(s[0]) && IsDigit(s[|s| - 1]);
  }

  lemma FreeHasNoThread(s: string)
    requires Free(s, ':')
    ensures !AtThread(s).found
  {
    PartitionMisses(s, ":topic:");
    PartitionMisses(s, ":thread:");
  }

  /** Either mark separates a chat from its thread. */
  lemma ThreadComesApart(chat: string, mark: string, thread: string)
    requires IsId(chat) && IsId(thread) && (mark == ":topic:" || mark == ":thread:")
    ensures AtThread(chat + mark + thread) == Parts(chat, true, thread)
  {
    var s := chat + mark + thread;
    PartitionAt(chat, mark, thread);
    if mark == ":thread:" { NoTopic(chat, thread); }
  }

  lemma NoTopic(chat: string, thread: string)
    requires Free(chat, ':') && Free(thread, ':')
    ensures !Contains(chat + ":thread:" + thread, ":topic:")
  {
    var s, n := chat + ":thread:" + thread, |chat|;
    assert s[n + 2] == 'h';
    forall i ensures !OccursAt(s, ":topic:", i) {
      NotAt(s, ":topic:", i, if i == n then 2 else if i == n + 7 then 6 else 0);
    }
  }

  lemma SplitPrefix(payload: string)
    requires Stripped(payload) && payload != ""
    ensures Strip("telegram:" + payload) == "telegram:" + payload && StartsWith("telegram:" + payload, "telegram:")
    ensures Strip(Partition("telegram:" + payload, ":").tail) == payload
  {
    var s := "telegram:" + payload;
    assert s == "telegram" + ":" + payload;
    assert Free("telegram", ':');
    PartitionAt("telegram", ":", payload);
    assert s[|s| - 1] == payload[|payload| - 1];
    assert s[..9] == "telegram:";
  }

  /** With a thread, the session id gives the target, and parses to the chat and the thread. */
  lemma ThreadedTarget(chat: string, mark: string, n: nat)
    requires IsId(chat) && n > 0 && (mark == ":topic:" || mark == ":thread:")
    ensures var id := "telegram:" + (chat + mark + Decimal(n));
            Target(id) == chat + ":" + Decimal(n) && Parse(id) == Parsed(chat, Some(n))
  {
    DecimalIsId(n);
    IntUndoesDecimal(n);
    ThreadedPayload(chat, mark, Decimal(n));
    ThreadComesApart(chat, mark, Decimal(n));
    SplitPrefix(chat + mark + Decimal(n));
  }

  lemma ThreadedPayload(chat: string, mark: string, thread: string)
    requires IsId(chat) && IsId(thread) && (mark == ":topic:" || mark == ":thread:")
    ensures Stripped(chat + mark + thread) && chat + mark + thread != ""
  {
    assert chat + mark + thread == chat + (mark + thread);
    JoinIsStripped(mark, thread);
    JoinIsStripped(chat, mark + thread);
  }

  lemma PlainTarget(chat: string)
    requires IsId(chat)
    ensures Target("telegram:" + chat) == chat && Parse("telegram:" + chat) == Parsed(chat, None)
  {
    SplitPrefix(chat);
    FreeHasNoThread(chat);
    PartitionMisses(chat, ":");
  }

  /** A chat id that a target cannot mistake for a session id; every numeric one is. */
  predicate IsChat(s: string) {
    IsId(s) && !StartsWith(s, "tg_") && s != "telegram"
  }

  predicate IsNumeric(s: string) {
    var digits := if s != "" && s[0] == '-' then s[1..] else s;
    digits != "" && AllDigits(digits)
  }

  lemma NumericIsChat(s: string)
    requires IsNumeric(s)
    ensures IsChat(s)
  {
    assert forall i :: 0 < i < |s| && s[0] == '-' ==> s[i] == s[1..][i - 1];
    assert forall i :: 0 <= i < |s| ==> IsDigit(s[i]) || s[i] == '-';
    NotPrefix(s, "tg_", 0);
    assert s[0] != "telegram"[0];
  }

  lemma NotTheLongForm(chat: string, rest: string)
    requires IsChat(chat)
    ensures !StartsWith(chat + ":" + rest, "telegram:")
  {
    var raw := chat + ":" + rest;
    if |chat| == 8 {
      var i :| 0 <= i < 8 && chat[i] != "telegram"[i];
      NotPrefix(raw, "telegram:", i);
    } else {
      NotPrefix(raw, "telegram:", if |chat| < 8 then |chat| else 8);
    }
  }

  lemma NotTheShortForm(chat: string, rest: string)
    requires IsChat(chat)
    ensures !StartsWith(chat + ":" + rest, "tg_")
  {
    var raw := chat + ":" + rest;
    if |chat| < 3 {
      NotPrefix(raw, "tg_", |chat|);
    } else {
      assert chat[..3] == raw[..3];
    }
  }

  lemma ParseWithThread(chat: string, thread: string)
    requires IsChat(chat) && IsId(thread)
    ensures Parse(chat + ":" + thread) == Parsed(chat, ThreadOf(thread))
  {
    var raw := chat + ":" + thread;
    PartitionAt(chat, ":", thread);
    assert raw == chat + (":" + thread);
    JoinIsStripped(":", thread);
    JoinIsStripped(chat, ":" + thread);
    NotTheLongForm(chat, thread);
    NotTheShortForm(chat, thread);
  }

  lemma ParseThreaded(chat: string, n: nat)
    requires IsChat(chat) && n > 0
    ensures Parse(chat + ":" + Decimal(n)) == Parsed(chat, Some(n))
  {
    DecimalIsId(n);
    IntUndoesDecimal(n);
    ParseWithThread(chat, Decimal(n));
  }

  lemma ParseUnthreaded(chat: string)
    requires IsChat(chat)
    ensures Parse(chat) == Parsed(chat, None)
  {
    PartitionMisses(chat, ":");
    NotPrefix(chat, "telegram:", 8);
  }

  /** The thread that a session keeps: a positive one, in a supergroup or a private chat. */
  function KeptThread(chatType: string, thread: Option<int>): Option<int> {
    var kind := Lower(Strip(chatType));
    if (kind == "supergroup" || kind == "private") && thread.Some? && thread.value > 0 then thread else None
  }

  lemma SessionIdForms(chat: string, chatType: string, thread: Option<int>)
    requires IsId(chat)
    ensures var id := SessionId(chat, chatType, thread);
            match KeptThread(chatType, thread)
            case None => id == "telegram:" + chat
            case Some(n) => n > 0 && exists mark :: (mark == ":topic:" || mark == ":thread:") && id == "telegram:" + (chat + mark + Decimal(n))
  {
    if thread.Some? && thread.value > 0 {
      var n := Decimal(thread.value);
      assert "telegram:" + chat + ":topic:" + n == "telegram:" + (chat + ":topic:" + n);
      assert "telegram:" + chat + ":thread:" + n == "telegram:" + (chat + ":thread:" + n);
    }
  }

  /** From a chat and its thread to the session id, to the target, and back: nothing is lost on either path. */
  lemma SessionRoundTrip(chat: string, chatType: string, thread: Option<int>)
    requires IsChat(chat)
    ensures var id := SessionId(chat, chatType, thread);
            && Parse(Target(id)) == Parsed(chat, KeptThread(chatType, thread))
            && Parse(id) == Parsed(chat, KeptThread(chatType, thread))
  {
    var id := SessionId(chat, chatType, thread);
    SessionIdForms(chat, chatType, thread);
    match KeptThread(chatType, thread)
    case None =>
      PlainTarget(chat);
      ParseUnthreaded(chat);
    case Some(n) =>
      var mark :| (mark == ":topic:" || mark == ":thread:") && id == "telegram:" + (chat + mark + Decimal(n));
      ThreadedTarget(chat, mark, n);
      ParseThreaded(chat, n);
  }
}
