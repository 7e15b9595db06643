/**
 Outbound delivery: the retry loop around one send, the dead letters it leaves, and what one delivery does
 to the state the manager keeps.
 */
module Delivery {
  import opened Wrappers
  import opened Events
  import opened BusLanes
  import opened BusQueue
  import IC = IdempotencyCache
  import IR = IdempotencyRuns
  import opened AtMostOnce

  /**
   What the manager is set up with, and its surroundings: `channels` says of each channel whether it supports
   retries, `answer(n)` is the outcome of the n-th call to a channel, and `clock(n)` the n-th time read.
   */
  datatype Setup = Setup(
    sha: Digest, channels: map<string, bool>, allowed: OutboundEvent -> bool, sendMaxAttempts: int,
    answer: nat -> Result<string>, clock: nat -> int, idem: IC.Settings, maxsize: nat, journaled: bool)
  {
    function MaxAttempts(): nat {
      if sendMaxAttempts < 1 then 1 else sendMaxAttempts
    }

    /** How often a channel is tried. */
    function Tries(channel: string): nat
      requires channel in channels
    {
      if channels[channel] then MaxAttempts() else 1
    }

    function CallsMade(channel: string, failures: nat): nat
      requires channel in channels
    {
      if failures < Tries(channel) then failures + 1 else failures
    }
  }

  /** `sent` logs the confirmed sends, `offered` the events of all attempts as they were put to the outbound queue. */
  datatype Office = Office(
    cache: IC.Dictionary, saved: seq<IC.Entry>, offered: seq<OutboundEvent>, dead: seq<OutboundEvent>,
    calls: nat, ticks: nat, suppressed: nat, sent: seq<Sent>)

  // ---------- One delivery ----------

  /** Failed calls before the first success, among the next `limit` ones. */
  function Failures(answer: nat -> Result<string>, from: nat, limit: nat): (f: nat)
    ensures f <= limit
    ensures f < limit ==> answer(from + f).Success?
    ensures AllFail(answer, from, f)
    decreases limit
  {
    if limit == 0 || answer(from).Success? then 0 else 1 + Failures(answer, from + 1, limit - 1)
  }

  /** The next `n` calls all fail. */
  ghost predicate AllFail(answer: nat -> Result<string>, from: nat, n: nat) {
    forall i :: from <= i < from + n ==> answer(i).Failure?
  }

  lemma {:induction false} FailuresIs(answer: nat -> Result<string>, from: nat, limit: nat, f: nat)
    requires f <= limit && (f < limit ==> answer(from + f).Success?)
    requires AllFail(answer, from, f)
    ensures Failures(answer, from, limit) == f
    decreases limit
  {
    if limit != 0 && answer(from).Failure? { FailuresIs(answer, from + 1, limit - 1, f - 1); }
  }

  function LastError(u: Setup, from: nat, failures: nat): string {
    if failures == 0 then "" else var r := u.answer(from + failures - 1); if r.Failure? then r.error else ""
  }

  /** The event as it goes out on attempt number `failures + 1`. */
  function Attempt(e: OutboundEvent, failures: nat, from: nat, u: Setup): OutboundEvent
    requires e.channel in u.channels
  {
    e.(attempt := failures + 1, maxAttempts := u.MaxAttempts(), retryable := u.channels[e.channel],
       deadLettered := false, deadLetterReason := "", lastError := LastError(u, from, failures))
  }

  function SuppressedCopy(e: OutboundEvent, u: Setup): OutboundEvent
    requires e.channel in u.channels
  {
    e.(attempt := 0, maxAttempts := u.MaxAttempts(), retryable := u.channels[e.channel],
       deadLettered := false, deadLetterReason := "", lastError := "")
  }

  function Dead(e: OutboundEvent, attempts: nat, retryable: bool, reason: string, error: string): OutboundEvent {
    e.(attempt := attempts, maxAttempts := attempts, retryable := retryable,
       deadLettered := true, deadLetterReason := reason, lastError := error)
  }

  /** The outbound queue after an event is offered to it. */
  function Offered(lane: Lane<OutboundEvent>, e: OutboundEvent, u: Setup): Lane<OutboundEvent> {
    if u.maxsize == 0 || |lane.queue| < u.maxsize then Enqueued(lane, ItemOf(e), u.journaled) else lane
  }

  /** The events of the first `n` attempts. */
  function AttemptEvents(e: OutboundEvent, n: nat, from: nat, u: Setup): (r: seq<OutboundEvent>)
    requires e.channel in u.channels
    ensures |r| == n
  {
    if n == 0 then [] else AttemptEvents(e, n - 1, from, u) + [Attempt(e, n - 1, from, u)]
  }

  /**
   What the attempts of one delivery leave behind: `f` failed calls, then a success or no attempt left, and one
   offered event for each call.
   */
  ghost predicate Ended(u: Setup, e: OutboundEvent, from: nat, f: nat, calls: nat, offered: seq<OutboundEvent>,
                        confirmed: Option<OutboundEvent>, lastError: string)
    requires e.channel in u.channels
  {
    && f <= u.Tries(e.channel) && AllFail(u.answer, from, f)
    && (f < u.Tries(e.channel) ==> u.answer(from + f).Success?)
    && calls == from + u.CallsMade(e.channel, f)
    && offered == AttemptEvents(e, u.CallsMade(e.channel, f), from, u)
    && confirmed == (if f < u.Tries(e.channel) then Some(Attempt(e, f, from, u)) else None)
    && (confirmed.None? ==> lastError == LastError(u, from, f))
  }

  /** The state of the attempts after `f` failures, with an attempt left. */
  ghost predicate Failing(u: Setup, e: OutboundEvent, from: nat, f: nat, calls: nat, offered: seq<OutboundEvent>, lastError: string)
    requires e.channel in u.channels
  {
    && f < u.Tries(e.channel) && AllFail(u.answer, from, f) && calls == from + f
    && offered == AttemptEvents(e, f, from, u) && lastError == LastError(u, from, f)
  }

  lemma SuccessEnds(u: Setup, e: OutboundEvent, from: nat, f: nat, offered: seq<OutboundEvent>, lastError: string)
    requires e.channel in u.channels && Failing(u, e, from, f, from + f, offered, lastError) && u.answer(from + f).Success?
    ensures var event := Attempt(e, f, from, u); Ended(u, e, from, f, from + f + 1, offered + [event], Some(event), lastError)
  {
  }

  lemma FailureGoesOn(u: Setup, e: OutboundEvent, from: nat, f: nat, offered: seq<OutboundEvent>, lastError: string)
    requires e.channel in u.channels && Failing(u, e, from, f, from + f, offered, lastError) && u.answer(from + f).Failure?
    ensures var offered', error := offered + [Attempt(e, f, from, u)], u.answer(from + f).error;
            if f + 1 < u.Tries(e.channel) then Failing(u, e, from, f + 1, from + f + 1, offered', error)
            else Ended(u, e, from, f + 1, from + f + 1, offered', None, error)
  {
  }

  datatype Verdict = Suppressed(event: OutboundEvent) | Confirmed(event: OutboundEvent) | Lost | Dropped

  /** What follows a confirmed send: its key is remembered and saved, and the send logged. */
  function AfterKeeping(o: Office, k: IC.Key, checkedAt: int, u: Setup): Office {
    var now := u.clock(o.ticks);
    var cache := IC.Remembered(o.cache, k, now, u.idem);
    o.(cache := cache, saved := IC.Listed(cache), ticks := o.ticks + 1, sent := o.sent + [Sent(k, checkedAt, now, true)])
  }

  /** What follows the last permitted failure. */
  function AfterLosing(o: Office, dead: OutboundEvent): Office {
    o.(dead := o.dead + [dead])
  }

  /** The dead letter a delivery leaves after `limit` failed calls. */
  function FailedEvent(e: OutboundEvent, from: nat, limit: nat, u: Setup): OutboundEvent
    requires e.channel in u.channels
  {
    Dead(e, u.MaxAttempts(), u.channels[e.channel], "send_failed", LastError(u, from, limit))
  }

  /** The delivery of an event whose key is known: check, and unless suppressed, try. */
  function AfterKeyed(o: Office, e: OutboundEvent, k: IC.Key, u: Setup): (Office, Verdict)
    requires e.channel in u.channels
  {
    var (checked, suppressed) := IC.Checked(o.cache, k, u.clock(o.ticks), u.idem);
    var o' := o.(cache := checked, ticks := o.ticks + 1);
    if suppressed then (o'.(suppressed := o.suppressed + 1), Suppressed(SuppressedCopy(e, u)))
    else AfterTries(o', e, k, u.clock(o.ticks), u)
  }

  function AfterTries(o: Office, e: OutboundEvent, k: IC.Key, checkedAt: int, u: Setup): (Office, Verdict)
    requires e.channel in u.channels
  {
    var f := Failures(u.answer, o.calls, u.Tries(e.channel));
    AfterFailures(o, e, k, checkedAt, f, o.offered + AttemptEvents(e, u.CallsMade(e.channel, f), o.calls, u), u)
  }

  /** What follows the tries, of which `f` failed from call `from` on. */
  function AfterOutcome(tried: Office, e: OutboundEvent, k: IC.Key, checkedAt: int, f: nat, from: nat, u: Setup): (Office, Verdict)
    requires e.channel in u.channels
  {
    if f < u.Tries(e.channel) then (AfterKeeping(tried, k, checkedAt, u), Confirmed(Attempt(e, f, from, u)))
    else (AfterLosing(tried, FailedEvent(e, from, f, u)), Lost)
  }

  /** The state after `f` failures and, if tries are left, a success; `offered` is all that was offered by then. */
  function AfterFailures(o: Office, e: OutboundEvent, k: IC.Key, checkedAt: int, f: nat, offered: seq<OutboundEvent>, u: Setup): (Office, Verdict)
    requires e.channel in u.channels
  {
    AfterOutcome(o.(offered := offered, calls := o.calls + u.CallsMade(e.channel, f)), e, k, checkedAt, f, o.calls, u)
  }

  lemma TriesAreFailures(o: Office, e: OutboundEvent, k: IC.Key, checkedAt: int, f: nat, offered: seq<OutboundEvent>, u: Setup)
    requires e.channel in u.channels && f == Failures(u.answer, o.calls, u.Tries(e.channel))
    requires offered == o.offered + AttemptEvents(e, u.CallsMade(e.channel, f), o.calls, u)
    ensures AfterTries(o, e, k, checkedAt, u) == AfterFailures(o, e, k, checkedAt, f, offered, u)
  {
  }

  function AfterRetry(o: Office, e: OutboundEvent, u: Setup): (Office, Verdict)
    requires e.channel in u.channels
  {
    AfterKeyed(o, Ensured(e, u.sha).0, IC.Key(Ensured(e, u.sha).1), u)
  }

  function AfterPublish(o: Office, e: OutboundEvent, u: Setup): (Office, Verdict) {
    if e.channel !in u.channels then
      (o.(dead := o.dead + [Dead(Ensured(e, u.sha).0, 1, false, "channel_unavailable", "channel unavailable")]), Lost)
    else if !u.allowed(e) then (o, Dropped)
    else AfterRetry(o, e, u)
  }

  // ---------- The key never changes ----------

  /** What replaying a dead letter gives to the sender. */
  function Revived(dead: OutboundEvent): OutboundEvent {
    dead.(metadata := dead.metadata[REPLAYED_FIELD := Flag(true)],
          attempt := 1, deadLettered := false, deadLetterReason := "", lastError := "")
  }

  lemma MarkingKeepsKeyField(m: Metadata)
    ensures KEY_FIELD in m[REPLAYED_FIELD := Flag(true)] <==> KEY_FIELD in m
    ensures KEY_FIELD in m ==> m[REPLAYED_FIELD := Flag(true)][KEY_FIELD] == m[KEY_FIELD]
  {
    assert KEY_FIELD[1] != REPLAYED_FIELD[1];
  }

  /** The sender's key and the bus's key of an event. */
  function SenderKey(e: OutboundEvent, sha: Digest): string {
    Ensured(e, sha).1
  }

  lemma RevivalKeepsKeys(dead: OutboundEvent, sha: Digest)
    ensures SenderKey(Revived(dead), sha) == SenderKey(dead, sha) && BusKey(Revived(dead), sha) == BusKey(dead, sha)
  {
    MarkingKeepsKeyField(dead.metadata);
  }

  lemma EnsuringKeepsKeys(e: OutboundEvent, sha: Digest)
    ensures SenderKey(Ensured(e, sha).0, sha) == SenderKey(e, sha) && BusKey(Ensured(e, sha).0, sha) == BusKey(e, sha)
  {
    if OddKey(e.metadata) { OddKeyText(e.metadata[KEY_FIELD]); }
  }

  lemma DyingKeepsKeys(e: OutboundEvent, attempts: nat, retryable: bool, reason: string, error: string, sha: Digest)
    ensures SenderKey(Dead(e, attempts, retryable, reason, error), sha) == SenderKey(e, sha)
    ensures BusKey(Dead(e, attempts, retryable, reason, error), sha) == BusKey(e, sha)
  {
  }

  lemma PublishLeaves(o: Office, e: OutboundEvent, u: Setup)
    ensures var (after, verdict) := AfterPublish(o, e, u);
            if verdict.Lost?
            then |after.dead| == |o.dead| + 1 && after.dead[..|o.dead|] == o.dead
                 && var d := after.dead[|o.dead|];
                    d == Dead(Ensured(e, u.sha).0, d.maxAttempts, d.retryable, d.deadLetterReason, d.lastError)
            else after.dead == o.dead
  {
  }

  /** A delivery dead-letters its event under the same keys, at the end of the queue, or leaves the queue alone. */
  lemma PublishKeepsKeys(o: Office, e: OutboundEvent, u: Setup)
    ensures var (after, verdict) := AfterPublish(o, e, u);
            if verdict.Lost?
            then |after.dead| == |o.dead| + 1 && after.dead[..|o.dead|] == o.dead
                 && BusKey(after.dead[|o.dead|], u.sha) == BusKey(e, u.sha)
                 && SenderKey(after.dead[|o.dead|], u.sha) == SenderKey(e, u.sha)
            else after.dead == o.dead
  {
    var (after, verdict) := AfterPublish(o, e, u);
    PublishLeaves(o, e, u);
    if verdict.Lost? {
      var d := after.dead[|o.dead|];
      EnsuringKeepsKeys(e, u.sha);
      DyingKeepsKeys(Ensured(e, u.sha).0, d.maxAttempts, d.retryable, d.deadLetterReason, d.lastError, u.sha);
    }
  }

  // ---------- At most once ----------

  /** The clock never goes back; it may stand still. */
  ghost predicate Ticking(clock: nat -> int) {
    forall i: nat, j: nat :: i <= j ==> clock(i) <= clock(j)
  }

  /** The cache, its file and the log of sends as the history has them, none after the next reading of the clock. */
  ghost predicate Bears(d: Desk, o: Office, u: Setup) {
    && d.idem.cache == o.cache && d.idem.saved == o.saved && d.log == o.sent
    && d.idem.now <= u.clock(o.ticks)
  }

  ghost predicate InOrder(d: Desk, o: Office, u: Setup) {
    Ticking(u.clock) && Bears(d, o, u) && DeskInv(d, u.idem)
  }

  /** The step of the history that a delivery is. */
  ghost function WorkOf(o: Office, channel: string, k: IC.Key, u: Setup): Work
    requires channel in u.channels
  {
    var confirmed := Failures(u.answer, o.calls, u.Tries(channel)) < u.Tries(channel);
    Deliver(k, u.clock(o.ticks), if confirmed then Some(u.clock(o.ticks + 1)) else None)
  }

  lemma KeepingIsStep(mid: IR.World, o: Office, k: IC.Key, checkedAt: int, u: Setup) returns (after: IR.World)
    requires Ticking(u.clock) && mid.cache == o.cache && mid.now <= u.clock(o.ticks)
    ensures IR.Step(mid, IR.Confirm(k, u.clock(o.ticks)), after, u.idem)
    ensures Bears(Desk(after, o.sent + [Sent(k, checkedAt, u.clock(o.ticks), true)]), AfterKeeping(o, k, checkedAt, u), u)
  {
    var now := u.clock(o.ticks);
    var o' := AfterKeeping(o, k, checkedAt, u);
    after := IR.World(o'.cache, o'.saved, mid.history + [IC.Entry(k, u.idem.Expiry(now))], now);
    assert now <= u.clock(o.ticks + 1);
  }

  /** A delivery that sends nothing leaves the cache as its check did. */
  lemma UnsentIsWork(d: Desk, o: Office, e: OutboundEvent, k: IC.Key, u: Setup) returns (after: Desk)
    requires e.channel in u.channels && Ticking(u.clock) && Bears(d, o, u)
    requires IC.Checked(o.cache, k, u.clock(o.ticks), u.idem).1 || WorkOf(o, e.channel, k, u).confirmed.None?
    ensures Does(d, WorkOf(o, e.channel, k, u), after, u.idem) && Bears(after, AfterKeyed(o, e, k, u).0, u)
  {
    assert u.clock(o.ticks) <= u.clock(o.ticks + 1);
    after := Desk(AfterCheck(d.idem, k, u.clock(o.ticks), u.idem), d.log);
  }

  /** The state after the calls, of which the first `f` failed. */
  function Tried(o: Office, e: OutboundEvent, k: IC.Key, f: nat, u: Setup): Office
    requires e.channel in u.channels
  {
    o.(cache := IC.Checked(o.cache, k, u.clock(o.ticks), u.idem).0, ticks := o.ticks + 1,
       offered := o.offered + AttemptEvents(e, u.CallsMade(e.channel, f), o.calls, u), calls := o.calls + u.CallsMade(e.channel, f))
  }

  lemma KeyedIsTried(o: Office, e: OutboundEvent, k: IC.Key, u: Setup)
    requires e.channel in u.channels && !IC.Checked(o.cache, k, u.clock(o.ticks), u.idem).1
    ensures var f := Failures(u.answer, o.calls, u.Tries(e.channel));
            AfterKeyed(o, e, k, u) == AfterOutcome(Tried(o, e, k, f, u), e, k, u.clock(o.ticks), f, o.calls, u)
  {
  }

  lemma SentIs(o: Office, e: OutboundEvent, k: IC.Key, u: Setup) returns (tried: Office)
    requires e.channel in u.channels && !IC.Checked(o.cache, k, u.clock(o.ticks), u.idem).1 && WorkOf(o, e.channel, k, u).confirmed.Some?
    ensures AfterKeyed(o, e, k, u).0 == AfterKeeping(tried, k, u.clock(o.ticks), u)
    ensures tried.cache == IC.Checked(o.cache, k, u.clock(o.ticks), u.idem).0 && tried.ticks == o.ticks + 1 && tried.sent == o.sent
  {
    KeyedIsTried(o, e, k, u);
    tried := Tried(o, e, k, Failures(u.answer, o.calls, u.Tries(e.channel)), u);
  }

  lemma SentIsWork(d: Desk, o: Office, e: OutboundEvent, k: IC.Key, u: Setup) returns (after: Desk)
    requires e.channel in u.channels && Ticking(u.clock) && Bears(d, o, u)
    requires !IC.Checked(o.cache, k, u.clock(o.ticks), u.idem).1 && WorkOf(o, e.channel, k, u).confirmed.Some?
    ensures Does(d, WorkOf(o, e.channel, k, u), after, u.idem) && Bears(after, AfterKeyed(o, e, k, u).0, u)
  {
    var checkedAt := u.clock(o.ticks);
    assert u.clock(o.ticks) <= u.clock(o.ticks + 1);
    var tried := SentIs(o, e, k, u);
    var idem := KeepingIsStep(AfterCheck(d.idem, k, checkedAt, u.idem), tried, k, checkedAt, u);
    after := Desk(idem, o.sent + [Sent(k, checkedAt, u.clock(o.ticks + 1), true)]);
  }

  lemma DeliveryIsWork(d: Desk, o: Office, e: OutboundEvent, k: IC.Key, u: Setup) returns (after: Desk)
    requires e.channel in u.channels && Ticking(u.clock) && Bears(d, o, u)
    ensures Does(d, WorkOf(o, e.channel, k, u), after, u.idem) && Bears(after, AfterKeyed(o, e, k, u).0, u)
  {
    if IC.Checked(o.cache, k, u.clock(o.ticks), u.idem).1 || WorkOf(o, e.channel, k, u).confirmed.None? {
      after := UnsentIsWork(d, o, e, k, u);
    } else {
      after := SentIsWork(d, o, e, k, u);
    }
  }

  /** After any delivery the log still shows no key sent twice while it was remembered. */
  lemma PublishKeepsOrder(d: Desk, o: Office, e: OutboundEvent, u: Setup) returns (after: Desk)
    requires InOrder(d, o, u)
    ensures InOrder(after, AfterPublish(o, e, u).0, u)
  {
    if e.channel in u.channels && u.allowed(e) {
      var ensured, k := Ensured(e, u.sha).0, IC.Key(SenderKey(e, u.sha));
      after := DeliveryIsWork(d, o, ensured, k, u);
      WorkKeepsInv(d, WorkOf(o, e.channel, k, u), after, u.idem);
    } else {
      after := d;
    }
  }

  // ---------- Restarts ----------

  /** A restart: the cache comes back from its file, and `dead` is what the journal of dead letters gives back. */
  function AfterReboot(o: Office, dead: seq<OutboundEvent>, u: Setup): Office {
    var cache := IC.Restored(IC.EMPTY, o.saved, u.clock(o.ticks), u.idem);
    o.(cache := cache, saved := IC.Listed(cache), dead := dead, ticks := o.ticks + 1)
  }

  /** The state after a delivery that was cut off before its key, if it was sent, could be saved. */
  function Unsaved(o: Office, after: Office): Office {
    if |after.sent| <= |o.sent| then after
    else after.(saved := o.saved, sent := o.sent + [after.sent[|o.sent|].(kept := false)])
  }

  function AfterKill(o: Office, e: OutboundEvent, dead: seq<OutboundEvent>, u: Setup): Office {
    AfterReboot(Unsaved(o, AfterPublish(o, e, u).0), dead, u)
  }

  /** The operator has the saved keys restored into the running cache. */
  function AfterReload(o: Office, u: Setup): Office {
    var cache := IC.Restored(o.cache, o.saved, u.clock(o.ticks), u.idem);
    o.(cache := cache, saved := IC.Listed(cache), ticks := o.ticks + 1)
  }

  lemma ReloadIsWork(d: Desk, o: Office, u: Setup) returns (after: Desk)
    requires Ticking(u.clock) && Bears(d, o, u)
    ensures Does(d, Refresh(u.clock(o.ticks)), after, u.idem) && Bears(after, AfterReload(o, u), u)
  {
    var o' := AfterReload(o, u);
    after := Desk(IR.World(o'.cache, o'.saved, d.idem.history, u.clock(o.ticks)), d.log);
    assert u.clock(o.ticks) <= u.clock(o.ticks + 1);
  }

  lemma ReloadKeepsOrder(d: Desk, o: Office, u: Setup) returns (after: Desk)
    requires InOrder(d, o, u)
    ensures InOrder(after, AfterReload(o, u), u)
  {
    after := ReloadIsWork(d, o, u);
    WorkKeepsInv(d, Refresh(u.clock(o.ticks)), after, u.idem);
  }

  lemma RebootIsWork(d: Desk, o: Office, dead: seq<OutboundEvent>, u: Setup) returns (after: Desk)
    requires Ticking(u.clock) && Bears(d, o, u)
    ensures Does(d, Reboot(u.clock(o.ticks)), after, u.idem) && Bears(after, AfterReboot(o, dead, u), u)
  {
    var o' := AfterReboot(o, dead, u);
    after := Desk(IR.World(o'.cache, o'.saved, d.idem.history, u.clock(o.ticks)), d.log);
    assert u.clock(o.ticks) <= u.clock(o.ticks + 1);
  }

  lemma RebootKeepsOrder(d: Desk, o: Office, dead: seq<OutboundEvent>, u: Setup) returns (after: Desk)
    requires InOrder(d, o, u)
    ensures InOrder(after, AfterReboot(o, dead, u), u)
  {
    after := RebootIsWork(d, o, dead, u);
    WorkKeepsInv(d, Reboot(u.clock(o.ticks)), after, u.idem);
  }

  /** What is left of a delivery that succeeded and was cut off: only the log knows of it. */
  ghost predicate CutOff(o: Office, k: IC.Key, cut: Office, u: Setup) {
    && cut.saved == o.saved && cut.ticks == o.ticks + 2
    && cut.sent == o.sent + [Sent(k, u.clock(o.ticks), u.clock(o.ticks + 1), false)]
  }

  lemma UnsavedIsCutOff(o: Office, e: OutboundEvent, k: IC.Key, u: Setup)
    requires e.channel in u.channels && |AfterKeyed(o, e, k, u).0.sent| > |o.sent|
    ensures !IC.Checked(o.cache, k, u.clock(o.ticks), u.idem).1
    ensures CutOff(o, k, Unsaved(o, AfterKeyed(o, e, k, u).0), u)
  {
  }

  lemma CutOffIsWork(d: Desk, o: Office, k: IC.Key, cut: Office, dead: seq<OutboundEvent>, u: Setup) returns (after: Desk)
    requires Ticking(u.clock) && Bears(d, o, u) && CutOff(o, k, cut, u)
    requires !IC.Checked(o.cache, k, u.clock(o.ticks), u.idem).1
    ensures Does(d, Killed(k, u.clock(o.ticks), u.clock(o.ticks + 1), u.clock(o.ticks + 2)), after, u.idem)
    ensures Bears(after, AfterReboot(cut, dead, u), u)
  {
    var o' := AfterReboot(cut, dead, u);
    assert u.clock(o.ticks) <= u.clock(o.ticks + 1) <= u.clock(o.ticks + 2) <= u.clock(o.ticks + 3);
    after := Desk(IR.World(o'.cache, o'.saved, d.idem.history, u.clock(o.ticks + 2)), cut.sent);
  }

  lemma CutOffKeepsOrder(d: Desk, o: Office, k: IC.Key, cut: Office, dead: seq<OutboundEvent>, u: Setup) returns (after: Desk)
    requires InOrder(d, o, u) && CutOff(o, k, cut, u) && !IC.Checked(o.cache, k, u.clock(o.ticks), u.idem).1
    ensures InOrder(after, AfterReboot(cut, dead, u), u)
  {
    after := CutOffIsWork(d, o, k, cut, dead, u);
    WorkKeepsInv(d, Killed(k, u.clock(o.ticks), u.clock(o.ticks + 1), u.clock(o.ticks + 2)), after, u.idem);
  }

  lemma PublishSends(o: Office, e: OutboundEvent, u: Setup) returns (k: IC.Key)
    requires |AfterPublish(o, e, u).0.sent| > |o.sent|
    ensures !IC.Checked(o.cache, k, u.clock(o.ticks), u.idem).1 && CutOff(o, k, Unsaved(o, AfterPublish(o, e, u).0), u)
  {
    k := IC.Key(Ensured(e, u.sha).1);
    UnsavedIsCutOff(o, Ensured(e, u.sha).0, k, u);
  }

  lemma KillUnsentKeepsOrder(d: Desk, o: Office, e: OutboundEvent, dead: seq<OutboundEvent>, u: Setup) returns (after: Desk)
    requires InOrder(d, o, u) && |AfterPublish(o, e, u).0.sent| <= |o.sent|
    ensures InOrder(after, AfterKill(o, e, dead, u), u)
  {
    var mid := PublishKeepsOrder(d, o, e, u);
    after := RebootKeepsOrder(mid, AfterPublish(o, e, u).0, dead, u);
  }

  lemma KillSentKeepsOrder(d: Desk, o: Office, e: OutboundEvent, dead: seq<OutboundEvent>, u: Setup) returns (after: Desk)
    requires InOrder(d, o, u) && |AfterPublish(o, e, u).0.sent| > |o.sent|
    ensures InOrder(after, AfterKill(o, e, dead, u), u)
  {
    var k := PublishSends(o, e, u);
    after := CutOffKeepsOrder(d, o, k, Unsaved(o, AfterPublish(o, e, u).0), dead, u);
  }

  lemma KillKeepsOrder(d: Desk, o: Office, e: OutboundEvent, dead: seq<OutboundEvent>, u: Setup) returns (after: Desk)
    requires InOrder(d, o, u)
    ensures InOrder(after, AfterKill(o, e, dead, u), u)
  {
    if |AfterPublish(o, e, u).0.sent| <= |o.sent| {
      after := KillUnsentKeepsOrder(d, o, e, dead, u);
    } else {
      after := KillSentKeepsOrder(d, o, e, dead, u);
    }
  }
}
