/** Sequential deliveries over the idempotency cache: how close together two sends of one key can be. */
module AtMostOnce {
  import opened Sets
  import opened Wrappers
  import opened IdempotencyCache
  import opened IdempotencyHistory
  import opened IdempotencyRuns
  import opened IdempotencyTies

  /** A send that succeeded: when its key was checked, when it went out, and whether the process lived to save the key. */
  datatype Sent = Sent(key: Key, checkedAt: int, confirmedAt: int, kept: bool)

  datatype Desk = Desk(idem: World, log: seq<Sent>)

  /**
   A delivery checks its key; unless it is suppressed it tries to send, and `confirmed` is the time of success, if
   any. A process may be killed after a send and before its key is saved, and is started again later; an operator may
   have the saved keys restored into the running process.
   */
  datatype Work =
    | Deliver(key: Key, checkAt: int, confirmed: Option<int>)
    | Killed(key: Key, checkAt: int, sentAt: int, restartAt: int)
    | Reboot(at: int)
    | Refresh(at: int)

  function AfterCheck(w: World, key: Key, at: int, s: Settings): World {
    World(Checked(w.cache, key, at, s).0, w.saved, w.history, at)
  }

  ghost predicate Does(d: Desk, work: Work, after: Desk, s: Settings) {
    match work
    case Deliver(key, checkAt, confirmed) =>
      var mid := AfterCheck(d.idem, key, checkAt, s);
      && d.idem.now <= checkAt
      && if Checked(d.idem.cache, key, checkAt, s).1 || confirmed.None? then after == Desk(mid, d.log)
         else Step(mid, Confirm(key, confirmed.value), after.idem, s)
              && after.log == d.log + [Sent(key, checkAt, confirmed.value, true)]
    case Killed(key, checkAt, sentAt, restartAt) =>
      && d.idem.now <= checkAt <= sentAt <= restartAt && !Checked(d.idem.cache, key, checkAt, s).1
      && Step(AfterCheck(d.idem, key, checkAt, s), Restart(restartAt), after.idem, s)
      && after.log == d.log + [Sent(key, checkAt, sentAt, false)]
    case Reboot(at) => Step(d.idem, Restart(at), after.idem, s) && after.log == d.log
    case Refresh(at) => Step(d.idem, Reload(at), after.idem, s) && after.log == d.log
  }

  ghost function SentKeys(log: seq<Sent>): set<Key> {
    set i | 0 <= i < |log| :: log[i].key
  }

  /** The history of the cache: the sends whose keys were saved. */
  function SavedSends(log: seq<Sent>, s: Settings): seq<Entry> {
    if log == [] then []
    else
      var e := log[|log| - 1];
      SavedSends(log[..|log| - 1], s) + if e.kept then [Entry(e.key, s.Expiry(e.confirmedAt))] else []
  }

  /** The later send began at least a time to live after the earlier one, or after more than `maxEntries` keys had been sent since. */
  ghost predicate Apart(log: seq<Sent>, i: nat, j: nat, s: Settings)
    requires i <= j < |log|
  {
    log[i].confirmedAt + s.ttl <= log[j].checkedAt || |SentKeys(log[i..j])| > s.maxEntries
  }

  ghost predicate NoEarlyRepeat(log: seq<Sent>, s: Settings) {
    forall i, j :: 0 <= i < j < |log| && log[i].key == log[j].key && log[i].kept ==> Apart(log, i, j, s)
  }

  ghost predicate DeskInv(d: Desk, s: Settings) {
    Steady(d.idem, s) && d.idem.history == SavedSends(d.log, s) && NoEarlyRepeat(d.log, s)
  }

  lemma SavedNext(log: seq<Sent>, e: Sent, s: Settings)
    ensures SavedSends(log + [e], s) == SavedSends(log, s) + if e.kept then [Entry(e.key, s.Expiry(e.confirmedAt))] else []
  {
    assert (log + [e])[..|log|] == log;
  }

  lemma SentKeysNext(log: seq<Sent>, e: Sent)
    ensures SentKeys(log + [e]) == SentKeys(log) + {e.key}
  {
    assert (log + [e])[|log|] == e;
    assert forall i :: 0 <= i < |log| ==> (log + [e])[i] == log[i];
  }

  /** Where a saved send stands in the history: all keys from there on were sent from it on. */
  lemma {:induction false} SavedPlace(log: seq<Sent>, i: nat, s: Settings) returns (p: nat)
    requires i < |log| && log[i].kept
    ensures var h := SavedSends(log, s);
            && p < |h| && h[p] == Entry(log[i].key, s.Expiry(log[i].confirmedAt))
            && Since(h, p) <= SentKeys(log[i..])
    decreases |log|
  {
    var front, n := log[..|log| - 1], |log| - 1;
    assert log == front + [log[n]];
    SavedNext(front, log[n], s);
    if i == n {
      p := |SavedSends(front, s)|;
      assert log[n..] == [log[n]];
    } else {
      p := SavedPlace(front, i, s);
      assert log[i..] == front[i..] + [log[n]];
      SentKeysNext(front[i..], log[n]);
    }
  }

  /** The keys that keep a sent key out of the cache were all sent after it. */
  lemma ForgottenIsApart(log: seq<Sent>, i: nat, entry: Sent, s: Settings)
    requires i < |log| && log[i].kept && log[i].key == entry.key && OnTime(SavedSends(log, s))
    requires !SuppressedByHistory(SavedSends(log, s), entry.key, entry.checkedAt, s)
    ensures log[i].confirmedAt + s.ttl <= entry.checkedAt || |SentKeys(log[i..])| > s.maxEntries
  {
    var h := SavedSends(log, s);
    var p := SavedPlace(log, i, s);
    LastIs(h, p);
    var last := Last(h, entry.key);
    assert p < last ==> ByExpiry()(h[p], h[last]);
    assert Since(h, last) <= Since(h, p);
    SubsetSize(Since(h, last), SentKeys(log[i..]));
  }

  lemma UnsuppressedIsApart(log: seq<Sent>, entry: Sent, s: Settings)
    requires OnTime(SavedSends(log, s)) && NoEarlyRepeat(log, s)
    requires !SuppressedByHistory(SavedSends(log, s), entry.key, entry.checkedAt, s)
    ensures NoEarlyRepeat(log + [entry], s)
  {
    var longer := log + [entry];
    forall i, j | 0 <= i < j < |longer| && longer[i].key == longer[j].key && longer[i].kept ensures Apart(longer, i, j, s) {
      if j < |log| {
        assert longer[i..j] == log[i..j];
        assert Apart(log, i, j, s);
      } else {
        assert longer[i..j] == log[i..];
        ForgottenIsApart(log, i, entry, s);
      }
    }
  }

  lemma CheckIsStep(w: World, key: Key, at: int, s: Settings)
    requires Steady(w, s) && w.now <= at
    ensures Steady(AfterCheck(w, key, at, s), s)
    ensures Checked(w.cache, key, at, s).1 == SuppressedByHistory(w.history, key, at, s)
    ensures !Checked(w.cache, key, at, s).1 ==> key !in AfterCheck(w, key, at, s).cache.live
  {
    CheckedIsPruned(w.cache, w.history, w.now, key, at, s);
    SettledIsExact(Pruned(w.cache, at, s), w.history, at, s, key);
    assert Steady(AfterCheck(w, key, at, s), s) by { StepKeepsSteady(w, Check(key, at), AfterCheck(w, key, at, s), s); }
  }

  /** A confirmed key was not in the cache, so that the file stays in order whatever the clock shows. */
  lemma DeliverKeepsInv(d: Desk, key: Key, checkAt: int, confirmed: Option<int>, after: Desk, s: Settings)
    requires DeskInv(d, s) && Does(d, Deliver(key, checkAt, confirmed), after, s)
    ensures DeskInv(after, s)
  {
    CheckIsStep(d.idem, key, checkAt, s);
    if !Checked(d.idem.cache, key, checkAt, s).1 && confirmed.Some? {
      var entry := Sent(key, checkAt, confirmed.value, true);
      StepKeepsSteady(AfterCheck(d.idem, key, checkAt, s), Confirm(key, confirmed.value), after.idem, s);
      UnsuppressedIsApart(d.log, entry, s);
      SavedNext(d.log, entry, s);
    }
  }

  lemma KilledKeepsInv(d: Desk, work: Work, after: Desk, s: Settings)
    requires work.Killed? && DeskInv(d, s) && Does(d, work, after, s)
    ensures DeskInv(after, s)
  {
    var entry := Sent(work.key, work.checkAt, work.sentAt, false);
    CheckIsStep(d.idem, work.key, work.checkAt, s);
    StepKeepsSteady(AfterCheck(d.idem, work.key, work.checkAt, s), Restart(work.restartAt), after.idem, s);
    UnsuppressedIsApart(d.log, entry, s);
    SavedNext(d.log, entry, s);
  }

  lemma WorkKeepsInv(d: Desk, work: Work, after: Desk, s: Settings)
    requires DeskInv(d, s) && Does(d, work, after, s)
    ensures DeskInv(after, s)
  {
    match work
    case Deliver(key, checkAt, confirmed) => DeliverKeepsInv(d, key, checkAt, confirmed, after, s);
    case Killed(_, _, _, _) => KilledKeepsInv(d, work, after, s);
    case Reboot(at) => StepKeepsSteady(d.idem, Restart(at), after.idem, s);
    case Refresh(at) => StepKeepsSteady(d.idem, Reload(at), after.idem, s);
  }

  /** A run, one delivery or restart after the other. */
  datatype Shift = Start(at: int) | Then(before: Shift, work: Work, after: Desk) {
    function Now(): Desk {
      if Start? then Desk(World(EMPTY, [], [], at), []) else after
    }
  }

  ghost predicate Happens(shift: Shift, s: Settings) {
    shift.Then? ==> Happens(shift.before, s) && Does(shift.before.Now(), shift.work, shift.after, s)
  }

  lemma DeskStarts(start: int, s: Settings)
    ensures DeskInv(Desk(World(EMPTY, [], [], start), []), s)
  {
    StartIsSteady(start, s);
  }

  lemma {:induction false} ShiftKeepsInv(shift: Shift, s: Settings)
    requires Happens(shift, s)
    ensures DeskInv(shift.Now(), s)
  {
    match shift
    case Start(at) => DeskStarts(at, s);
    case Then(before, work, after) =>
      ShiftKeepsInv(before, s);
      WorkKeepsInv(before.Now(), work, after, s);
  }

  /**
   In any run of deliveries that do not overlap, first attempts, retries, replays and restarts alike, on a clock that
   never goes back, two sends of one key are a time to live or more than `maxEntries` keys apart, unless the process
   was killed between the first of them and the save of its key.
   */
  lemma NoKeyIsSentTwiceWhileRemembered(shift: Shift, s: Settings, i: nat, j: nat)
    requires Happens(shift, s)
    requires i < j < |shift.Now().log| && shift.Now().log[i].key == shift.Now().log[j].key && shift.Now().log[i].kept
    ensures var log := shift.Now().log;
            log[j].checkedAt >= log[i].confirmedAt + s.ttl || |SentKeys(log[i..j])| > s.maxEntries
  {
    ShiftKeepsInv(shift, s);
    assert Apart(shift.Now().log, i, j, s);
  }

  lemma KilledIsForgotten(d: Desk, work: Work, after: Desk, later: int, s: Settings)
    requires DeskInv(d, s) && Does(d, work, after, s) && work.Killed? && after.idem.now <= later
    ensures !Checked(after.idem.cache, work.key, later, s).1
  {
    assert !SuppressedByHistory(d.idem.history, work.key, work.checkAt, s) by { CheckIsStep(d.idem, work.key, work.checkAt, s); }
    assert after.idem.history == d.idem.history;
    assert Steady(after.idem, s) by { KilledKeepsInv(d, work, after, s); }
    CheckIsStep(after.idem, work.key, later, s);
  }

  /** The other way round: a send that was cut off so is unknown after the restart, and stays so until the key is sent again. */
  lemma KilledSendIsForgotten(shift: Shift, work: Work, after: Desk, later: int, s: Settings)
    requires Happens(shift, s) && Does(shift.Now(), work, after, s) && work.Killed? && after.idem.now <= later
    ensures !Checked(after.idem.cache, work.key, later, s).1
  {
    ShiftKeepsInv(shift, s);
    KilledIsForgotten(shift.Now(), work, after, later, s);
  }
}
