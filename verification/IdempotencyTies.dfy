/**
 Keys confirmed at one reading of the clock: when such ties do the idempotency cache no harm, and two runs in
 which they do.
 */
module IdempotencyTies {
  import opened Sequences
  import opened StableSort
  import opened IdempotencyCache
  import opened IdempotencyHistory
  import opened IdempotencyRuns

  // ---------- What a prune keeps ----------

  ghost predicate KeptByPops(inv: Cache -> bool) {
    forall c: Cache :: c.order != [] && inv(c) ==> inv(PopFront(c))
  }

  lemma {:induction false} KeptByExpire(c: Cache, now: int, inv: Cache -> bool)
    requires KeptByPops(inv) && inv(c)
    ensures inv(Expire(c, now))
    decreases |c.order|
  {
    if c.order != [] && c.order[0].expiry <= now { KeptByExpire(PopFront(c), now, inv); }
  }

  lemma {:induction false} KeptByShrink(c: Cache, maxEntries: int, inv: Cache -> bool)
    requires KeptByPops(inv) && inv(c)
    ensures inv(Shrink(c, maxEntries))
    decreases |c.order|
  {
    if |c.live| > maxEntries && c.order != [] { KeptByShrink(PopFront(c), maxEntries, inv); }
  }

  lemma {:induction false} KeptBySkip(c: Cache, inv: Cache -> bool)
    requires KeptByPops(inv) && inv(c)
    ensures inv(SkipStale(c))
    decreases |c.order|
  {
    if c.order != [] && !Current(c) { KeptBySkip(PopFront(c), inv); }
  }

  lemma KeptByPrune(c: Cache, now: int, s: Settings, inv: Cache -> bool)
    requires KeptByPops(inv) && inv(c) && inv(EMPTY)
    ensures inv(Pruned(c, now, s)) && inv(Expire(c, now)) && inv(SkipStale(Expire(c, now)))
  {
    KeptByExpire(c, now, inv);
    KeptBySkip(Expire(c, now), inv);
    KeptByShrink(Expire(c, now), s.maxEntries, inv);
  }

  // ---------- No pair twice ----------

  /** No pair stands in the queue twice, and none is newer than its key. */
  ghost predicate NoTwins(c: Cache) {
    && InOrder(c.order, ByExpiry())
    && (forall i, j :: 0 <= i < j < |c.order| ==> c.order[i] != c.order[j])
    && (forall i :: 0 <= i < |c.order| ==> c.order[i].key in c.live && c.order[i].expiry <= c.live[c.order[i].key])
  }

  lemma PopKeepsNoTwins(c: Cache)
    requires NoTwins(c) && c.order != []
    ensures NoTwins(PopFront(c))
  {
    var p, e := PopFront(c), c.order[0];
    forall i | 0 <= i < |p.order| ensures p.order[i].key in p.live {
      assert p.order[i] == c.order[i + 1] != e && ByExpiry()(e, c.order[i + 1]);
    }
  }

  lemma PruneKeepsNoTwins(c: Cache, now: int, s: Settings)
    requires NoTwins(c)
    ensures NoTwins(Pruned(c, now, s)) && NoTwins(SkipStale(Expire(c, now)))
  {
    ghost var inv := (d: Cache) => NoTwins(d);
    forall d: Cache | d.order != [] && inv(d) ensures inv(PopFront(d)) { PopKeepsNoTwins(d); }
    KeptByPrune(c, now, s, inv);
  }

  /** The key is still remembered from a confirmation at the same reading. */
  predicate Again(c: Cache, key: Key, expiry: int) {
    key in c.live && c.live[key] == expiry
  }

  lemma AppendKeepsNoTwins(c: Cache, key: Key, expiry: int)
    requires NoTwins(c) && !Again(c, key, expiry) && forall k :: k in c.live ==> c.live[k] <= expiry
    ensures NoTwins(Appended(c, key, expiry))
  {
  }

  lemma NoTwinsNoOvertaking(c: Cache, h: seq<Entry>, now: int, s: Settings)
    requires NoTwins(c) && Queued(c, h) && InTurn(c, h) && Agrees(c, h, now, s)
    ensures !DropsEarly(c, h)
  {
    if DropsEarly(c, h) {
      OvertakenIff(c, h, now, s);
      var k :| k in c.live && At(c, k) < At(c, c.order[0].key);
      assert c.order[At(c, c.order[0].key)] == c.order[0];
      var i :| 0 <= i < |c.order| && c.order[i] == Pair(c, k);
      LastIsLast(c.order, i);
    }
  }

  lemma PruneKeepsTurn(c: Cache, h: seq<Entry>, now: int, s: Settings)
    requires Queued(c, h) && InTurn(c, h)
    ensures InTurn(Pruned(c, now, s), h) && Queued(Pruned(c, now, s), h) && InTurn(SkipStale(Expire(c, now)), h)
  {
    ghost var inv := (d: Cache) => Queued(d, h) && InTurn(d, h);
    forall d: Cache | d.order != [] && inv(d) ensures inv(PopFront(d)) {
      PopKeepsQueue(d, h);
      PopKeepsTurn(d, h);
    }
    KeptByPrune(c, now, s, inv);
  }

  lemma LiveIsBounded(w: World, at: int, s: Settings)
    requires Inv(w, s) && w.now <= at
    ensures forall k :: k in w.cache.live ==> w.cache.live[k] <= s.Expiry(at)
  {
    forall k | k in w.cache.live ensures w.cache.live[k] <= s.Expiry(at) {
      assert w.history[Last(w.history, k)] in w.history;
    }
  }

  lemma NoTwinsInTurn(w: World, key: Key, at: int, s: Settings)
    requires TwinFree(w, s) && w.now <= at && !Again(w.cache, key, s.Expiry(at))
    ensures !Evicts(w, key, at, s) && NoTwins(Remembered(w.cache, key, at, s))
    ensures InTurn(Remembered(w.cache, key, at, s), w.history + [Entry(key, s.Expiry(at))])
  {
    var c, h := Appended(w.cache, key, s.Expiry(at)), w.history + [Entry(key, s.Expiry(at))];
    assert NoTwins(c) by {
      LiveIsBounded(w, at, s);
      AppendKeepsNoTwins(w.cache, key, s.Expiry(at));
    }
    PruneKeepsNoTwins(c, at, s);
    PruneKeepsNoTwins(Pruned(c, at, s), at, s);
    AppendedAgrees(w, key, at, s);
    AppendKeepsTurn(w.cache, w.history, key, s.Expiry(at));
    PruneKeepsTurn(c, h, at, s);
    PruneKeepsTurn(Pruned(c, at, s), h, at, s);
    ExpireKeepsAgreement(c, h, at, s);
    SkipKeepsAgreement(Expire(c, at), h, at, s);
    NoTwinsNoOvertaking(SkipStale(Expire(c, at)), h, at, s);
  }

  // ---------- Runs without such confirmations ----------

  /** No key is confirmed while it is remembered from the same reading, and no restart reads a file out of order. */
  ghost predicate Fair(w: World, op: Op, s: Settings) {
    && (op.Confirm? ==> !Again(w.cache, op.key, s.Expiry(op.at)))
    && (op.Restart? ==> FileInOrder(w, op.at))
    && (op.Reload? ==> Fits(w.cache) && InOrder(Listed(Pruned(w.cache, op.at, s)), Earlier(w.history)))
  }

  /** In particular a confirmation is fair if its key was never confirmed at that reading before. */
  lemma NewPairIsFair(w: World, key: Key, at: int, s: Settings)
    requires Inv(w, s) && Entry(key, s.Expiry(at)) !in w.history
    ensures !Again(w.cache, key, s.Expiry(at))
  {
    assert forall i :: 0 <= i < |w.history| ==> w.history[i] in w.history;
  }

  ghost predicate TwinFree(w: World, s: Settings) {
    Inv(w, s) && NoTwins(w.cache) && InTurn(w.cache, w.history)
  }

  lemma FreshHasNoTwins(list: seq<Entry>, live: map<Key, int>)
    requires Holds(list, live) && InOrder(list, ByExpiry())
    ensures NoTwins(Fresh(list, live))
  {
    forall i, j | 0 <= i < j < |list| ensures list[i] != list[j] { assert DifferentKeys()(list[i], list[j]); }
    assert forall i :: 0 <= i < |list| ==> list[i] in list;
  }

  lemma StepKeepsTwinFree(w: World, op: Op, after: World, s: Settings)
    requires TwinFree(w, s) && Step(w, op, after, s) && Fair(w, op, s)
    ensures TwinFree(after, s)
  {
    match op
    case Confirm(key, at) =>
      NoTwinsInTurn(w, key, at, s);
      ConfirmKeepsInv(w, key, at, after, s);
    case Check(key, at) =>
      CheckKeepsInv(w, key, at, after, s);
      CheckedIsPruned(w.cache, w.history, w.now, key, at, s);
      PruneKeepsNoTwins(w.cache, at, s);
      PruneKeepsTurn(w.cache, w.history, at, s);
    case Restart(at) =>
      RestartKeepsTurnIff(w, at, after, s);
      RestartIs(w, at, after, s);
      FreshHasNoTwins(Unexpired(w.saved, at), Pruned(w.cache, at, s).live);
    case Reload(at) => ReloadKeepsTwinFree(w, at, after, s);
  }

  lemma ReloadKeepsTwinFree(w: World, at: int, after: World, s: Settings)
    requires TwinFree(w, s) && Step(w, Reload(at), after, s) && Fair(w, Reload(at), s)
    ensures TwinFree(after, s)
  {
    ReloadKeepsInv(w, at, after, s);
    if Unexpired(w.saved, at) == [] {
      PruneKeepsNoTwins(w.cache, at, s);
      PruneKeepsTurn(w.cache, w.history, at, s);
    } else {
      ListedHolds(Pruned(w.cache, at, s));
      FreshHasNoTwins(Listed(Pruned(w.cache, at, s)), Pruned(w.cache, at, s).live);
    }
  }

  ghost predicate FairRun(r: Trace, s: Settings) {
    r.Goes? ==> FairRun(r.before, s) && Fair(r.before.Now(), r.op, s)
  }

  lemma {:induction false} RunKeepsTwinFree(r: Trace, s: Settings)
    requires Happens(r, s) && FairRun(r, s)
    ensures TwinFree(r.Now(), s)
  {
    match r
    case Begins(at) => StartIsFine(at, s);
    case Goes(before, op, after) =>
      RunKeepsTwinFree(before, s);
      StepKeepsTwinFree(before.Now(), op, after, s);
  }

  /**
   On a clock that never goes back, restarts included, every check gives exactly the answer of the history, if no
   key is confirmed while it is remembered from the same reading and no restart reads a file out of order.
   */
  lemma CacheAgreesWithHistory(r: Trace, s: Settings, key: Key, now: int)
    requires Happens(r, s) && FairRun(r, s) && r.Now().now <= now
    ensures Checked(r.Now().cache, key, now, s).1 <==> SuppressedByHistory(r.Now().history, key, now, s)
  {
    RunKeepsTwinFree(r, s);
    InvAgrees(r.Now(), s);
  }

  // ---------- Files in order ----------

  /** Of two keys with one expiry time the later confirmed one. */
  function TieOrder(live: map<Key, int>, h: seq<Entry>): Order<Key> {
    (a: Key, b: Key) => a in live && b in live && live[a] == live[b] ==> Last(h, a) < Last(h, b)
  }

  /** The dictionary lists keys with one expiry time in the order in which they were confirmed. */
  ghost predicate TiesInOrder(c: Cache, h: seq<Entry>) {
    InOrder(c.slots, TieOrder(c.live, h))
  }

  lemma PopKeepsTies(c: Cache, h: seq<Entry>)
    requires c.order != [] && TiesInOrder(c, h)
    ensures TiesInOrder(PopFront(c), h)
  {
    var p := PopFront(c);
    if Current(c) { WhereKeepsOrder(c.slots, Other(c.order[0].key), TieOrder(c.live, h)); }
    assert InOrder(p.slots, TieOrder(c.live, h));
    forall i, j | 0 <= i < j < |p.slots| ensures TieOrder(p.live, h)(p.slots[i], p.slots[j]) {
      assert TieOrder(c.live, h)(p.slots[i], p.slots[j]);
    }
  }

  lemma PruneKeepsTies(c: Cache, h: seq<Entry>, now: int, s: Settings)
    requires TiesInOrder(c, h)
    ensures TiesInOrder(Pruned(c, now, s), h)
  {
    ghost var inv := (d: Cache) => TiesInOrder(d, h);
    forall d: Cache | d.order != [] && inv(d) ensures inv(PopFront(d)) { PopKeepsTies(d, h); }
    KeptByPrune(c, now, s, inv);
  }

  /** The key is new to the cache, or this reading is later than that of any key in it. */
  ghost predicate Newest(c: Cache, key: Key, expiry: int) {
    key in c.live ==> forall k :: k in c.live ==> c.live[k] < expiry
  }

  lemma AppendKeepsTies(c: Cache, h: seq<Entry>, key: Key, expiry: int)
    requires Fits(c) && TiesInOrder(c, h) && Newest(c, key, expiry)
    ensures TiesInOrder(Appended(c, key, expiry), h + [Entry(key, expiry)])
  {
    var e := Entry(key, expiry);
    var c', h' := Appended(c, key, expiry), h + [e];
    forall i, j | 0 <= i < j < |c'.slots| ensures TieOrder(c'.live, h')(c'.slots[i], c'.slots[j]) {
      LastPush(h, e, c'.slots[i]);
      LastPush(h, e, c'.slots[j]);
      assert i < |c.slots| && c.slots[i] in c.live;
      if j < |c.slots| {
        assert c.slots[j] in c.live && TieOrder(c.live, h)(c.slots[i], c.slots[j]);
      }
    }
  }

  /** Not later in the history. */
  function NotLater(h: seq<Entry>): Order<Entry> {
    (a: Entry, b: Entry) => Last(h, a.key) <= Last(h, b.key)
  }

  lemma ItemsTie(c: Cache, h: seq<Entry>, i: nat, j: nat)
    requires Fits(c) && Carries(c, h) && OnTime(h) && TiesInOrder(c, h) && i < j < |c.slots|
    ensures ByExpiry()(Items(c)[i], Items(c)[j]) <==> NotLater(h)(Items(c)[i], Items(c)[j])
  {
    var a, b := c.slots[i], c.slots[j];
    assert a in c.live && b in c.live && TieOrder(c.live, h)(a, b);
    SinceIs(h, a, b);
    assert Last(h, a) < Last(h, b) ==> ByExpiry()(h[Last(h, a)], h[Last(h, b)]);
    assert Last(h, b) < Last(h, a) ==> ByExpiry()(h[Last(h, b)], h[Last(h, a)]);
  }

  /** Then the file lists all keys in that order: Python's sort is stable. */
  lemma ListedInOrder(c: Cache, h: seq<Entry>)
    requires Fits(c) && Carries(c, h) && OnTime(h) && TiesInOrder(c, h)
    ensures InOrder(Listed(c), Earlier(h))
  {
    var items, list := Items(c), Listed(c);
    forall i, j | 0 <= i < j < |items| ensures ByExpiry()(items[i], items[j]) <==> NotLater(h)(items[i], items[j]) {
      ItemsTie(c, h, i, j);
    }
    SortedAgrees(items, ByExpiry(), NotLater(h));
    SortedIsInOrder(items, NotLater(h));
    ListedHolds(c);
    forall i, j | 0 <= i < j < |list| ensures Earlier(h)(list[i], list[j]) {
      assert list[i] in list && NotLater(h)(list[i], list[j]) && DifferentKeys()(list[i], list[j]);
      SinceIs(h, list[i].key, list[j].key);
    }
  }

  /** Both the dictionary and the file are in the order of the history. */
  ghost predicate Tidy(w: World) {
    TiesInOrder(w.cache, w.history) && InOrder(w.saved, Earlier(w.history))
  }

  ghost predicate Steady(w: World, s: Settings) {
    TwinFree(w, s) && Tidy(w)
  }

  lemma StartIsSteady(start: int, s: Settings)
    ensures Steady(World(EMPTY, [], [], start), s)
  {
    StartIsFine(start, s);
    assert NoTwins(EMPTY) && TiesInOrder(EMPTY, []);
  }

  lemma FreshIsTidy(list: seq<Entry>, live: map<Key, int>, h: seq<Entry>)
    requires InOrder(list, Earlier(h))
    ensures TiesInOrder(Fresh(list, live), h)
  {
    forall i, j | 0 <= i < j < |list| ensures Last(h, list[i].key) < Last(h, list[j].key) { assert Earlier(h)(list[i], list[j]); }
  }

  lemma SteadyIsFair(w: World, op: Op, s: Settings)
    requires Steady(w, s) && (op.Confirm? ==> Newest(w.cache, op.key, s.Expiry(op.at))) && w.now <= op.at
    ensures Fair(w, op, s)
  {
    if op.Restart? { WhereKeepsOrder(w.saved, Outlives(op.at), Earlier(w.history)); }
    if op.Reload? { PrunedIsListedInOrder(w, op.at, s); }
  }

  lemma PrunedIsListedInOrder(w: World, at: int, s: Settings)
    requires Steady(w, s) && w.now <= at
    ensures TiesInOrder(Pruned(w.cache, at, s), w.history) && InOrder(Listed(Pruned(w.cache, at, s)), Earlier(w.history))
  {
    CheckedIsPruned(w.cache, w.history, w.now, Key(""), at, s);
    PruneKeepsTies(w.cache, w.history, at, s);
    ListedInOrder(Pruned(w.cache, at, s), w.history);
  }

  lemma ConfirmKeepsTidy(w: World, key: Key, at: int, after: World, s: Settings)
    requires Steady(w, s) && Step(w, Confirm(key, at), after, s) && Newest(w.cache, key, s.Expiry(at)) && Inv(after, s)
    ensures Tidy(after)
  {
    var c := Appended(w.cache, key, s.Expiry(at));
    AppendKeepsTies(w.cache, w.history, key, s.Expiry(at));
    PruneKeepsTies(c, after.history, at, s);
    PruneKeepsTies(Pruned(c, at, s), after.history, at, s);
    ListedInOrder(after.cache, after.history);
  }

  /**
   As long as a key is confirmed only when it is new to the cache or at a later reading than all others, no step
   is unfair: in particular every restart reads its file in order, however many keys share a reading.
   */
  lemma StepKeepsSteady(w: World, op: Op, after: World, s: Settings)
    requires Steady(w, s) && Step(w, op, after, s)
    requires op.Confirm? ==> Newest(w.cache, op.key, s.Expiry(op.at))
    ensures Fair(w, op, s) && Steady(after, s)
  {
    SteadyIsFair(w, op, s);
    StepKeepsTwinFree(w, op, after, s);
    match op
    case Confirm(key, at) => ConfirmKeepsTidy(w, key, at, after, s);
    case Check(key, at) =>
      CheckedIsPruned(w.cache, w.history, w.now, key, at, s);
      PruneKeepsTies(w.cache, w.history, at, s);
    case Restart(at) =>
      RestartIs(w, at, after, s);
      FreshIsTidy(Unexpired(w.saved, at), Pruned(w.cache, at, s).live, w.history);
    case Reload(at) => ReloadKeepsTidy(w, at, after, s);
  }

  /** What is queued as it is listed is listed so again. */
  lemma ListedAgain(p: Cache)
    requires Fits(p) && Fits(Fresh(Listed(p), p.live))
    ensures Listed(Fresh(Listed(p), p.live)) == Listed(p)
  {
    ListedHolds(p);
    ItemsOfList(Listed(p), Fresh(Listed(p), p.live));
  }

  lemma ReloadKeepsTidy(w: World, at: int, after: World, s: Settings)
    requires Steady(w, s) && Step(w, Reload(at), after, s)
    ensures Tidy(after)
  {
    var p := Pruned(w.cache, at, s);
    ReloadKeepsInv(w, at, after, s);
    PrunedIsListedInOrder(w, at, s);
    if Unexpired(w.saved, at) != [] {
      FreshIsTidy(Listed(p), p.live, w.history);
      ListedAgain(p);
    }
  }

  // ---------- Where ties do harm ----------

  lemma ThereIsRoom(c: Cache, key: Key, at: int, s: Settings)
    requires AllUnexpired(Appended(c, key, s.Expiry(at)).order, at)
    requires 0 < |Appended(c, key, s.Expiry(at)).live| <= s.maxEntries
    ensures Remembered(c, key, at, s) == Appended(c, key, s.Expiry(at))
  {
    PruneAgain(Appended(c, key, s.Expiry(at)), at, s);
  }

  /** The cache takes one more key and has room for it. */
  ghost predicate Takes(c: Cache, key: Key, at: int, s: Settings, after: Cache) {
    Appended(c, key, s.Expiry(at)) == after && AllUnexpired(after.order, at) && 0 < |after.live| <= s.maxEntries
  }

  /** A key a confirmed at one reading, then b, a again and c at a reading that may be the same. */
  datatype Tie = Tie(a: Key, b: Key, c: Key, first: int, second: int) {
    ghost predicate Fits(s: Settings) {
      a != b && a != c && b != c && s.maxEntries == 2 && first <= second < s.Expiry(first)
    }

    /** The cache after a; after a and b; and after a, b and a again, when the queue starts with the first pair of a. */
    function One(s: Settings): Cache {
      Cache(map[a := s.Expiry(first)], [a], [Entry(a, s.Expiry(first))])
    }

    function Two(s: Settings): Cache {
      Cache(map[a := s.Expiry(first), b := s.Expiry(second)], [a, b], One(s).order + [Entry(b, s.Expiry(second))])
    }

    function Three(s: Settings): Cache {
      Cache(map[a := s.Expiry(second), b := s.Expiry(second)], [a, b], Two(s).order + [Entry(a, s.Expiry(second))])
    }
  }

  lemma TakesFirst(t: Tie, s: Settings)
    requires t.Fits(s)
    ensures Takes(EMPTY, t.a, t.first, s, t.One(s))
  {
    assert t.One(s).live.Keys == {t.a};
    assert EMPTY.order + t.One(s).order == t.One(s).order && EMPTY.slots + [t.a] == t.One(s).slots;
  }

  lemma TakesSecond(t: Tie, s: Settings)
    requires t.Fits(s)
    ensures Takes(t.One(s), t.b, t.second, s, t.Two(s))
  {
    assert t.Two(s).live.Keys == {t.a, t.b};
    assert t.One(s).slots + [t.b] == t.Two(s).slots;
  }

  lemma TakesAgain(t: Tie, s: Settings)
    requires t.Fits(s)
    ensures Takes(t.Two(s), t.a, t.second, s, t.Three(s))
  {
    assert t.Two(s).live[t.a := s.Expiry(t.second)] == t.Three(s).live;
    assert t.Three(s).live.Keys == {t.a, t.b};
  }

  /** After a, b and a again, c confirmed: b was confirmed longer ago than a. */
  lemma NewestIsNotOldest(h: seq<Entry>, t: Tie, s: Settings)
    requires t.Fits(s) && KeysOf(h) == [t.a, t.b, t.a]
    ensures var h' := h + [Entry(t.c, s.Expiry(t.second))]; Last(h', t.b) < Last(h', t.a)
  {
    LastPush(h, Entry(t.c, s.Expiry(t.second)), t.a);
    LastPush(h, Entry(t.c, s.Expiry(t.second)), t.b);
    LastIs(h, 2);
    assert Last(h, t.a) >= 2 && Last(h, t.b) < 2;
  }

  lemma FourPairs(t: Tie, s: Settings) returns (full: Cache)
    requires t.Fits(s) && t.first == t.second
    ensures full == Appended(t.Three(s), t.c, s.Expiry(t.second))
    ensures full.live.Keys == {t.a, t.b, t.c} && |full.order| == 4 && AllUnexpired(full.order, t.second)
    ensures full.order[0] == full.order[2] == Pair(full, t.a) && full.order[1] == Pair(full, t.b) && full.order[3].key == t.c
  {
    full := Appended(t.Three(s), t.c, s.Expiry(t.second));
  }

  /** At one reading, a third key drops a, although it was confirmed after b. */
  lemma ThirdKeyEvicts(w: World, t: Tie, s: Settings)
    requires t.Fits(s) && t.first == t.second && w.cache == t.Three(s) && KeysOf(w.history) == [t.a, t.b, t.a]
    ensures Evicts(w, t.c, t.second, s)
    ensures SkipStale(Expire(Appended(w.cache, t.c, s.Expiry(t.second)), t.second)).order[0].key == t.a
  {
    var full := FourPairs(t, s);
    assert |{t.a, t.b, t.c}| == 3;
    NewestIsNotOldest(w.history, t, s);
  }

  lemma AfterThirdKey(w: World, after: World, t: Tie, s: Settings)
    requires t.Fits(s) && t.first == t.second && w.cache == t.Three(s) && KeysOf(w.history) == [t.a, t.b, t.a]
    requires Inv(w, s) && Step(w, Confirm(t.c, t.second), after, s)
    ensures !Checked(after.cache, t.a, t.second, s).1 && SuppressedByHistory(after.history, t.a, t.second, s)
  {
    ThirdKeyEvicts(w, t, s);
    var lost := EvictingDisagrees(w, t.c, t.second, after, s);
  }

  /** The keys of a run of confirmations. */
  function Confirmations(r: Trace): seq<Key> {
    if r.Goes? && r.op.Confirm? then Confirmations(r.before) + [r.op.key] else []
  }

  lemma Extends(r: Trace, key: Key, at: int, s: Settings) returns (longer: Trace)
    requires Happens(r, s) && Fits(r.Now().cache) && r.Now().now <= at
    ensures longer.Goes? && longer.before == r && longer.op == Confirm(key, at) && Happens(longer, s)
    ensures Confirmations(longer) == Confirmations(r) + [key] && longer.Now().now == at
    ensures Fits(longer.Now().cache) && longer.Now().cache == Remembered(r.Now().cache, key, at, s)
    ensures longer.Now().saved == Listed(longer.Now().cache) && longer.Now().history == r.Now().history + [Entry(key, s.Expiry(at))]
  {
    var c := Remembered(r.Now().cache, key, at, s);
    longer := Goes(r, Confirm(key, at), World(c, Listed(c), r.Now().history + [Entry(key, s.Expiry(at))], at));
  }

  /** A confirmation that finds room. */
  lemma ExtendsFinding(r: Trace, key: Key, at: int, s: Settings, cache: Cache) returns (longer: Trace)
    requires Happens(r, s) && Inv(r.Now(), s) && r.Now().now <= at && Takes(r.Now().cache, key, at, s, cache)
    ensures Happens(longer, s) && Inv(longer.Now(), s) && longer.Now().cache == cache && longer.Now().now == at
    ensures Confirmations(longer) == Confirmations(r) + [key]
    ensures longer.Now().saved == Listed(longer.Now().cache) && longer.Now().history == r.Now().history + [Entry(key, s.Expiry(at))]
  {
    longer := Extends(r, key, at, s);
    ThereIsRoom(r.Now().cache, key, at, s);
    ExpireOnlyDrops(cache, at);
    ConfirmKeepsInv(r.Now(), key, at, longer.Now(), s);
  }

  lemma ConfirmTwo(t: Tie, s: Settings) returns (r: Trace)
    requires t.Fits(s)
    ensures Happens(r, s) && Inv(r.Now(), s) && r.Now().cache == t.Two(s) && r.Now().now == t.second
    ensures Confirmations(r) == [] + [t.a] + [t.b]
    ensures r.Now().history == [] + [Entry(t.a, s.Expiry(t.first))] + [Entry(t.b, s.Expiry(t.second))]
  {
    StartIsFine(t.first, s);
    assert Confirmations(Begins(t.first)) == [];
    TakesFirst(t, s);
    r := ExtendsFinding(Begins(t.first), t.a, t.first, s, t.One(s));
    TakesSecond(t, s);
    r := ExtendsFinding(r, t.b, t.second, s, t.Two(s));
  }

  /** Confirming a, then b and a again. */
  lemma ConfirmThree(t: Tie, s: Settings) returns (r: Trace)
    requires t.Fits(s)
    ensures Happens(r, s) && Inv(r.Now(), s) && r.Now().cache == t.Three(s) && r.Now().now == t.second
    ensures Confirmations(r) == [] + [t.a] + [t.b] + [t.a]
    ensures r.Now().history
            == [] + [Entry(t.a, s.Expiry(t.first))] + [Entry(t.b, s.Expiry(t.second))] + [Entry(t.a, s.Expiry(t.second))]
    ensures r.Now().saved == Listed(r.Now().cache)
  {
    var two := ConfirmTwo(t, s);
    TakesAgain(t, s);
    r := ExtendsFinding(two, t.a, t.second, s, t.Three(s));
  }

  lemma ThreeKeys(h: seq<Entry>, t: Tie, s: Settings)
    requires h == [] + [Entry(t.a, s.Expiry(t.first))] + [Entry(t.b, s.Expiry(t.second))] + [Entry(t.a, s.Expiry(t.second))]
    ensures KeysOf(h) == [t.a, t.b, t.a]
  {
  }

  lemma Spelled(t: Tie)
    ensures [] + [t.a] + [t.b] + [t.a] == [t.a, t.b, t.a]
    ensures [] + [t.a] + [t.b] + [t.a] + [t.c] == [t.a, t.b, t.a, t.c]
  {
  }

  /**
   Why a confirmation must not repeat one of the same reading: with room for two keys, confirming a, b, a and c at any
   one reading leaves a out of the cache, although the history suppresses it.
   */
  lemma EqualTimesDisagree(t: Tie, s: Settings) returns (r: Trace)
    requires t.Fits(s) && t.first == t.second
    ensures Happens(r, s) && Confirmations(r) == [t.a, t.b, t.a, t.c] && r.Now().now == t.first
    ensures !Checked(r.Now().cache, t.a, t.first, s).1 && SuppressedByHistory(r.Now().history, t.a, t.first, s)
  {
    var three := ConfirmThree(t, s);
    ThreeKeys(three.Now().history, t, s);
    r := Extends(three, t.c, t.second, s);
    AfterThirdKey(three.Now(), r.Now(), t, s);
    Spelled(t);
  }

  lemma ThreeListed(t: Tie, s: Settings)
    requires t.Fits(s) && IdempotencyCache.Fits(t.Three(s))
    ensures var list := Listed(t.Three(s));
            Unexpired(list, t.second) == list == [Entry(t.a, s.Expiry(t.second)), Entry(t.b, s.Expiry(t.second))]
  {
    var a, b := Entry(t.a, s.Expiry(t.second)), Entry(t.b, s.Expiry(t.second));
    assert Items(t.Three(s)) == [a, b];
    SortedIsIdentity([a, b], ByExpiry());
    WherePush([], a, Outlives(t.second));
    WherePush([a], b, Outlives(t.second));
    assert [] + [a] == [a] && [a] + [b] == [a, b];
  }

  lemma ThreeReordered(t: Tie, s: Settings, h: seq<Entry>, list: seq<Entry>)
    requires t.Fits(s) && list == [Entry(t.a, s.Expiry(t.second)), Entry(t.b, s.Expiry(t.second))]
    requires KeysOf(h) == [t.a, t.b, t.a]
    ensures !InOrder(list, Earlier(h))
  {
    LastIs(h, 2);
    assert Last(h, t.a) >= 2 && Last(h, t.b) < 2;
    assert !Earlier(h)(list[0], list[1]);
  }

  lemma ThreeOutOfOrder(t: Tie, s: Settings, w: World)
    requires t.Fits(s) && t.first < t.second
    requires IdempotencyCache.Fits(w.cache) && w.cache == t.Three(s) && w.saved == Listed(w.cache)
    requires w.history == [] + [Entry(t.a, s.Expiry(t.first))] + [Entry(t.b, s.Expiry(t.second))] + [Entry(t.a, s.Expiry(t.second))]
    ensures !FileInOrder(w, t.second) && forall i, j :: 0 <= i < j < |w.history| ==> w.history[i] != w.history[j]
  {
    ThreeListed(t, s);
    ThreeKeys(w.history, t, s);
    ThreeReordered(t, s, w.history, Listed(t.Three(s)));
  }

  /** The restart queues a before b, with nothing stale. */
  lemma RestartQueues(t: Tie, s: Settings, w: World) returns (after: World)
    requires t.Fits(s) && Inv(w, s) && w.now == t.second
    requires IdempotencyCache.Fits(w.cache) && w.cache == t.Three(s) && w.saved == Listed(w.cache)
    ensures Step(w, Restart(t.second), after, s) && Inv(after, s) && after.history == w.history
    ensures after.cache == Fresh([Entry(t.a, s.Expiry(t.second)), Entry(t.b, s.Expiry(t.second))], t.Three(s).live)
  {
    after := World(Restored(EMPTY, w.saved, t.second, s), Listed(Restored(EMPTY, w.saved, t.second, s)), w.history, t.second);
    RestartIs(w, t.second, after, s);
    RestartKeepsTurnIff(w, t.second, after, s);
    ThreeListed(t, s);
    PruneAgain(w.cache, t.second, s);
  }

  /** Then a third key drops a, although it was confirmed after b. */
  lemma RestartedEvicts(w: World, t: Tie, s: Settings)
    requires t.Fits(s) && KeysOf(w.history) == [t.a, t.b, t.a]
    requires w.cache == Fresh([Entry(t.a, s.Expiry(t.second)), Entry(t.b, s.Expiry(t.second))], t.Three(s).live)
    ensures Evicts(w, t.c, t.second, s)
    ensures SkipStale(Expire(Appended(w.cache, t.c, s.Expiry(t.second)), t.second)).order[0].key == t.a
  {
    var full := Appended(w.cache, t.c, s.Expiry(t.second));
    assert full.live.Keys == {t.a, t.b, t.c} && |{t.a, t.b, t.c}| == 3;
    assert full.order[0] == Pair(full, t.a);
    NewestIsNotOldest(w.history, t, s);
  }

  lemma AfterRestart(w: World, after: World, t: Tie, s: Settings)
    requires t.Fits(s) && KeysOf(w.history) == [t.a, t.b, t.a]
    requires w.cache == Fresh([Entry(t.a, s.Expiry(t.second)), Entry(t.b, s.Expiry(t.second))], t.Three(s).live)
    requires Inv(w, s) && Step(w, Confirm(t.c, t.second), after, s)
    ensures !Checked(after.cache, t.a, t.second, s).1 && SuppressedByHistory(after.history, t.a, t.second, s)
  {
    RestartedEvicts(w, t, s);
    var lost := EvictingDisagrees(w, t.c, t.second, after, s);
  }

  /**
   Why a restart must read its file in order: a confirmed at one reading, then b and a again at a later one, no key
   twice at one, leave a file that lists a before b, because the dictionary keeps a in its old place. Restarted from
   it, the cache drops a for a third key, although the history suppresses it.
   */
  lemma RestartReordersTies(t: Tie, s: Settings) returns (r: Trace)
    requires t.Fits(s) && t.first < t.second
    ensures Happens(r, s) && r.Goes? && r.op == Confirm(t.c, t.second) && r.before.Goes? && r.before.op == Restart(t.second)
    ensures var three := r.before.before;
            && Confirmations(three) == [t.a, t.b, t.a] && !FileInOrder(three.Now(), t.second)
            && forall i, j :: 0 <= i < j < |three.Now().history| ==> three.Now().history[i] != three.Now().history[j]
    ensures !Checked(r.Now().cache, t.a, t.second, s).1 && SuppressedByHistory(r.Now().history, t.a, t.second, s)
  {
    var three := ConfirmThree(t, s);
    Spelled(t);
    ThreeKeys(three.Now().history, t, s);
    ThreeOutOfOrder(t, s, three.Now());
    var after := RestartQueues(t, s, three.Now());
    r := Extends(Goes(three, Restart(t.second), after), t.c, t.second, s);
    AfterRestart(after, r.Now(), t, s);
  }
}
