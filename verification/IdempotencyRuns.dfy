/**
 Runs of the idempotency cache: confirmations, checks and restarts on a clock that never goes back. The cache gives
 the answers of the history in every such run until a prune drops a key out of turn, and not beyond.
 */
module IdempotencyRuns {
  import opened Sets
  import opened Sequences
  import opened StableSort
  import opened IdempotencyCache
  import opened IdempotencyHistory

  /** A confirmation remembers and saves in one go; a restart loses the memory and restores what was saved; a reload restores it into the memory. */
  datatype Op = Confirm(key: Key, at: int) | Check(key: Key, at: int) | Restart(at: int) | Reload(at: int)

  datatype World = World(cache: Cache, saved: seq<Entry>, history: seq<Entry>, now: int)

  ghost predicate Step(w: World, op: Op, after: World, s: Settings) {
    && w.now <= op.at == after.now
    && match op
       case Confirm(key, at) =>
         && Fits(after.cache) && after.cache == Remembered(w.cache, key, at, s) && after.saved == Listed(after.cache)
         && after.history == w.history + [Entry(key, s.Expiry(at))]
       case Check(key, at) =>
         after.cache == Checked(w.cache, key, at, s).0 && after.saved == w.saved && after.history == w.history
       case Restart(at) =>
         && Fits(after.cache) && after.cache == Restored(EMPTY, w.saved, at, s) && after.saved == Listed(after.cache)
         && after.history == w.history
       case Reload(at) =>
         && Fits(w.cache) && after.cache == Restored(w.cache, w.saved, at, s) && after.saved == Listed(after.cache)
         && after.history == w.history
  }

  /** The history is in order, and the file lists the live keys, by expiry, among keys expired since it was written. */
  ghost predicate Kept(w: World, s: Settings) {
    && OnTime(w.history) && (forall e :: e in w.history ==> e.expiry <= s.Expiry(w.now))
    && InOrder(w.saved, ByExpiry()) && InOrder(w.saved, DifferentKeys())
    && Holds(Unexpired(w.saved, w.now), w.cache.live)
  }

  ghost predicate Inv(w: World, s: Settings) {
    Fits(w.cache) && Settled(w.cache, w.history, w.now, s) && Kept(w, s)
  }

  /** From now on every check gives the answer of the history. */
  ghost predicate Agreeing(w: World, s: Settings) {
    forall key, t :: t >= w.now ==> (Checked(w.cache, key, t, s).1 <==> SuppressedByHistory(w.history, key, t, s))
  }

  // ---------- Checks ----------

  lemma LaterKeepsAgreement(c: Cache, h: seq<Entry>, since: int, now: int, s: Settings)
    requires Agrees(c, h, since, s) && since <= now
    ensures Agrees(c, h, now, s)
  {
  }

  lemma {:induction false} ExpireOnlyDrops(c: Cache, now: int)
    ensures |Expire(c, now).live| <= |c.live|
    decreases |c.order|
  {
    if c.order != [] && c.order[0].expiry <= now {
      if Current(c) { DropSize(c.live, c.order[0].key); }
      ExpireOnlyDrops(PopFront(c), now);
    }
  }

  lemma CheckedIsPruned(c: Cache, h: seq<Entry>, since: int, key: Key, now: int, s: Settings)
    requires OnTime(h) && Settled(c, h, since, s) && since <= now
    ensures Settled(Pruned(c, now, s), h, now, s)
    ensures Checked(c, key, now, s) == (Pruned(c, now, s), SuppressedByHistory(h, key, now, s))
  {
    LaterKeepsAgreement(c, h, since, now, s);
    ExpireOnlyDrops(c, now);
    PruneSettles(c, h, now, s);
    SettledIsExact(Pruned(c, now, s), h, now, s, key);
  }

  lemma InvAgrees(w: World, s: Settings)
    requires Inv(w, s)
    ensures Agreeing(w, s)
  {
    forall key, t | t >= w.now ensures Checked(w.cache, key, t, s).1 <==> SuppressedByHistory(w.history, key, t, s) {
      CheckedIsPruned(w.cache, w.history, w.now, key, t, s);
    }
  }

  /** From one prune to the next only expired keys go. */
  lemma PruneLaterIsExpiry(c: Cache, h: seq<Entry>, since: int, now: int, s: Settings, k: Key)
    requires OnTime(h) && Settled(c, h, since, s) && since <= now
    ensures var p := Pruned(c, now, s);
            (k in p.live <==> k in c.live && c.live[k] > now) && (k in p.live ==> p.live[k] == c.live[k])
  {
    CheckedIsPruned(c, h, since, k, now, s);
    SettledIsExact(Pruned(c, now, s), h, now, s, k);
    SettledIsExact(c, h, since, s, k);
  }

  // ---------- The file ----------

  lemma UnexpiredHolds(list: seq<Entry>, live: map<Key, int>, now: int)
    requires InOrder(list, DifferentKeys())
    requires forall k :: k in live ==> Entry(k, live[k]) in list && live[k] > now
    requires forall e :: e in list && e.expiry > now ==> e.key in live && live[e.key] == e.expiry
    ensures Holds(Unexpired(list, now), live)
  {
    WhereKeepsOrder(list, Outlives(now), DifferentKeys());
  }

  lemma FileLater(w: World, now: int, s: Settings)
    requires Inv(w, s) && w.now <= now
    ensures Holds(Unexpired(w.saved, now), Pruned(w.cache, now, s).live)
  {
    var live := Pruned(w.cache, now, s).live;
    forall k | k in live ensures Entry(k, live[k]) in w.saved && live[k] > now {
      PruneLaterIsExpiry(w.cache, w.history, w.now, now, s, k);
      assert Entry(k, live[k]) in Unexpired(w.saved, w.now);
    }
    forall e | e in w.saved && e.expiry > now ensures e.key in live && live[e.key] == e.expiry {
      assert e in Unexpired(w.saved, w.now);
      PruneLaterIsExpiry(w.cache, w.history, w.now, now, s, e.key);
    }
    UnexpiredHolds(w.saved, live, now);
  }

  lemma ListedIsKept(c: Cache, h: seq<Entry>, now: int, s: Settings)
    requires Fits(c) && Queued(c, h) && AllUnexpired(c.order, now)
    ensures InOrder(Listed(c), ByExpiry()) && InOrder(Listed(c), DifferentKeys()) && Holds(Unexpired(Listed(c), now), c.live)
  {
    ListedHolds(c);
    forall k | k in c.live ensures c.live[k] > now { LiveIsUnexpired(c, h, now, k); }
    UnexpiredHolds(Listed(c), c.live, now);
  }

  lemma CheckKeepsInv(w: World, key: Key, at: int, after: World, s: Settings)
    requires Inv(w, s) && Step(w, Check(key, at), after, s)
    ensures Inv(after, s)
  {
    CheckedIsPruned(w.cache, w.history, w.now, key, at, s);
    FileLater(w, at, s);
  }

  // ---------- Confirmations ----------

  lemma AppendMovesNone(c: Cache, h: seq<Entry>, key: Key, expiry: int, k: Key)
    requires k in c.live || k == key
    requires k in c.live ==> Pair(c, k) in c.order
    ensures var c', h' := Appended(c, key, expiry), h + [Entry(key, expiry)];
            && Pair(c', k) in c'.order && At(c', k) == (if k == key then |c.order| else At(c, k))
            && Last(h', k) == if k == key then |h| else Last(h, k)
  {
    var e := Entry(key, expiry);
    var c' := Appended(c, key, expiry);
    LastPush(h, e, k);
    LastOfPush(c.order, e, Pair(c', k));
    assert c'.order[|c.order|] == e;
  }

  lemma AppendKeepsBound(h: seq<Entry>, x: Entry, e: Entry)
    requires x == e || (Last(h, x.key) >= 0 && x.expiry <= h[Last(h, x.key)].expiry <= e.expiry)
    ensures Last(h + [e], x.key) >= 0 && x.expiry <= (h + [e])[Last(h + [e], x.key)].expiry
  {
    LastPush(h, e, x.key);
  }

  lemma OrderIsBounded(c: Cache, h: seq<Entry>, expiry: int, i: nat)
    requires Queued(c, h) && (forall e :: e in h ==> e.expiry <= expiry) && i < |c.order|
    ensures var x := c.order[i]; Last(h, x.key) >= 0 && x.expiry <= h[Last(h, x.key)].expiry <= expiry
  {
    assert c.order[i] in c.order && h[Last(h, c.order[i].key)] in h;
  }

  lemma AppendKeepsPairs(c: Cache, h: seq<Entry>, key: Key, expiry: int)
    requires Queued(c, h) && forall e :: e in h ==> e.expiry <= expiry
    ensures var c', h' := Appended(c, key, expiry), h + [Entry(key, expiry)];
            && InOrder(c'.order, ByExpiry())
            && forall x :: x in c'.order ==> Last(h', x.key) >= 0 && x.expiry <= h'[Last(h', x.key)].expiry
  {
    var e := Entry(key, expiry);
    var c', h' := Appended(c, key, expiry), h + [e];
    forall i | 0 <= i < |c.order| ensures ByExpiry()(c.order[i], e) { OrderIsBounded(c, h, expiry, i); }
    forall x | x in c'.order ensures Last(h', x.key) >= 0 && x.expiry <= h'[Last(h', x.key)].expiry {
      if x != e {
        var i :| 0 <= i < |c.order| && c.order[i] == x;
        OrderIsBounded(c, h, expiry, i);
      }
      AppendKeepsBound(h, x, e);
    }
  }

  lemma AppendKeepsPlaces(c: Cache, h: seq<Entry>, key: Key, expiry: int, k: Key, j: Key)
    requires Queued(c, h) && InTurn(c, h) && Carries(c, h)
    requires var c', h' := Appended(c, key, expiry), h + [Entry(key, expiry)];
             k in c'.live && j in c'.live && Last(h', k) < Last(h', j)
    ensures At(Appended(c, key, expiry), k) < At(Appended(c, key, expiry), j)
  {
    AppendMovesNone(c, h, key, expiry, k);
    AppendMovesNone(c, h, key, expiry, j);
  }

  lemma AppendKeepsTurn(c: Cache, h: seq<Entry>, key: Key, expiry: int)
    requires Queued(c, h) && InTurn(c, h) && Carries(c, h)
    ensures InTurn(Appended(c, key, expiry), h + [Entry(key, expiry)])
  {
    var c', h' := Appended(c, key, expiry), h + [Entry(key, expiry)];
    forall k, j | k in c'.live && j in c'.live && Last(h', k) < Last(h', j) ensures At(c', k) < At(c', j) {
      AppendKeepsPlaces(c, h, key, expiry, k, j);
    }
  }

  lemma AppendKeepsQueue(c: Cache, h: seq<Entry>, key: Key, expiry: int)
    requires Queued(c, h) && Carries(c, h) && forall e :: e in h ==> e.expiry <= expiry
    ensures Queued(Appended(c, key, expiry), h + [Entry(key, expiry)])
  {
    var c', h' := Appended(c, key, expiry), h + [Entry(key, expiry)];
    AppendKeepsPairs(c, h, key, expiry);
    forall k | k in c'.live ensures Pair(c', k) in c'.order { AppendMovesNone(c, h, key, expiry, k); }
  }

  lemma AppendKeepsDead(h: seq<Entry>, e: Entry, k: Key, now: int, s: Settings)
    requires k != e.key && Last(h, k) >= 0 && Dead(h, k, now, s)
    ensures Last(h + [e], k) == Last(h, k) && Dead(h + [e], k, now, s)
  {
    LastPush(h, e, k);
    var since, after := Since(h, Last(h, k)), Since(h + [e], Last(h, k));
    forall j | j in since ensures j in after {
      var i :| Last(h, k) <= i < |h| && h[i].key == j;
      assert (h + [e])[i] == h[i];
    }
    SubsetSize(since, after);
  }

  lemma AppendKeepsAgreement(c: Cache, h: seq<Entry>, key: Key, expiry: int, now: int, s: Settings)
    requires Agrees(c, h, now, s)
    ensures Agrees(Appended(c, key, expiry), h + [Entry(key, expiry)], now, s)
  {
    var e := Entry(key, expiry);
    var c', h' := Appended(c, key, expiry), h + [e];
    forall k ensures Last(h', k) == if k == key then |h| else Last(h, k) { LastPush(h, e, k); }
    forall k | k !in c'.live && Last(h', k) >= 0 ensures Dead(h', k, now, s) { AppendKeepsDead(h, e, k, now, s); }
  }

  /** Confirming the key finds the cache full, and drops a key out of turn. */
  ghost predicate Evicts(w: World, key: Key, at: int, s: Settings) {
    OutOfTurn(Appended(w.cache, key, s.Expiry(at)), w.history + [Entry(key, s.Expiry(at))], at, s)
  }

  lemma HistoryStaysOnTime(h: seq<Entry>, e: Entry)
    requires OnTime(h) && forall x :: x in h ==> x.expiry <= e.expiry
    ensures OnTime(h + [e]) && forall x :: x in h + [e] ==> x.expiry <= e.expiry
  {
    assert forall i :: 0 <= i < |h| ==> h[i] in h;
  }

  lemma OneTooMany(c: Cache, key: Key, expiry: int, now: int)
    ensures |Expire(Appended(c, key, expiry), now).live| <= |c.live| + 1
  {
    ExpireOnlyDrops(Appended(c, key, expiry), now);
    assert Appended(c, key, expiry).live.Keys == c.live.Keys + {key};
  }

  /** The cache with the confirmed key, before it is pruned. */
  lemma AppendedAgrees(w: World, key: Key, at: int, s: Settings)
    requires Inv(w, s) && w.now <= at
    ensures var c, h := Appended(w.cache, key, s.Expiry(at)), w.history + [Entry(key, s.Expiry(at))];
            && OnTime(h) && Queued(c, h) && Agrees(c, h, at, s)
            && (s.maxEntries > 0 ==> |Expire(c, at).live| <= s.maxEntries + 1)
            && forall e :: e in h ==> e.expiry <= s.Expiry(at)
  {
    LaterKeepsAgreement(w.cache, w.history, w.now, at, s);
    AppendKeepsQueue(w.cache, w.history, key, s.Expiry(at));
    AppendKeepsAgreement(w.cache, w.history, key, s.Expiry(at), at, s);
    HistoryStaysOnTime(w.history, Entry(key, s.Expiry(at)));
    OneTooMany(w.cache, key, s.Expiry(at), at);
  }

  lemma ConfirmSettles(c: Cache, h: seq<Entry>, at: int, s: Settings)
    requires OnTime(h) && Queued(c, h) && Agrees(c, h, at, s) && !OutOfTurn(c, h, at, s)
    requires s.maxEntries > 0 ==> |Expire(c, at).live| <= s.maxEntries + 1
    ensures Settled(Pruned(Pruned(c, at, s), at, s), h, at, s)
  {
    PruneSettles(c, h, at, s);
    if s.maxEntries > 0 { PruneAgain(Pruned(c, at, s), at, s); }
  }

  lemma ConfirmKeepsInv(w: World, key: Key, at: int, after: World, s: Settings)
    requires Inv(w, s) && Step(w, Confirm(key, at), after, s) && !Evicts(w, key, at, s)
    ensures Inv(after, s)
  {
    assert Settled(after.cache, after.history, at, s) && OnTime(after.history)
           && forall e :: e in after.history ==> e.expiry <= s.Expiry(at) by {
      AppendedAgrees(w, key, at, s);
      ConfirmSettles(Appended(w.cache, key, s.Expiry(at)), after.history, at, s);
    }
    ListedIsKept(after.cache, after.history, at, s);
  }

  /** The key that was dropped out of turn is suppressed by the history and not by the cache. */
  lemma EvictingDisagrees(w: World, key: Key, at: int, after: World, s: Settings) returns (lost: Key)
    requires Inv(w, s) && Step(w, Confirm(key, at), after, s) && Evicts(w, key, at, s)
    ensures lost == SkipStale(Expire(Appended(w.cache, key, s.Expiry(at)), at)).order[0].key
    ensures !Checked(after.cache, lost, at, s).1 && SuppressedByHistory(after.history, lost, at, s)
  {
    var c := Appended(w.cache, key, s.Expiry(at));
    AppendedAgrees(w, key, at, s);
    lost := OutOfTurnDisagrees(c, after.history, at, s);
    PruneAgain(Pruned(c, at, s), at, s);
  }

  /** The exact condition for one confirmation: the cache goes on agreeing unless it drops a key out of turn. */
  lemma ConfirmAgreesIff(w: World, key: Key, at: int, after: World, s: Settings)
    requires Inv(w, s) && Step(w, Confirm(key, at), after, s)
    ensures Agreeing(after, s) <==> !Evicts(w, key, at, s)
  {
    if Evicts(w, key, at, s) {
      var lost := EvictingDisagrees(w, key, at, after, s);
    } else {
      ConfirmKeepsInv(w, key, at, after, s);
      InvAgrees(after, s);
    }
  }

  // ---------- Restarts ----------

  /** A list with one pair per key, as a cache without stale pairs. */
  function Fresh(list: seq<Entry>, live: map<Key, int>): Cache {
    Cache(live, KeysOf(list), list)
  }

  lemma NewToAll(list: seq<Entry>, live: map<Key, int>, e: Entry)
    requires Holds(list, live) && InOrder(list + [e], DifferentKeys())
    ensures e.key !in live
  {
    assert forall k :: k in live ==> Entry(k, live[k]) in list;
    forall i | 0 <= i < |list| ensures list[i].key != e.key {
      assert DifferentKeys()((list + [e])[i], (list + [e])[|list|]);
    }
  }

  lemma StoredHolds(list: seq<Entry>, m: Cache, e: Entry)
    requires Holds(list, m.live) && m.slots == KeysOf(list) && InOrder(list + [e], DifferentKeys())
    ensures var r := Stored(m, e.key, Latest(m, e)); Holds(list + [e], r.live) && r.slots == KeysOf(list + [e])
  {
    NewToAll(list, m.live, e);
  }

  lemma {:induction false} MergedFromEmpty(list: seq<Entry>)
    requires InOrder(list, DifferentKeys())
    ensures var m := Merged(EMPTY, list); m.slots == KeysOf(list) && Holds(list, m.live)
    decreases |list|
  {
    if list != [] {
      var front, last := list[..|list| - 1], list[|list| - 1];
      assert list == front + [last];
      assert InOrder(front, DifferentKeys());
      MergedFromEmpty(front);
      StoredHolds(front, Merged(EMPTY, front), last);
    }
  }

  lemma ItemsAt(list: seq<Entry>, c: Cache, i: nat)
    requires Fits(c) && Holds(list, c.live) && c.slots == KeysOf(list) && i < |list|
    ensures Items(c)[i] == list[i]
  {
    assert list[i] in list;
  }

  lemma ItemsOfList(list: seq<Entry>, c: Cache)
    requires Fits(c) && Holds(list, c.live) && c.slots == KeysOf(list) && InOrder(list, ByExpiry())
    ensures Items(c) == list && Listed(c) == list
  {
    forall i | 0 <= i < |list| ensures Items(c)[i] == list[i] { ItemsAt(list, c, i); }
    assert Items(c) == list;
    SortedIsIdentity(list, ByExpiry());
  }

  lemma HoldsIsUnique(list: seq<Entry>, a: map<Key, int>, b: map<Key, int>)
    requires Holds(list, a) && Holds(list, b)
    ensures a == b
  {
    forall k ensures k in a <==> k in b {
      if k in a { assert Entry(k, a[k]) in list; }
      if k in b { assert Entry(k, b[k]) in list; }
    }
    forall k | k in a ensures a[k] == b[k] { assert Entry(k, a[k]) in list; }
  }

  lemma MergedIsFresh(list: seq<Entry>, live: map<Key, int>)
    requires Holds(list, live) && InOrder(list, ByExpiry())
    ensures Rebuilt(Merged(EMPTY, list)) == Fresh(list, live)
  {
    var m := Merged(EMPTY, list);
    MergedFromEmpty(list);
    HoldsIsUnique(list, m.live, live);
    ItemsOfList(list, m);
  }

  lemma FreshSurvives(list: seq<Entry>, live: map<Key, int>, at: int, s: Settings)
    requires AllUnexpired(list, at) && |live| <= s.maxEntries
    ensures Pruned(Fresh(list, live), at, s) == if s.maxEntries <= 0 then EMPTY else Fresh(list, live)
  {
    PruneAgain(Fresh(list, live), at, s);
  }

  /** What a restart restores: the saved pairs that have not expired, as they are listed. */
  lemma RestoredIs(saved: seq<Entry>, live: map<Key, int>, at: int, s: Settings)
    requires InOrder(saved, ByExpiry()) && Holds(Unexpired(saved, at), live)
    requires |live| <= if s.maxEntries <= 0 then 0 else s.maxEntries
    ensures Restored(EMPTY, saved, at, s) == Fresh(Unexpired(saved, at), live)
    ensures InOrder(Unexpired(saved, at), ByExpiry()) && AllUnexpired(Unexpired(saved, at), at)
  {
    var list := Unexpired(saved, at);
    WhereKeepsOrder(saved, Outlives(at), ByExpiry());
    assert forall i :: 0 <= i < |list| ==> list[i] in list;
    if list == [] {
      HoldsIsUnique([], live, map[]);
    } else {
      assert list[0].key in live.Keys;
      MergedIsFresh(list, live);
      FreshSurvives(list, live, at, s);
    }
  }

  /** Earlier in the history. */
  function Earlier(h: seq<Entry>): Order<Entry> {
    (a: Entry, b: Entry) => Last(h, a.key) < Last(h, b.key)
  }

  /** The unexpired pairs of the file stand in the order in which their keys were last confirmed. */
  ghost predicate FileInOrder(w: World, at: int) {
    InOrder(Unexpired(w.saved, at), Earlier(w.history))
  }

  lemma AtIsPlace(list: seq<Entry>, live: map<Key, int>, i: nat)
    requires Holds(list, live) && i < |list|
    ensures list[i].key in live && At(Fresh(list, live), list[i].key) == i
  {
    assert list[i] in list;
    LastIsLast(list, i);
    assert forall j :: i < j < |list| ==> DifferentKeys()(list[i], list[j]);
  }

  lemma FreshPlaces(list: seq<Entry>, live: map<Key, int>, h: seq<Entry>, k: Key, j: Key)
    requires Holds(list, live) && InOrder(list, Earlier(h)) && k in live && j in live && Last(h, k) < Last(h, j)
    ensures At(Fresh(list, live), k) < At(Fresh(list, live), j)
  {
    assert Entry(k, live[k]) in list && Entry(j, live[j]) in list;
    var a :| 0 <= a < |list| && list[a] == Entry(k, live[k]);
    var b :| 0 <= b < |list| && list[b] == Entry(j, live[j]);
    AtIsPlace(list, live, a);
    AtIsPlace(list, live, b);
    assert b < a ==> Last(h, j) < Last(h, k);
  }

  lemma FreshPairs(list: seq<Entry>, live: map<Key, int>, h: seq<Entry>, e: Entry)
    requires Holds(list, live) && Carries(Fresh(list, live), h)
    ensures e.key in live ==> Pair(Fresh(list, live), e.key) in list
    ensures e in list ==> Last(h, e.key) >= 0 && e.expiry <= h[Last(h, e.key)].expiry
  {
  }

  lemma FreshIsQueued(list: seq<Entry>, live: map<Key, int>, h: seq<Entry>)
    requires Holds(list, live) && InOrder(list, ByExpiry()) && Carries(Fresh(list, live), h)
    ensures Queued(Fresh(list, live), h)
  {
    var c := Fresh(list, live);
    forall k | k in live ensures Pair(c, k) in list { FreshPairs(list, live, h, Pair(c, k)); }
    forall e | e in list ensures Last(h, e.key) >= 0 && e.expiry <= h[Last(h, e.key)].expiry { FreshPairs(list, live, h, e); }
  }

  lemma FreshIsInTurnIff(list: seq<Entry>, live: map<Key, int>, h: seq<Entry>)
    requires Holds(list, live) && Carries(Fresh(list, live), h)
    ensures InTurn(Fresh(list, live), h) <==> InOrder(list, Earlier(h))
  {
    var c := Fresh(list, live);
    if InOrder(list, Earlier(h)) {
      forall k, j | k in live && j in live && Last(h, k) < Last(h, j) ensures At(c, k) < At(c, j) {
        FreshPlaces(list, live, h, k, j);
      }
    }
    if InTurn(c, h) {
      forall i, j | 0 <= i < j < |list| ensures Last(h, list[i].key) < Last(h, list[j].key) {
        AtIsPlace(list, live, i);
        AtIsPlace(list, live, j);
        assert DifferentKeys()(list[i], list[j]);
        SinceIs(h, list[i].key, list[j].key);
      }
    }
  }

  lemma RestartIs(w: World, at: int, after: World, s: Settings)
    requires Inv(w, s) && Step(w, Restart(at), after, s)
    ensures var list, live := Unexpired(w.saved, at), Pruned(w.cache, at, s).live;
            && after.cache == Fresh(list, live) && after.saved == list
            && Holds(list, live) && InOrder(list, ByExpiry()) && AllUnexpired(list, at)
            && |live| <= if s.maxEntries <= 0 then 0 else s.maxEntries
  {
    var list, live := Unexpired(w.saved, at), Pruned(w.cache, at, s).live;
    CheckedIsPruned(w.cache, w.history, w.now, Key(""), at, s);
    FileLater(w, at, s);
    RestoredIs(w.saved, live, at, s);
    ItemsOfList(list, after.cache);
  }

  lemma RestartKeepsAgreement(w: World, at: int, after: World, s: Settings)
    requires Inv(w, s) && Step(w, Restart(at), after, s)
    ensures Agrees(after.cache, after.history, at, s) && Kept(after, s)
  {
    RestartIs(w, at, after, s);
    CheckedIsPruned(w.cache, w.history, w.now, Key(""), at, s);
    WhereKeepsOrder(w.saved, Outlives(at), DifferentKeys());
    var list, live := Unexpired(w.saved, at), Pruned(w.cache, at, s).live;
    forall k | k in live ensures live[k] > at {
      SettledIsExact(Pruned(w.cache, at, s), w.history, at, s, k);
      assert Entry(k, live[k]) in list;
    }
    UnexpiredHolds(list, live, at);
  }

  /** A restart loses no answer, at that moment or later, and its queue is in turn exactly when the file was in order. */
  lemma RestartKeepsTurnIff(w: World, at: int, after: World, s: Settings)
    requires Inv(w, s) && Step(w, Restart(at), after, s)
    ensures Inv(after, s) && Agreeing(after, s)
    ensures InTurn(after.cache, after.history) <==> FileInOrder(w, at)
  {
    var list, live := Unexpired(w.saved, at), Pruned(w.cache, at, s).live;
    RestartIs(w, at, after, s);
    RestartKeepsAgreement(w, at, after, s);
    FreshIsQueued(list, live, w.history);
    FreshIsInTurnIff(list, live, w.history);
    InvAgrees(after, s);
  }

  // ---------- Reloads ----------

  lemma MergedIsOld(c: Cache, list: seq<Entry>)
    requires forall e :: e in list ==> e.key in c.live && c.live[e.key] == e.expiry
    ensures Merged(c, list) == c
    decreases |list|
  {
    if list != [] {
      var front, last := list[..|list| - 1], list[|list| - 1];
      assert list == front + [last];
      MergedIsOld(c, front);
      assert last in list && c.live[last.key := last.expiry] == c.live;
    }
  }

  /** What a reload leaves: the live keys of a prune, queued as they are listed. */
  lemma ReloadedIs(c: Cache, saved: seq<Entry>, at: int, s: Settings)
    requires Fits(c) && Holds(Unexpired(saved, at), Pruned(c, at, s).live) && Unexpired(saved, at) != []
    requires |Pruned(c, at, s).live| <= if s.maxEntries <= 0 then 0 else s.maxEntries
    ensures var p := Pruned(c, at, s);
            && Restored(c, saved, at, s) == Fresh(Listed(p), p.live)
            && Holds(Listed(p), p.live) && InOrder(Listed(p), ByExpiry()) && AllUnexpired(Listed(p), at)
  {
    var p, list := Pruned(c, at, s), Unexpired(saved, at);
    MergedIsOld(p, list);
    ListedHolds(p);
    assert list[0] in list && list[0].key in p.live;
    forall i | 0 <= i < |Listed(p)| ensures Listed(p)[i].expiry > at {
      assert Listed(p)[i] in Listed(p);
      assert Listed(p)[i] in list;
    }
    assert p.live.Keys != {};
    FreshSurvives(Listed(p), p.live, at, s);
  }

  lemma NothingToReload(c: Cache, saved: seq<Entry>, at: int, s: Settings)
    requires Fits(c) && Unexpired(saved, at) == []
    ensures Restored(c, saved, at, s) == Pruned(c, at, s)
  {
  }

  /** The cache a reload leaves, on the way back to the pruned live keys. */
  lemma ReloadAgrees(w: World, at: int, s: Settings)
    requires Inv(w, s) && w.now <= at
    ensures var p, c := Pruned(w.cache, at, s), Restored(w.cache, w.saved, at, s);
            && Settled(p, w.history, at, s) && Fits(c) && c.live == p.live && Settled(c, w.history, at, s)
            && (Unexpired(w.saved, at) == [] ==> c == p)
            && (Unexpired(w.saved, at) != [] ==> c == Fresh(Listed(p), p.live))
  {
    var p := Pruned(w.cache, at, s);
    CheckedIsPruned(w.cache, w.history, w.now, Key(""), at, s);
    FileLater(w, at, s);
    if Unexpired(w.saved, at) == [] {
      NothingToReload(w.cache, w.saved, at, s);
    } else {
      ReloadedIs(w.cache, w.saved, at, s);
      FreshIsQueued(Listed(p), p.live, w.history);
    }
  }

  /** A reload loses no answer; its queue is in turn exactly when the keys are listed in the order of the history. */
  lemma ReloadKeepsInv(w: World, at: int, after: World, s: Settings)
    requires Inv(w, s) && Step(w, Reload(at), after, s)
    ensures Inv(after, s) && Agreeing(after, s)
    ensures Unexpired(w.saved, at) == [] ==> after.cache == Pruned(w.cache, at, s)
    ensures Unexpired(w.saved, at) != [] ==>
              && after.cache == Fresh(Listed(Pruned(w.cache, at, s)), Pruned(w.cache, at, s).live)
              && (InTurn(after.cache, after.history) <==> InOrder(Listed(Pruned(w.cache, at, s)), Earlier(w.history)))
  {
    var p := Pruned(w.cache, at, s);
    ReloadAgrees(w, at, s);
    ListedHolds(p);
    FreshIsInTurnIff(Listed(p), p.live, w.history);
    ReloadIsKept(w, at, after, s);
    InvAgrees(after, s);
  }

  lemma ReloadIsKept(w: World, at: int, after: World, s: Settings)
    requires Inv(w, s) && Step(w, Reload(at), after, s) && Settled(after.cache, w.history, at, s) && Fits(after.cache)
    ensures Inv(after, s)
  {
    ListedIsKept(after.cache, after.history, at, s);
  }

  // ---------- Whole runs ----------

  /** A run from an empty cache and file, one step after the other. */
  datatype Trace = Begins(at: int) | Goes(before: Trace, op: Op, after: World) {
    function Now(): World {
      if Begins? then World(EMPTY, [], [], at) else after
    }
  }

  ghost predicate Happens(r: Trace, s: Settings) {
    r.Goes? ==> Happens(r.before, s) && Step(r.before.Now(), r.op, r.after, s)
  }

  /** At every moment of the run the cache gives the answers of the history. */
  ghost predicate AgreesThroughout(r: Trace, s: Settings) {
    Agreeing(r.Now(), s) && (r.Goes? ==> AgreesThroughout(r.before, s))
  }

  /** No confirmation of the run drops a key out of turn. */
  ghost predicate KeepsTurn(r: Trace, s: Settings) {
    r.Goes? ==> KeepsTurn(r.before, s) && (r.op.Confirm? ==> !Evicts(r.before.Now(), r.op.key, r.op.at, s))
  }

  lemma StartIsFine(start: int, s: Settings)
    ensures Inv(World(EMPTY, [], [], start), s)
  {
  }

  lemma StepKeepsInv(w: World, op: Op, after: World, s: Settings)
    requires Inv(w, s) && Step(w, op, after, s)
    requires op.Confirm? ==> !Evicts(w, op.key, op.at, s)
    ensures Inv(after, s)
  {
    match op
    case Confirm(key, at) => ConfirmKeepsInv(w, key, at, after, s);
    case Check(key, at) => CheckKeepsInv(w, key, at, after, s);
    case Restart(at) => RestartKeepsTurnIff(w, at, after, s);
    case Reload(at) => ReloadKeepsInv(w, at, after, s);
  }

  lemma {:induction false} RunKeepsInv(r: Trace, s: Settings)
    requires Happens(r, s) && KeepsTurn(r, s)
    ensures Inv(r.Now(), s)
  {
    match r
    case Begins(at) => StartIsFine(at, s);
    case Goes(before, op, after) =>
      RunKeepsInv(before, s);
      StepKeepsInv(before.Now(), op, after, s);
  }

  /**
   The exact condition for a run: the cache gives the answers of the history at every moment exactly when no
   confirmation drops a key out of turn.
   */
  lemma {:induction false} RunAgreesIff(r: Trace, s: Settings)
    requires Happens(r, s)
    ensures AgreesThroughout(r, s) <==> KeepsTurn(r, s)
  {
    match r
    case Begins(at) =>
      StartIsFine(at, s);
      InvAgrees(r.Now(), s);
    case Goes(before, op, after) =>
      RunAgreesIff(before, s);
      if KeepsTurn(before, s) {
        RunKeepsInv(before, s);
        LastStepAgreesIff(before.Now(), op, after, s);
      }
  }

  lemma LastStepAgreesIff(w: World, op: Op, after: World, s: Settings)
    requires Inv(w, s) && Step(w, op, after, s)
    ensures Agreeing(after, s) <==> !(op.Confirm? && Evicts(w, op.key, op.at, s))
  {
    if op.Confirm? {
      ConfirmAgreesIff(w, op.key, op.at, after, s);
    } else {
      StepKeepsInv(w, op, after, s);
      InvAgrees(after, s);
    }
  }
}
