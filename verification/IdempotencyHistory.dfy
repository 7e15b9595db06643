/**
 What the idempotency cache remembers, told by the plain sequence of confirmations: when the two agree, in every
 run of confirmations, checks and restarts, and exactly when they do not.
 */
module IdempotencyHistory {
  import opened Sets
  import opened Sequences
  import opened StableSort
  import opened IdempotencyCache

  // ---------- The simple history ----------

  /** Where a key was last confirmed, or -1. */
  function Last(h: seq<Entry>, key: Key): (i: int)
    ensures -1 <= i < |h|
    ensures i >= 0 ==> h[i].key == key
  {
    LastOf(KeysOf(h), key)
  }

  /** The keys confirmed at place `i` or after it. */
  ghost function Since(h: seq<Entry>, i: nat): set<Key> {
    set j | i <= j < |h| :: h[j].key
  }

  /** A key is suppressed when it has not expired and at most `maxEntries` keys, itself included, were confirmed since. */
  ghost predicate SuppressedByHistory(h: seq<Entry>, key: Key, now: int, s: Settings) {
    var i := Last(h, key);
    i >= 0 && h[i].expiry > now && |Since(h, i)| <= s.maxEntries
  }

  /** No check at or after `now` can find the key suppressed. */
  ghost predicate Dead(h: seq<Entry>, key: Key, now: int, s: Settings)
    requires Last(h, key) >= 0
  {
    h[Last(h, key)].expiry <= now || |Since(h, Last(h, key))| > s.maxEntries
  }

  lemma LastPush(h: seq<Entry>, e: Entry, key: Key)
    ensures Last(h + [e], key) == if key == e.key then |h| else Last(h, key)
  {
    assert KeysOf(h + [e]) == KeysOf(h) + [e.key];
    LastOfPush(KeysOf(h), e.key, key);
  }

  lemma LastIs(h: seq<Entry>, i: nat)
    requires i < |h|
    ensures Last(h, h[i].key) >= i
  {
    LastIsLast(KeysOf(h), i);
  }

  lemma SinceIs(h: seq<Entry>, key: Key, k: Key)
    requires Last(h, key) >= 0
    ensures k in Since(h, Last(h, key)) <==> Last(h, k) >= Last(h, key)
    ensures Last(h, k) == Last(h, key) ==> k == key
  {
    if k in Since(h, Last(h, key)) {
      var j :| Last(h, key) <= j < |h| && h[j].key == k;
      LastIs(h, j);
    }
  }

  // ---------- The queue ----------

  function Pair(c: Cache, key: Key): Entry
    requires key in c.live
  {
    Entry(key, c.live[key])
  }

  /** Where the last copy of a live key's pair stands. */
  function At(c: Cache, key: Key): int
    requires key in c.live
  {
    LastOf(c.order, Pair(c, key))
  }

  /** Pairs in the order of expiry, none newer than its key's last confirmation, and the pair of every live key among them. */
  ghost predicate Queued(c: Cache, h: seq<Entry>) {
    && InOrder(c.order, ByExpiry())
    && (forall k :: k in c.live ==> Pair(c, k) in c.order)
    && (forall e :: e in c.order ==> Last(h, e.key) >= 0 && e.expiry <= h[Last(h, e.key)].expiry)
  }

  /** Of two live keys the later confirmed one comes last. */
  ghost predicate InTurn(c: Cache, h: seq<Entry>) {
    forall k, j :: k in c.live && j in c.live && Last(h, k) < Last(h, j) ==> At(c, k) < At(c, j)
  }

  /** Live keys carry the expiry of their last confirmation. */
  ghost predicate Carries(c: Cache, h: seq<Entry>) {
    forall k :: k in c.live ==> Last(h, k) >= 0 && h[Last(h, k)].expiry == c.live[k]
  }

  /** Whatever was confirmed after a live key that has not expired is live. */
  ghost predicate Upper(c: Cache, h: seq<Entry>, now: int) {
    forall k, j :: k in c.live && c.live[k] > now && Last(h, j) > Last(h, k) ==> j in c.live
  }

  ghost predicate OthersDead(c: Cache, h: seq<Entry>, now: int, s: Settings) {
    forall k :: k !in c.live && Last(h, k) >= 0 ==> Dead(h, k, now, s)
  }

  /** Live keys are an upper part of the history, and the others are dead. */
  ghost predicate Agrees(c: Cache, h: seq<Entry>, now: int, s: Settings) {
    Carries(c, h) && Upper(c, h, now) && OthersDead(c, h, now, s)
  }

  ghost predicate OnTime(h: seq<Entry>) {
    InOrder(h, ByExpiry())
  }

  ghost predicate AllUnexpired(order: seq<Entry>, now: int) {
    forall i :: 0 <= i < |order| ==> order[i].expiry > now
  }

  lemma PopMovesUp(c: Cache, h: seq<Entry>, k: Key)
    requires Queued(c, h) && c.order != [] && k in PopFront(c).live
    ensures var p := PopFront(c); Pair(p, k) == Pair(c, k) && Pair(p, k) in p.order && At(p, k) == At(c, k) - 1
  {
    assert Pair(c, k) in c.order && Pair(c, k) != c.order[0];
    assert c.order == [c.order[0]] + c.order[1..];
    var i :| 0 <= i < |c.order| && c.order[i] == Pair(c, k);
    LastIsLast(c.order, i);
    LastOfTail(c.order, Pair(c, k));
  }

  lemma PopKeepsQueue(c: Cache, h: seq<Entry>)
    requires Queued(c, h) && c.order != []
    ensures Queued(PopFront(c), h)
  {
    var p := PopFront(c);
    forall k | k in p.live ensures Pair(p, k) in p.order { PopMovesUp(c, h, k); }
  }

  lemma PopKeepsTurn(c: Cache, h: seq<Entry>)
    requires Queued(c, h) && InTurn(c, h) && c.order != []
    ensures InTurn(PopFront(c), h)
  {
    forall k | k in PopFront(c).live ensures At(PopFront(c), k) == At(c, k) - 1 { PopMovesUp(c, h, k); }
  }

  lemma PopLeavesUnexpired(c: Cache, now: int)
    requires c.order != [] && AllUnexpired(c.order, now)
    ensures AllUnexpired(PopFront(c).order, now)
  {
  }

  lemma PopKeepsOthersDead(c: Cache, h: seq<Entry>, now: int, s: Settings)
    requires Carries(c, h) && OthersDead(c, h, now, s) && Current(c) && Dead(h, c.order[0].key, now, s)
    ensures Carries(PopFront(c), h) && OthersDead(PopFront(c), h, now, s)
  {
    forall k | k !in PopFront(c).live && Last(h, k) >= 0 ensures Dead(h, k, now, s) {
      assert k !in c.live || k == c.order[0].key;
    }
  }

  /** Dropping an expired key. */
  lemma PopExpired(c: Cache, h: seq<Entry>, now: int, s: Settings)
    requires OnTime(h) && Agrees(c, h, now, s) && Current(c) && c.order[0].expiry <= now
    ensures Agrees(PopFront(c), h, now, s)
  {
    var p, dropped := PopFront(c), c.order[0].key;
    PopKeepsOthersDead(c, h, now, s);
    forall k, j | k in p.live && p.live[k] > now && Last(h, j) > Last(h, k) ensures j in p.live {
      assert j in c.live;
      assert ByExpiry()(h[Last(h, k)], h[Last(h, j)]);
    }
  }

  /** The key of the oldest pair was confirmed before all other live keys. */
  ghost predicate IsOldest(c: Cache, h: seq<Entry>)
    requires Current(c)
  {
    forall k :: k in c.live && k != c.order[0].key ==> Last(h, c.order[0].key) < Last(h, k)
  }

  lemma OldestOfTooMany(c: Cache, h: seq<Entry>, now: int, s: Settings)
    requires Carries(c, h) && Current(c) && IsOldest(c, h) && |c.live| > s.maxEntries
    ensures Dead(h, c.order[0].key, now, s)
  {
    var i := Last(h, c.order[0].key);
    forall k | k in c.live.Keys ensures k in Since(h, i) { SinceIs(h, c.order[0].key, k); }
    SubsetSize(c.live.Keys, Since(h, i));
  }

  /** Dropping the oldest of too many keys. */
  lemma PopOldest(c: Cache, h: seq<Entry>, now: int, s: Settings)
    requires Agrees(c, h, now, s) && Current(c) && IsOldest(c, h) && |c.live| > s.maxEntries
    ensures Agrees(PopFront(c), h, now, s)
  {
    var p := PopFront(c);
    OldestOfTooMany(c, h, now, s);
    PopKeepsOthersDead(c, h, now, s);
    forall k, j | k in p.live && p.live[k] > now && Last(h, j) > Last(h, k) ensures j in p.live {
      assert k in c.live && j in c.live;
    }
  }

  lemma {:induction false} ExpireKeepsAgreement(c: Cache, h: seq<Entry>, now: int, s: Settings)
    requires OnTime(h) && Queued(c, h) && Agrees(c, h, now, s)
    ensures var r := Expire(c, now); Queued(r, h) && Agrees(r, h, now, s) && AllUnexpired(r.order, now)
    decreases |c.order|
  {
    if c.order != [] && c.order[0].expiry <= now {
      PopKeepsQueue(c, h);
      if Current(c) { PopExpired(c, h, now, s); }
      ExpireKeepsAgreement(PopFront(c), h, now, s);
    } else {
      forall i | 0 <= i < |c.order| ensures c.order[i].expiry > now {
        assert i > 0 ==> ByExpiry()(c.order[0], c.order[i]);
      }
    }
  }

  // ---------- Which key goes when there are too many ----------

  /** The queue behind its stale pairs. */
  function SkipStale(c: Cache): Cache
    decreases |c.order|
  {
    if c.order != [] && !Current(c) then SkipStale(PopFront(c)) else c
  }

  /** The oldest pair has a copy further back than the last pair of some other live key. */
  ghost predicate Overtaken(c: Cache) {
    Current(c) && exists k :: k in c.live && At(c, k) < At(c, c.order[0].key)
  }

  lemma PlacesAgree(c: Cache, h: seq<Entry>, a: Key, b: Key)
    requires InTurn(c, h) && Carries(c, h) && a in c.live && b in c.live && a != b
    ensures At(c, a) < At(c, b) <==> Last(h, a) < Last(h, b)
  {
    SinceIs(h, a, b);
  }

  /** While pairs stand in turn, the cache itself shows whether its oldest pair's key is the one confirmed longest ago. */
  lemma OvertakenIff(c: Cache, h: seq<Entry>, now: int, s: Settings)
    requires InTurn(c, h) && Agrees(c, h, now, s) && Current(c)
    ensures Overtaken(c) <==> !IsOldest(c, h)
  {
    var key := c.order[0].key;
    forall k | k in c.live && k != key
      ensures At(c, k) < At(c, key) <==> !(Last(h, key) < Last(h, k))
    {
      PlacesAgree(c, h, k, key);
      SinceIs(h, key, k);
    }
  }

  lemma {:induction false} SkipKeepsAgreement(c: Cache, h: seq<Entry>, now: int, s: Settings)
    requires Queued(c, h) && Agrees(c, h, now, s) && AllUnexpired(c.order, now)
    ensures var t := SkipStale(c); Queued(t, h) && Agrees(t, h, now, s) && AllUnexpired(t.order, now)
    decreases |c.order|
  {
    if c.order != [] && !Current(c) {
      PopKeepsQueue(c, h);
      PopLeavesUnexpired(c, now);
      SkipKeepsAgreement(PopFront(c), h, now, s);
    }
  }

  lemma {:induction false} ShrinkSkips(c: Cache, maxEntries: int)
    requires |c.live| == maxEntries + 1
    ensures SkipStale(c).live == c.live && (SkipStale(c).order == [] || Current(SkipStale(c)))
    ensures Shrink(c, maxEntries) == if Current(SkipStale(c)) then PopFront(SkipStale(c)) else SkipStale(c)
    ensures Current(SkipStale(c)) ==> |PopFront(SkipStale(c)).live| == maxEntries
    decreases |c.order|
  {
    if c.order != [] && !Current(c) {
      ShrinkSkips(PopFront(c), maxEntries);
    } else if Current(c) {
      DropSize(c.live, c.order[0].key);
    }
  }

  /** With one key too many, the first current pair loses its key, and nothing else happens. */
  lemma ShrinkDropsOne(c: Cache, h: seq<Entry>, now: int, s: Settings)
    requires Queued(c, h) && Agrees(c, h, now, s) && AllUnexpired(c.order, now)
    requires |c.live| == s.maxEntries + 1 && s.maxEntries > 0
    ensures var t := SkipStale(c);
            && Queued(t, h) && Agrees(t, h, now, s) && AllUnexpired(t.order, now)
            && Current(t) && t.live == c.live && Shrink(c, s.maxEntries) == PopFront(t) && |PopFront(t).live| == s.maxEntries
  {
    SkipKeepsAgreement(c, h, now, s);
    ShrinkSkips(c, s.maxEntries);
    var k :| k in c.live;
    assert Pair(SkipStale(c), k) in SkipStale(c).order;
  }

  lemma DropSize(m: map<Key, int>, k: Key)
    requires k in m
    ensures |m - {k}| == |m| - 1
  {
    assert (m - {k}).Keys == m.Keys - {k};
  }

  /** What holds right after any prune at `now`. */
  ghost predicate Settled(c: Cache, h: seq<Entry>, now: int, s: Settings) {
    && Queued(c, h) && Agrees(c, h, now, s) && AllUnexpired(c.order, now)
    && |c.live| <= if s.maxEntries <= 0 then 0 else s.maxEntries
  }

  /** The prune finds one key too many, and the key it drops is not the one confirmed longest ago. */
  ghost predicate OutOfTurn(c: Cache, h: seq<Entry>, now: int, s: Settings) {
    s.maxEntries > 0 && |Expire(c, now).live| > s.maxEntries && DropsEarly(SkipStale(Expire(c, now)), h)
  }

  /** The key to be dropped next is not the one confirmed longest ago. */
  ghost predicate DropsEarly(c: Cache, h: seq<Entry>) {
    Current(c) && !IsOldest(c, h)
  }

  lemma LiveIsUnexpired(c: Cache, h: seq<Entry>, now: int, key: Key)
    requires Queued(c, h) && AllUnexpired(c.order, now) && key in c.live
    ensures c.live[key] > now
  {
    assert Pair(c, key) in c.order;
  }

  /** Dropping the key of the first current pair settles the cache if the pair is not out of turn. */
  lemma DropSettles(t: Cache, h: seq<Entry>, now: int, s: Settings)
    requires Queued(t, h) && Agrees(t, h, now, s) && AllUnexpired(t.order, now) && Current(t) && IsOldest(t, h)
    requires |t.live| > s.maxEntries && |PopFront(t).live| == s.maxEntries > 0
    ensures Settled(PopFront(t), h, now, s)
  {
    PopOldest(t, h, now, s);
    PopKeepsQueue(t, h);
    PopLeavesUnexpired(t, now);
  }

  /** Dropping it before a key `k` confirmed longer ago loses a key that the history still suppresses. */
  lemma DropDisagrees(t: Cache, h: seq<Entry>, now: int, s: Settings, key: Key, k: Key)
    requires Carries(t, h) && Upper(t, h, now) && |t.live| == s.maxEntries + 1
    requires key in t.live && t.live[key] > now && k in t.live && Last(h, k) < Last(h, key)
    ensures SuppressedByHistory(h, key, now, s)
  {
    var since := Since(h, Last(h, key));
    forall j | j in since ensures j in t.live.Keys - {k} {
      SinceIs(h, key, j);
      assert j == key || Last(h, j) > Last(h, key);
    }
    SubsetSize(since, t.live.Keys - {k});
  }

  lemma NothingSettles(h: seq<Entry>, now: int, s: Settings)
    requires s.maxEntries <= 0
    ensures Settled(EMPTY, h, now, s)
  {
    forall k | Last(h, k) >= 0 ensures Dead(h, k, now, s) { assert k in Since(h, Last(h, k)); }
  }

  lemma PruneSettles(c: Cache, h: seq<Entry>, now: int, s: Settings)
    requires OnTime(h) && Queued(c, h) && Agrees(c, h, now, s)
    requires s.maxEntries > 0 ==> |Expire(c, now).live| <= s.maxEntries + 1 && !OutOfTurn(c, h, now, s)
    ensures Settled(Pruned(c, now, s), h, now, s)
  {
    if s.maxEntries <= 0 {
      NothingSettles(h, now, s);
    } else {
      var x := Expire(c, now);
      ExpireKeepsAgreement(c, h, now, s);
      if |x.live| > s.maxEntries {
        ShrinkDropsOne(x, h, now, s);
        DropSettles(SkipStale(x), h, now, s);
      }
    }
  }

  /** Right after a prune the live keys are exactly the suppressed ones. */
  lemma SettledIsExact(c: Cache, h: seq<Entry>, now: int, s: Settings, key: Key)
    requires Settled(c, h, now, s)
    ensures key in c.live <==> SuppressedByHistory(h, key, now, s)
    ensures key in c.live ==> c.live[key] > now
  {
    if key in c.live {
      LiveIsUnexpired(c, h, now, key);
      forall k | k in Since(h, Last(h, key)) ensures k in c.live.Keys { SinceIs(h, key, k); }
      SubsetSize(Since(h, Last(h, key)), c.live.Keys);
      assert key in c.live.Keys;
    }
  }

  lemma DroppedEarly(t: Cache, h: seq<Entry>, now: int, s: Settings)
    requires Queued(t, h) && Agrees(t, h, now, s) && AllUnexpired(t.order, now)
    requires DropsEarly(t, h) && |t.live| == s.maxEntries + 1
    ensures SuppressedByHistory(h, t.order[0].key, now, s)
  {
    var key := t.order[0].key;
    var k :| k in t.live && k != key && !(Last(h, key) < Last(h, k));
    SinceIs(h, key, k);
    DropDisagrees(t, h, now, s, key, k);
  }

  lemma ShrunkEarly(x: Cache, h: seq<Entry>, now: int, s: Settings) returns (key: Key)
    requires Queued(x, h) && Agrees(x, h, now, s) && AllUnexpired(x.order, now)
    requires DropsEarly(SkipStale(x), h) && |x.live| == s.maxEntries + 1 && s.maxEntries > 0
    ensures var r := Shrink(x, s.maxEntries); key !in r.live && AllUnexpired(r.order, now) && |r.live| == s.maxEntries
    ensures SuppressedByHistory(h, key, now, s) && key == SkipStale(x).order[0].key
  {
    var t := SkipStale(x);
    key := t.order[0].key;
    ShrinkSkips(x, s.maxEntries);
    assert SuppressedByHistory(h, key, now, s) && AllUnexpired(t.order, now) by {
      SkipKeepsAgreement(x, h, now, s);
      DroppedEarly(t, h, now, s);
    }
    PopLeavesUnexpired(t, now);
  }

  /** A prune that drops a key out of turn contradicts the history about it at once. */
  lemma OutOfTurnDisagrees(c: Cache, h: seq<Entry>, now: int, s: Settings) returns (key: Key)
    requires OnTime(h) && Queued(c, h) && Agrees(c, h, now, s)
    requires OutOfTurn(c, h, now, s) && |Expire(c, now).live| == s.maxEntries + 1
    ensures key == SkipStale(Expire(c, now)).order[0].key
    ensures key !in Pruned(c, now, s).live && SuppressedByHistory(h, key, now, s)
    ensures AllUnexpired(Pruned(c, now, s).order, now) && |Pruned(c, now, s).live| == s.maxEntries
  {
    ExpireKeepsAgreement(c, h, now, s);
    key := ShrunkEarly(Expire(c, now), h, now, s);
  }

  lemma PruneAgain(c: Cache, now: int, s: Settings)
    requires AllUnexpired(c.order, now) && |c.live| <= s.maxEntries
    ensures Pruned(c, now, s) == if s.maxEntries <= 0 then EMPTY else c
  {
  }
}
