/**
 The delivery idempotency cache: a dictionary from keys to expiry times, and a queue of (key, expiry) pairs
 that is cleaned lazily, so that it may hold stale pairs of keys confirmed again later.
 Times are integers on the wall clock.
 */
module IdempotencyCache {
  import opened Sequences
  import opened StableSort

  /** A delivery's idempotency key, compared as a whole. */
  datatype Key = Key(text: string)

  datatype Entry = Entry(key: Key, expiry: int)

  /** `slots` are the keys of the dictionary `live` in insertion order, in which Python lists them. */
  datatype Cache = Cache(live: map<Key, int>, slots: seq<Key>, order: seq<Entry>)

  datatype Settings = Settings(ttl: int, maxEntries: int) {
    function Expiry(now: int): int {
      now + if ttl < 0 then 0 else ttl
    }
  }

  const EMPTY := Cache(map[], [], [])

  ghost predicate NoRepeats(slots: seq<Key>) {
    forall i, j :: 0 <= i < j < |slots| ==> slots[i] != slots[j]
  }

  ghost predicate Fits(c: Cache) {
    NoRepeats(c.slots) && forall k :: k in c.slots <==> k in c.live
  }

  /** A cache whose insertion order lists exactly its keys. */
  type Dictionary = c: Cache | Fits(c) witness EMPTY

  // ---------- What the code computes ----------

  /** `d[key] = expiry`: a new key is listed last, an old one keeps its place. */
  function Stored(c: Cache, key: Key, expiry: int): (r: Cache)
    ensures Fits(c) ==> Fits(r)
  {
    c.(live := c.live[key := expiry], slots := if key in c.live then c.slots else c.slots + [key])
  }

  function Other(key: Key): Key -> bool {
    k => k != key
  }

  /** `d.pop(key)`. */
  function Forgotten(c: Cache, key: Key): (r: Cache)
    ensures Fits(c) ==> Fits(r)
  {
    WhereKeepsNoRepeats(c.slots, Other(key));
    c.(live := c.live - {key}, slots := Where(c.slots, Other(key)))
  }

  lemma WhereKeepsNoRepeats(slots: seq<Key>, p: Key -> bool)
    ensures NoRepeats(slots) ==> NoRepeats(Where(slots, p))
  {
    if NoRepeats(slots) {
      var differ := (a: Key, b: Key) => a != b;
      WhereKeepsOrder(slots, p, differ);
      assert InOrder(Where(slots, p), differ);
    }
  }

  /** The oldest pair is its key's current one. */
  predicate Current(c: Cache) {
    c.order != [] && c.order[0].key in c.live && c.live[c.order[0].key] == c.order[0].expiry
  }

  /** Drop the oldest pair; the key goes with it only if the pair is its current one. */
  function PopFront(c: Cache): (r: Cache)
    requires c.order != []
    ensures Fits(c) ==> Fits(r)
    ensures r.order == c.order[1..] && r.live == if Current(c) then c.live - {c.order[0].key} else c.live
  {
    var c' := c.(order := c.order[1..]);
    if Current(c) then Forgotten(c', c.order[0].key) else c'
  }

  function Expire(c: Cache, now: int): (r: Cache)
    ensures Fits(c) ==> Fits(r)
    decreases |c.order|
  {
    if c.order != [] && c.order[0].expiry <= now then Expire(PopFront(c), now) else c
  }

  function Shrink(c: Cache, maxEntries: int): (r: Cache)
    ensures Fits(c) ==> Fits(r)
    decreases |c.order|
  {
    if |c.live| > maxEntries && c.order != [] then Shrink(PopFront(c), maxEntries) else c
  }

  function Pruned(c: Cache, now: int, s: Settings): (r: Cache)
    ensures Fits(c) ==> Fits(r)
  {
    if s.maxEntries <= 0 then EMPTY else Shrink(Expire(c, now), s.maxEntries)
  }

  /** The cache with a confirmed key, before it is pruned. */
  function Appended(c: Cache, key: Key, expiry: int): (r: Cache)
    ensures Fits(c) ==> Fits(r)
  {
    Stored(c, key, expiry).(order := c.order + [Entry(key, expiry)])
  }

  /** A confirmed key is remembered, and pruned again by the save at the same moment. */
  function Remembered(c: Cache, key: Key, now: int, s: Settings): (r: Cache)
    ensures Fits(c) ==> Fits(r)
  {
    Pruned(Pruned(Appended(c, key, s.Expiry(now)), now, s), now, s)
  }

  /** The cache after a check, which prunes, and whether the check suppresses the key. */
  function Checked(c: Cache, key: Key, now: int, s: Settings): (r: (Cache, bool))
    ensures Fits(c) ==> Fits(r.0)
  {
    var p := Pruned(c, now, s);
    if key !in p.live then (p, false)
    else if p.live[key] <= now then (Forgotten(p, key), false)
    else (p, true)
  }

  // ---------- The file ----------

  function ByExpiry(): Order<Entry> {
    (a: Entry, b: Entry) => a.expiry <= b.expiry
  }

  function Items(c: Cache): (r: seq<Entry>)
    requires Fits(c)
  {
    seq(|c.slots|, i requires 0 <= i < |c.slots| => Entry(c.slots[i], c.live[c.slots[i]]))
  }

  /** What is saved: the dictionary, sorted by expiry. Python's sort is stable, so that ties stay in insertion order. */
  function Listed(c: Cache): seq<Entry>
    requires Fits(c)
  {
    Sorted(Items(c), ByExpiry())
  }

  function Outlives(now: int): Entry -> bool {
    (e: Entry) => e.expiry > now
  }

  function Unexpired(saved: seq<Entry>, now: int): seq<Entry> {
    Where(saved, Outlives(now))
  }

  /** The later expiry of an entry and its key. */
  function Latest(c: Cache, e: Entry): int {
    if e.key in c.live && c.live[e.key] > e.expiry then c.live[e.key] else e.expiry
  }

  function Merged(c: Cache, saved: seq<Entry>): (r: Cache)
    ensures Fits(c) ==> Fits(r)
    ensures r.order == c.order
  {
    if saved == [] then c
    else
      var m := Merged(c, saved[..|saved| - 1]);
      Stored(m, saved[|saved| - 1].key, Latest(m, saved[|saved| - 1]))
  }

  function KeysOf(list: seq<Entry>): (r: seq<Key>)
    ensures |r| == |list|
  {
    seq(|list|, i requires 0 <= i < |list| => list[i].key)
  }

  /** The dictionary and the queue rebuilt in the order of expiry. */
  function Rebuilt(c: Cache): (r: Cache)
    requires Fits(c)
    ensures Fits(r)
  {
    ListedHolds(c);
    HoldsFits(Listed(c), c.live);
    Cache(c.live, KeysOf(Listed(c)), Listed(c))
  }

  /** Merging the saved pairs back in; the final save prunes again. */
  function Restored(c: Cache, saved: seq<Entry>, now: int, s: Settings): (r: Cache)
    requires Fits(c)
    ensures Fits(r)
  {
    var restored := Unexpired(saved, now);
    if restored == [] then Pruned(c, now, s)
    else Pruned(Pruned(Rebuilt(Merged(Pruned(c, now, s), restored)), now, s), now, s)
  }

  /** A merge keeps of every key the latest expiry that the cache or the list has for it. */
  lemma {:induction false} MergedHasLatest(c: Cache, saved: seq<Entry>, k: Key)
    ensures var live := Merged(c, saved).live;
            && (k in live <==> k in c.live || exists e :: e in saved && e.key == k)
            && (k in live ==>
                  && (k in c.live ==> c.live[k] <= live[k]) && (forall e :: e in saved && e.key == k ==> e.expiry <= live[k])
                  && ((k in c.live && c.live[k] == live[k]) || exists e :: e in saved && e.key == k && e.expiry == live[k]))
    decreases |saved|
  {
    if saved != [] {
      var front, last := saved[..|saved| - 1], saved[|saved| - 1];
      assert saved == front + [last];
      MergedHasLatest(c, front, k);
      MergedHasLatest(c, front, last.key);
    }
  }

  function DifferentKeys(): Order<Entry> {
    (a: Entry, b: Entry) => a.key != b.key
  }

  /** The pairs of a dictionary, one per key. */
  ghost predicate Holds(list: seq<Entry>, live: map<Key, int>) {
    && (forall e :: e in list <==> e.key in live && e.expiry == live[e.key])
    && InOrder(list, DifferentKeys())
  }

  lemma ItemsHold(c: Cache)
    requires Fits(c)
    ensures Holds(Items(c), c.live)
  {
    forall e: Entry | e.key in c.live && e.expiry == c.live[e.key] ensures e in Items(c) {
      var i :| 0 <= i < |c.slots| && c.slots[i] == e.key;
      assert Items(c)[i] == e;
    }
  }

  lemma ListedHolds(c: Cache)
    requires Fits(c)
    ensures Holds(Listed(c), c.live) && InOrder(Listed(c), ByExpiry())
  {
    ItemsHold(c);
    SortedIsInOrder(Items(c), ByExpiry());
    forall i, j | 0 <= i < j < |Listed(c)| ensures Listed(c)[i].key != Listed(c)[j].key {
      SortedKeepsOnce(Items(c), ByExpiry(), (e: Entry) => e.key, Listed(c)[i].key);
    }
  }

  lemma HoldsFits(list: seq<Entry>, live: map<Key, int>)
    requires Holds(list, live)
    ensures Fits(Cache(live, KeysOf(list), list))
  {
    forall k | k in live ensures k in KeysOf(list) {
      assert Entry(k, live[k]) in list;
      var i :| 0 <= i < |list| && list[i] == Entry(k, live[k]);
      assert KeysOf(list)[i] == k;
    }
    forall k | k in KeysOf(list) ensures k in live {
      var i :| 0 <= i < |list| && list[i].key == k;
      assert list[i] in list;
    }
  }

  class DeliveryIdempotency {
    const s: Settings
    var live: map<Key, int>
    var slots: seq<Key>
    var order: seq<Entry>
    var saved: seq<Entry>

    function View(): Cache
      reads this
    {
      Cache(live, slots, order)
    }

    /** The insertion order lists exactly the keys of the dictionary. */
    ghost predicate Valid()
      reads this
    {
      Fits(View())
    }

    constructor (s: Settings, saved: seq<Entry>)
      ensures this.s == s && View() == EMPTY && this.saved == saved && Valid()
    {
      this.s := s;
      live, slots, order, this.saved := map[], [], [], saved;
    }

    method Store(key: Key, expiry: int)
      modifies `live, `slots
      ensures View() == Stored(old(View()), key, expiry)
    {
      if key !in live { slots := slots + [key]; }
      live := live[key := expiry];
    }

    method Forget(key: Key)
      modifies `live, `slots
      ensures View() == Forgotten(old(View()), key)
    {
      live, slots := live - {key}, Where(slots, Other(key));
    }

    method PopLeft()
      requires order != []
      modifies `live, `slots, `order
      ensures View() == PopFront(old(View()))
    {
      var e := order[0];
      order := order[1..];
      if e.key in live && live[e.key] == e.expiry { Forget(e.key); }
    }

    method Prune(now: int)
      modifies `live, `slots, `order
      ensures View() == Pruned(old(View()), now, s)
    {
      if s.maxEntries <= 0 {
        live, slots, order := map[], [], [];
        return;
      }
      while order != [] && order[0].expiry <= now
        invariant Expire(View(), now) == Expire(old(View()), now)
        decreases |order|
      {
        PopLeft();
      }
      ghost var expired := View();
      while |live| > s.maxEntries && order != []
        invariant Shrink(View(), s.maxEntries) == Shrink(expired, s.maxEntries)
        decreases |order|
      {
        PopLeft();
      }
    }

    method IsSuppressed(key: Key, now: int) returns (suppressed: bool)
      requires Valid()
      modifies `live, `slots, `order
      ensures Valid() && (View(), suppressed) == Checked(old(View()), key, now, s)
    {
      Prune(now);
      if key !in live { return false; }
      if live[key] <= now {
        Forget(key);
        return false;
      }
      return true;
    }

    /** Remember a confirmed key and save; the save prunes once more at the same moment. */
    method Remember(key: Key, now: int)
      requires Valid()
      modifies this
      ensures Valid() && View() == Remembered(old(View()), key, now, s) && saved == Listed(View())
    {
      Store(key, s.Expiry(now));
      order := order + [Entry(key, s.Expiry(now))];
      Prune(now);
      Save(now);
    }

    method Save(now: int)
      requires Valid()
      modifies this
      ensures Valid() && View() == Pruned(old(View()), now, s) && saved == Listed(View())
    {
      Prune(now);
      saved := Listed(View());
    }

    method Merge(restored: seq<Entry>)
      modifies `live, `slots
      ensures View() == Merged(old(View()), restored)
    {
      for i := 0 to |restored|
        invariant View() == Merged(old(View()), restored[..i])
      {
        assert restored[..i + 1][..i] == restored[..i];
        var e := restored[i];
        Store(e.key, if e.key in live && live[e.key] > e.expiry then live[e.key] else e.expiry);
      }
      assert restored[..|restored|] == restored;
    }

    method Rebuild()
      requires Valid()
      modifies `slots, `order
      ensures Valid() && View() == Rebuilt(old(View()))
    {
      ghost var rebuilt := Rebuilt(View());
      var ordered := Listed(View());
      slots, order := KeysOf(ordered), ordered;
      assert View() == rebuilt;
    }

    method Restore(now: int)
      requires Valid()
      modifies this
      ensures Valid() && View() == Restored(old(View()), old(saved), now, s) && saved == Listed(View())
    {
      var restored := Unexpired(saved, now);
      if restored != [] {
        Prune(now);
        Merge(restored);
        Rebuild();
        Prune(now);
      }
      Save(now);
    }
  }
}
