/** The idempotency cache told in times: how long a confirmed key is suppressed, over any run, in seconds of the clock. */
module IdempotencyTimes {
  import opened Sets
  import opened IdempotencyCache
  import opened IdempotencyHistory
  import opened IdempotencyRuns

  datatype Confirmation = Confirmation(key: Key, at: int)

  /** What a run confirmed, and when. */
  function Confirmed(r: Trace): seq<Confirmation> {
    match r
    case Begins(_) => []
    case Goes(before, op, _) => Confirmed(before) + if op.Confirm? then [Confirmation(op.key, op.at)] else []
  }

  /** The keys confirmed at place `i` or after it. */
  ghost function KeysFrom(c: seq<Confirmation>, i: nat): set<Key> {
    set j | i <= j < |c| :: c[j].key
  }

  /** The confirmation at place `i` is the last one of its key. */
  ghost predicate IsLast(c: seq<Confirmation>, i: nat) {
    i < |c| && forall j :: i < j < |c| ==> c[j].key != c[i].key
  }

  /** The history lists the confirmations, each with the time it expires: a time to live later, and at once if that is negative. */
  ghost predicate Lists(h: seq<Entry>, c: seq<Confirmation>, s: Settings) {
    && |h| == |c|
    && forall i :: 0 <= i < |c| ==> h[i].key == c[i].key && h[i].expiry == c[i].at + if s.ttl < 0 then 0 else s.ttl
  }

  lemma {:induction false} HistoryLists(r: Trace, s: Settings)
    requires Happens(r, s)
    ensures Lists(r.Now().history, Confirmed(r), s)
  {
    if r.Goes? { HistoryLists(r.before, s); }
  }

  lemma {:induction false} ConfirmedBefore(r: Trace, s: Settings)
    requires Happens(r, s)
    ensures forall i :: 0 <= i < |Confirmed(r)| ==> Confirmed(r)[i].at <= r.Now().now
  {
    if r.Goes? { ConfirmedBefore(r.before, s); }
  }

  lemma LastPlace(h: seq<Entry>, c: seq<Confirmation>, i: nat, s: Settings)
    requires Lists(h, c, s) && IsLast(c, i)
    ensures Last(h, c[i].key) == i && Since(h, i) == KeysFrom(c, i)
  {
    LastIs(h, i);
    forall k ensures k in Since(h, i) <==> k in KeysFrom(c, i) {
      if k in Since(h, i) {
        var j :| i <= j < |h| && h[j].key == k;
        assert c[j].key == k;
      }
      if k in KeysFrom(c, i) {
        var j :| i <= j < |c| && c[j].key == k;
        assert h[j].key == k;
      }
    }
  }

  /**
   As long as no confirmation drops a key out of turn, a key is suppressed exactly for the time to live after its last
   confirmation, and while at most `maxEntries` keys, itself included, were confirmed since.
   */
  lemma SuppressedForTtl(r: Trace, s: Settings, i: nat, now: int)
    requires Happens(r, s) && KeepsTurn(r, s) && r.Now().now <= now && IsLast(Confirmed(r), i)
    ensures var c := Confirmed(r);
            Checked(r.Now().cache, c[i].key, now, s).1 <==> now < c[i].at + s.ttl && |KeysFrom(c, i)| <= s.maxEntries
  {
    var c := Confirmed(r);
    RunKeepsInv(r, s);
    InvAgrees(r.Now(), s);
    HistoryLists(r, s);
    ConfirmedBefore(r, s);
    LastPlace(r.Now().history, c, i, s);
  }

  /** A key that was never confirmed is never suppressed. */
  lemma UnconfirmedIsNotSuppressed(r: Trace, s: Settings, key: Key, now: int)
    requires Happens(r, s) && KeepsTurn(r, s) && r.Now().now <= now
    requires forall i :: 0 <= i < |Confirmed(r)| ==> Confirmed(r)[i].key != key
    ensures !Checked(r.Now().cache, key, now, s).1
  {
    RunKeepsInv(r, s);
    InvAgrees(r.Now(), s);
    HistoryLists(r, s);
    NeverListed(r.Now().history, Confirmed(r), key, s);
  }

  lemma NeverListed(h: seq<Entry>, c: seq<Confirmation>, key: Key, s: Settings)
    requires Lists(h, c, s) && forall i :: 0 <= i < |c| ==> c[i].key != key
    ensures Last(h, key) < 0
  {
    assert forall i :: 0 <= i < |c| ==> h[i].key == c[i].key;
  }

  lemma OnlyKeyIsInTurn(k: Key, at: int, s: Settings)
    ensures !Evicts(World(EMPTY, [], [], at), k, at, s)
  {
    var c := Appended(EMPTY, k, s.Expiry(at));
    ExpireOnlyDrops(c, at);
    assert c.live.Keys == {k};
  }

  lemma ConfirmOnce(k: Key, at: int, s: Settings) returns (r: Trace)
    ensures Happens(r, s) && KeepsTurn(r, s) && r.Now().now == at && r.Now().cache == Remembered(EMPTY, k, at, s)
    ensures Confirmed(r) == [Confirmation(k, at)]
  {
    var c := Remembered(EMPTY, k, at, s);
    var start := Begins(at);
    r := Goes(start, Confirm(k, at), World(c, Listed(c), [] + [Entry(k, s.Expiry(at))], at));
    assert KeepsTurn(start, s) && Confirmed(start) == [];
    OnlyKeyIsInTurn(k, at, s);
  }

  lemma OneKey(k: Key, at: int)
    ensures var c := [Confirmation(k, at)]; IsLast(c, 0) && |KeysFrom(c, 0)| == 1
  {
    var c := [Confirmation(k, at)];
    assert c[0].key == k;
    assert KeysFrom(c, 0) == {k};
  }

  /** In numbers: one key confirmed in an empty cache is suppressed for the time to live, if the cache may hold any key at all. */
  lemma RememberedForTtl(k: Key, at: int, later: int, s: Settings)
    requires at <= later
    ensures Checked(Remembered(EMPTY, k, at, s), k, later, s).1 <==> later < at + s.ttl && s.maxEntries >= 1
  {
    var r := ConfirmOnce(k, at, s);
    OneKey(k, at);
    SuppressedForTtl(r, s, 0, later);
  }
}
