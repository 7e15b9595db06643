/**
 The on-disk journals of pending messages: one record per key, sorted by creation time. Writing a record
 replaces the one with its key and sorts again; the sort is stable.
 */
module KeyedJournal {
  import opened Wrappers
  import opened PyStrings
  import opened Sequences
  import opened StableSort

  /** How a journal reads a record: its key, its creation time, compared as texts, and what a load makes of it. */
  datatype Schema<!R, !K> = Schema(key: R -> K, at: R -> string, clean: R -> Option<R>)

  /** By creation time. */
  function ByTime<R, K>(sc: Schema<R, K>): Order<R> {
    (a, b) => StrLe(sc.at(a), sc.at(b))
  }

  lemma ByTimeIsOrder<R(!new), K>(sc: Schema<R, K>)
    ensures IsOrder(ByTime(sc))
  {
    forall a, b ensures ByTime(sc)(a, b) || ByTime(sc)(b, a) { StrLeTotal(sc.at(a), sc.at(b)); }
    forall a, b, c | ByTime(sc)(a, b) && ByTime(sc)(b, c) ensures ByTime(sc)(a, c) {
      StrLeTransitive(sc.at(a), sc.at(b), sc.at(c));
    }
  }

  // ---------- Loading ----------

  /** What a load keeps of the stored items: the ones it accepts, cleaned. */
  function Cleaned<R(!new), K>(rows: seq<R>, sc: Schema<R, K>): (kept: seq<R>)
    ensures forall x :: x in kept ==> exists r :: r in rows && sc.clean(r) == Some(x)
    ensures forall r :: r in rows && sc.clean(r).Some? ==> sc.clean(r).value in kept
  {
    if rows == [] then []
    else
      var rest := Cleaned(rows[1..], sc);
      assert rows == [rows[0]] + rows[1..];
      match sc.clean(rows[0])
      case Some(x) => [x] + rest
      case None => rest
  }

  function Loaded<R(!new), K>(rows: seq<R>, sc: Schema<R, K>): (loaded: seq<R>)
    ensures forall x :: x in loaded ==> exists r :: r in rows && sc.clean(r) == Some(x)
    ensures forall r :: r in rows && sc.clean(r).Some? ==> sc.clean(r).value in loaded
  {
    Sorted(Cleaned(rows, sc), ByTime(sc))
  }

  /** What a load accepts it leaves alone the next time, and it never changes a creation time. */
  ghost predicate Lawful<R(!new), K>(sc: Schema<R, K>) {
    forall r :: sc.clean(r).Some? ==>
      sc.clean(sc.clean(r).value) == sc.clean(r) && sc.at(sc.clean(r).value) == sc.at(r)
  }

  lemma {:induction false} CleanedKeepsOrder<R(!new), K>(rows: seq<R>, sc: Schema<R, K>)
    requires Lawful(sc) && InOrder(rows, ByTime(sc))
    ensures InOrder(Cleaned(rows, sc), ByTime(sc))
  {
    if rows != [] {
      var rest := Cleaned(rows[1..], sc);
      CleanedKeepsOrder(rows[1..], sc);
      forall j | 0 <= j < |rest| && sc.clean(rows[0]).Some? ensures ByTime(sc)(sc.clean(rows[0]).value, rest[j]) {
        assert rest[j] in rest;
        var r :| r in rows[1..] && sc.clean(r) == Some(rest[j]);
        var i :| 0 <= i < |rows[1..]| && rows[1..][i] == r;
        assert ByTime(sc)(rows[0], rows[i + 1]);
      }
    }
  }

  /** An ordered journal is read back in its own order: each record that a load accepts, cleaned. */
  lemma LoadedIsCleaned<R(!new), K>(rows: seq<R>, sc: Schema<R, K>)
    requires Lawful(sc) && InOrder(rows, ByTime(sc))
    ensures Loaded(rows, sc) == Cleaned(rows, sc)
  {
    CleanedKeepsOrder(rows, sc);
    SortedIsIdentity(Cleaned(rows, sc), ByTime(sc));
  }

  ghost predicate AllClean<R, K>(rows: seq<R>, sc: Schema<R, K>) {
    forall i :: 0 <= i < |rows| ==> sc.clean(rows[i]) == Some(rows[i])
  }

  lemma {:induction false} CleanedIsIdentity<R(!new), K>(rows: seq<R>, sc: Schema<R, K>)
    requires AllClean(rows, sc)
    ensures Cleaned(rows, sc) == rows
  {
    if rows != [] {
      CleanedIsIdentity(rows[1..], sc);
      assert rows == [rows[0]] + rows[1..];
    }
  }

  /** A journal in order is read back as it was written exactly when no record needs cleaning. */
  lemma LoadedIsIdentityIff<R(!new), K>(rows: seq<R>, sc: Schema<R, K>)
    requires Lawful(sc) && InOrder(rows, ByTime(sc))
    ensures Loaded(rows, sc) == rows <==> AllClean(rows, sc)
  {
    LoadedIsCleaned(rows, sc);
    if AllClean(rows, sc) {
      CleanedIsIdentity(rows, sc);
    } else if Loaded(rows, sc) == rows {
      forall i | 0 <= i < |rows| ensures sc.clean(rows[i]) == Some(rows[i]) { assert rows[i] in Loaded(rows, sc); }
    }
  }

  /** A load makes no second record under a key that no record under another key is cleaned into. */
  lemma {:induction false} CleanedKeepsOnce<R(!new), K>(rows: seq<R>, k: K, sc: Schema<R, K>)
    requires Once(rows, sc.key, k)
    requires forall r :: r in rows && sc.clean(r).Some? && sc.key(sc.clean(r).value) == k ==> sc.key(r) == k
    ensures Once(Cleaned(rows, sc), sc.key, k)
  {
    if rows != [] {
      var rest := Cleaned(rows[1..], sc);
      assert rows == [rows[0]] + rows[1..];
      CleanedKeepsOnce(rows[1..], k, sc);
      forall j | 0 <= j < |rest| && sc.clean(rows[0]).Some? && sc.key(sc.clean(rows[0]).value) == k ensures sc.key(rest[j]) != k {
        assert rest[j] in rest;
        var r :| r in rows[1..] && sc.clean(r) == Some(rest[j]);
        var i :| 0 <= i < |rows[1..]| && rows[1..][i] == r;
        assert rows[i + 1] == r;
      }
    }
  }

  // ---------- Journal updates ----------

  function KeyIsNot<R, K(==)>(key: K, sc: Schema<R, K>): R -> bool {
    x => sc.key(x) != key
  }

  function Without<R(!new), K(==)>(rows: seq<R>, key: K, sc: Schema<R, K>): (kept: seq<R>)
    ensures forall x :: x in kept <==> x in rows && sc.key(x) != key
  {
    Where(rows, KeyIsNot(key, sc))
  }

  /** The list comprehension that drops a key, then the append, then the sort. */
  function Put<R(!new), K(==)>(rows: seq<R>, r: R, sc: Schema<R, K>): seq<R> {
    Sorted(Without(rows, sc.key(r), sc) + [r], ByTime(sc))
  }

  /**
   A write puts the journal in order, leaves one record under the written key and no second one under any
   other, and changes no record with another key.
   */
  lemma PutKeeps<R(!new), K>(rows: seq<R>, r: R, k: K, sc: Schema<R, K>)
    ensures InOrder(Put(rows, r, sc), ByTime(sc))
    ensures k == sc.key(r) || Once(rows, sc.key, k) ==> Once(Put(rows, r, sc), sc.key, k)
    ensures forall x :: x in Put(rows, r, sc) <==> x == r || (x in rows && sc.key(x) != sc.key(r))
  {
    var kept := Without(rows, sc.key(r), sc);
    ByTimeIsOrder(sc);
    SortedIsInOrder(kept + [r], ByTime(sc));
    if k == sc.key(r) || Once(rows, sc.key, k) {
      if k != sc.key(r) { WhereKeepsOnce(rows, KeyIsNot(sc.key(r), sc), sc.key, k); }
      assert forall i :: 0 <= i < |kept| ==> kept[i] in kept;
      SortedKeepsOnce(kept + [r], ByTime(sc), sc.key, k);
    }
  }

  /**
   Where a write puts its record in a journal in order: behind all records that are not younger, the ones of the same
   time included, and the records with other keys keep their order around it.
   */
  lemma PutPlaces<R(!new), K>(rows: seq<R>, r: R, sc: Schema<R, K>) returns (cut: nat)
    requires InOrder(rows, ByTime(sc))
    ensures var kept := Without(rows, sc.key(r), sc);
            && cut <= |kept| && Put(rows, r, sc) == kept[..cut] + [r] + kept[cut..]
            && forall i :: 0 <= i < |kept| ==> (StrLe(sc.at(kept[i]), sc.at(r)) <==> i < cut)
  {
    var kept := Without(rows, sc.key(r), sc);
    ByTimeIsOrder(sc);
    WhereKeepsOrder(rows, KeyIsNot(sc.key(r), sc), ByTime(sc));
    SortedIsIdentity(kept, ByTime(sc));
    assert (kept + [r])[..|kept|] == kept;
    cut := InsertSplits(kept, r, ByTime(sc));
  }
}
