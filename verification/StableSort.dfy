/** Python's stable sort, as repeated insertion at the end, and what it keeps. */
module StableSort {
  import opened Sequences

  ghost predicate IsOrder<R(!new)>(le: Order<R>) {
    && (forall a, b :: le(a, b) || le(b, a))
    && (forall a, b, c :: le(a, b) && le(b, c) ==> le(a, c))
  }

  /** `r` goes after everything that is not greater than it. */
  function Insert<R(!new)>(sorted: seq<R>, r: R, le: Order<R>): (longer: seq<R>)
    ensures multiset(longer) == multiset(sorted) + multiset{r}
    ensures forall x :: x in longer <==> x in sorted || x == r
    ensures |longer| == |sorted| + 1
  {
    if sorted == [] then [r]
    else
      var front, last := sorted[..|sorted| - 1], sorted[|sorted| - 1];
      assert sorted == front + [last];
      if le(last, r) then sorted + [r] else Insert(front, r, le) + [last]
  }

  function Sorted<R(!new)>(rows: seq<R>, le: Order<R>): (sorted: seq<R>)
    ensures multiset(sorted) == multiset(rows)
    ensures forall x :: x in sorted <==> x in rows
    ensures |sorted| == |rows|
  {
    if rows == [] then []
    else
      assert rows == rows[..|rows| - 1] + [rows[|rows| - 1]];
      Insert(Sorted(rows[..|rows| - 1], le), rows[|rows| - 1], le)
  }

  lemma {:induction false} InsertSorts<R(!new)>(sorted: seq<R>, r: R, le: Order<R>)
    requires IsOrder(le) && InOrder(sorted, le)
    ensures InOrder(Insert(sorted, r, le), le)
    decreases |sorted|
  {
    if sorted != [] {
      var front, last := sorted[..|sorted| - 1], sorted[|sorted| - 1];
      if le(last, r) {
        forall i | 0 <= i < |sorted| ensures le(sorted[i], r) {
          assert i < |sorted| - 1 ==> le(sorted[i], last);
        }
      } else {
        InsertSorts(front, r, le);
        var inner := Insert(front, r, le);
        forall i | 0 <= i < |inner| ensures le(inner[i], last) {
          assert inner[i] in inner;
          if inner[i] in front {
            var k :| 0 <= k < |front| && front[k] == inner[i];
            assert sorted[k] == front[k];
          }
        }
      }
    }
  }

  lemma {:induction false} SortedIsInOrder<R(!new)>(rows: seq<R>, le: Order<R>)
    requires IsOrder(le)
    ensures InOrder(Sorted(rows, le), le)
    decreases |rows|
  {
    if rows != [] {
      SortedIsInOrder(rows[..|rows| - 1], le);
      InsertSorts(Sorted(rows[..|rows| - 1], le), rows[|rows| - 1], le);
    }
  }

  lemma {:induction false} InsertKeepsOnce<R(!new), K>(sorted: seq<R>, r: R, le: Order<R>, key: R -> K, k: K)
    requires Once(sorted, key, k) && (key(r) == k ==> forall x :: x in sorted ==> key(x) != k)
    ensures Once(Insert(sorted, r, le), key, k)
    decreases |sorted|
  {
    if sorted != [] {
      var front, last := sorted[..|sorted| - 1], sorted[|sorted| - 1];
      assert sorted == front + [last];
      if !le(last, r) {
        InsertKeepsOnce(front, r, le, key, k);
        var inner := Insert(front, r, le);
        forall i | 0 <= i < |inner| && key(last) == k ensures key(inner[i]) != k {
          assert inner[i] in inner;
          if inner[i] in front {
            var j :| 0 <= j < |front| && front[j] == inner[i];
            assert sorted[j] == front[j];
          }
        }
      }
    }
  }

  lemma {:induction false} SortedKeepsOnce<R(!new), K>(rows: seq<R>, le: Order<R>, key: R -> K, k: K)
    requires Once(rows, key, k)
    ensures Once(Sorted(rows, le), key, k)
    decreases |rows|
  {
    if rows != [] {
      var front, last := rows[..|rows| - 1], rows[|rows| - 1];
      SortedKeepsOnce(front, le, key, k);
      forall x | x in Sorted(front, le) && key(last) == k ensures key(x) != k {
        var j :| 0 <= j < |front| && front[j] == x;
        assert rows[j] == x;
      }
      InsertKeepsOnce(Sorted(front, le), last, le, key, k);
    }
  }

  lemma SortedKeepsDistinct<R(!new), K>(rows: seq<R>, le: Order<R>, key: R -> K)
    requires Distinct(rows, key)
    ensures Distinct(Sorted(rows, le), key)
  {
    var sorted := Sorted(rows, le);
    forall i, j | 0 <= i < j < |sorted| ensures key(sorted[i]) != key(sorted[j]) {
      SortedKeepsOnce(rows, le, key, key(sorted[i]));
    }
  }

  lemma SpliceLast<R>(front: seq<R>, last: R, r: R, cut: nat)
    requires cut <= |front|
    ensures var all := front + [last]; front[..cut] + [r] + front[cut..] + [last] == all[..cut] + [r] + all[cut..]
  {
  }

  lemma AllBefore<R(!new)>(sorted: seq<R>, r: R, le: Order<R>)
    requires IsOrder(le) && InOrder(sorted, le) && sorted != [] && le(sorted[|sorted| - 1], r)
    ensures forall i :: 0 <= i < |sorted| ==> le(sorted[i], r)
  {
  }

  /** Insertion splits an ordered list: everything up to the new element is not greater, everything behind it is. */
  lemma {:induction false} InsertSplits<R(!new)>(sorted: seq<R>, r: R, le: Order<R>) returns (cut: nat)
    requires IsOrder(le) && InOrder(sorted, le)
    ensures cut <= |sorted| && Insert(sorted, r, le) == sorted[..cut] + [r] + sorted[cut..]
    ensures forall i :: 0 <= i < |sorted| ==> (le(sorted[i], r) <==> i < cut)
    decreases |sorted|
  {
    cut := |sorted|;
    if sorted != [] && le(sorted[|sorted| - 1], r) {
      AllBefore(sorted, r, le);
    } else if sorted != [] {
      var front, last := sorted[..|sorted| - 1], sorted[|sorted| - 1];
      cut := InsertSplits(front, r, le);
      assert sorted == front + [last];
      SpliceLast(front, last, r, cut);
    }
  }

  /** A list already in order is left as it is. */
  lemma {:induction false} SortedIsIdentity<R(!new)>(rows: seq<R>, le: Order<R>)
    requires InOrder(rows, le)
    ensures Sorted(rows, le) == rows
    decreases |rows|
  {
    if rows != [] {
      var front := rows[..|rows| - 1];
      SortedIsIdentity(front, le);
      assert rows == front + [rows[|rows| - 1]];
      if front != [] { assert rows[|rows| - 2] == front[|front| - 1]; }
    }
  }

  lemma {:induction false} InsertAgrees<R(!new)>(sorted: seq<R>, r: R, le: Order<R>, le2: Order<R>)
    requires forall x :: x in sorted ==> (le(x, r) <==> le2(x, r))
    ensures Insert(sorted, r, le) == Insert(sorted, r, le2)
    decreases |sorted|
  {
    if sorted != [] {
      var front := sorted[..|sorted| - 1];
      assert sorted == front + [sorted[|sorted| - 1]];
      InsertAgrees(front, r, le, le2);
    }
  }

  /** A stable sort compares an element only with those before it: two orders that agree there sort alike. */
  lemma {:induction false} SortedAgrees<R(!new)>(rows: seq<R>, le: Order<R>, le2: Order<R>)
    requires forall i, j :: 0 <= i < j < |rows| ==> (le(rows[i], rows[j]) <==> le2(rows[i], rows[j]))
    ensures Sorted(rows, le) == Sorted(rows, le2)
    decreases |rows|
  {
    if rows != [] {
      var front, n := rows[..|rows| - 1], |rows| - 1;
      SortedAgrees(front, le, le2);
      forall x | x in Sorted(front, le) ensures le(x, rows[n]) <==> le2(x, rows[n]) {
        var i :| 0 <= i < n && front[i] == x;
        assert rows[i] == x;
      }
      InsertAgrees(Sorted(front, le), rows[n], le, le2);
    }
  }

  /** An element that nothing exceeds, appended last, stays last. */
  lemma GreatestStaysLast<R(!new)>(rows: seq<R>, r: R, le: Order<R>)
    requires forall x :: x in rows ==> le(x, r)
    ensures Sorted(rows + [r], le) == Sorted(rows, le) + [r]
  {
    assert (rows + [r])[..|rows|] == rows;
    var s := Sorted(rows, le);
    if s != [] { assert s[|s| - 1] in s; }
  }

  /** The elements that `r` is tied with, in order. */
  function Ties<R>(rows: seq<R>, tied: R -> bool): seq<R> {
    if rows == [] then []
    else Ties(rows[..|rows| - 1], tied) + (if tied(rows[|rows| - 1]) then [rows[|rows| - 1]] else [])
  }

  /** `tied` marks elements that are pairwise not greater than each other. */
  ghost predicate AreTies<R(!new)>(tied: R -> bool, le: Order<R>) {
    forall a, b :: tied(a) && tied(b) ==> le(a, b)
  }

  lemma TiesPush<R>(rows: seq<R>, r: R, tied: R -> bool)
    ensures Ties(rows + [r], tied) == Ties(rows, tied) + (if tied(r) then [r] else [])
  {
    assert (rows + [r])[..|rows|] == rows;
  }

  lemma {:induction false} InsertKeepsTies<R(!new)>(sorted: seq<R>, r: R, le: Order<R>, tied: R -> bool)
    requires AreTies(tied, le)
    ensures Ties(Insert(sorted, r, le), tied) == Ties(sorted, tied) + (if tied(r) then [r] else [])
    decreases |sorted|
  {
    if sorted == [] {
      TiesPush([], r, tied);
      assert [] + [r] == [r];
    } else {
      var front, last := sorted[..|sorted| - 1], sorted[|sorted| - 1];
      assert sorted == front + [last];
      if le(last, r) {
        TiesPush(sorted, r, tied);
      } else {
        InsertKeepsTies(front, r, le, tied);
        TiesPush(front, last, tied);
        TiesPush(Insert(front, r, le), last, tied);
        assert tied(last) ==> !tied(r);
      }
    }
  }

  /** Tied elements keep their order. */
  lemma {:induction false} SortedKeepsTies<R(!new)>(rows: seq<R>, le: Order<R>, tied: R -> bool)
    requires AreTies(tied, le)
    ensures Ties(Sorted(rows, le), tied) == Ties(rows, tied)
    decreases |rows|
  {
    if rows != [] {
      SortedKeepsTies(rows[..|rows| - 1], le, tied);
      InsertKeepsTies(Sorted(rows[..|rows| - 1], le), rows[|rows| - 1], le, tied);
    }
  }
}
