/** Filters and orders of sequences, and runs as sequences of states. */
module Sequences {

  type Order<!R> = (R, R) -> bool

  /** The elements that pass, in order. */
  function Where<R(!new)>(rows: seq<R>, p: R -> bool): (kept: seq<R>)
    ensures forall x :: x in kept <==> x in rows && p(x)
    ensures |kept| <= |rows|
  {
    if rows == [] then []
    else
      assert rows == rows[..|rows| - 1] + [rows[|rows| - 1]];
      Where(rows[..|rows| - 1], p) + (if p(rows[|rows| - 1]) then [rows[|rows| - 1]] else [])
  }

  /** Every two elements are related as they stand; the relation need not be an order. */
  ghost predicate InOrder<R>(rows: seq<R>, le: Order<R>) {
    forall i, j :: 0 <= i < j < |rows| ==> le(rows[i], rows[j])
  }

  /** At most one element has the key. */
  ghost predicate Once<R, K>(rows: seq<R>, key: R -> K, k: K) {
    forall i, j :: 0 <= i < j < |rows| && key(rows[i]) == k ==> key(rows[j]) != k
  }

  ghost predicate Distinct<R, K>(rows: seq<R>, key: R -> K) {
    forall i, j :: 0 <= i < j < |rows| ==> key(rows[i]) != key(rows[j])
  }

  lemma {:induction false} WhereKeepsOrder<R(!new)>(rows: seq<R>, p: R -> bool, le: Order<R>)
    requires InOrder(rows, le)
    ensures InOrder(Where(rows, p), le)
    decreases |rows|
  {
    if rows != [] {
      var front, n := rows[..|rows| - 1], |rows| - 1;
      var kept := Where(front, p);
      WhereKeepsOrder(front, p, le);
      forall i | 0 <= i < |kept| ensures le(kept[i], rows[n]) {
        assert kept[i] in kept;
        var j :| 0 <= j < n && front[j] == kept[i];
        assert rows[j] == front[j];
      }
    }
  }

  lemma WhereKeepsOnce<R(!new), K>(rows: seq<R>, p: R -> bool, key: R -> K, k: K)
    requires Once(rows, key, k)
    ensures Once(Where(rows, p), key, k)
  {
    var apart := (a, b) => key(a) == k ==> key(b) != k;
    assert InOrder(rows, apart);
    WhereKeepsOrder(rows, p, apart);
    assert forall i, j :: 0 <= i < j < |Where(rows, p)| ==> apart(Where(rows, p)[i], Where(rows, p)[j]);
  }

  lemma WherePush<R(!new)>(rows: seq<R>, x: R, p: R -> bool)
    ensures Where(rows + [x], p) == Where(rows, p) + if p(x) then [x] else []
  {
    assert (rows + [x])[..|rows|] == rows;
  }

  /** Where an element stands last, or -1. */
  function LastOf<R(==)>(rows: seq<R>, x: R): (i: int)
    ensures -1 <= i < |rows|
    ensures i >= 0 ==> rows[i] == x
  {
    if rows == [] then -1
    else if rows[|rows| - 1] == x then |rows| - 1
    else LastOf(rows[..|rows| - 1], x)
  }

  lemma {:induction false} LastIsLast<R>(rows: seq<R>, i: nat)
    requires i < |rows|
    ensures LastOf(rows, rows[i]) >= i
    decreases |rows|
  {
    if rows[|rows| - 1] != rows[i] { LastIsLast(rows[..|rows| - 1], i); }
  }

  lemma LastOfPush<R>(rows: seq<R>, y: R, x: R)
    ensures LastOf(rows + [y], x) == if x == y then |rows| else LastOf(rows, x)
  {
    assert (rows + [y])[..|rows|] == rows;
  }

  lemma {:induction false} LastOfTail<R>(rows: seq<R>, x: R)
    requires rows != []
    ensures LastOf(rows[1..], x) == if LastOf(rows, x) < 1 then -1 else LastOf(rows, x) - 1
    decreases |rows|
  {
    var n := |rows| - 1;
    if n > 0 {
      assert rows[1..][n - 1] == rows[n] && rows[1..][..n - 1] == rows[..n][1..];
      if rows[n] != x { LastOfTail(rows[..n], x); }
    }
  }

  /** What a relation keeps from state to state it keeps along a run. */
  lemma {:induction false} KeptAlong<W, O>(ws: seq<W>, ops: seq<O>, step: (W, O, W) -> bool, inv: W -> bool, n: nat)
    requires |ws| == |ops| + 1 && n < |ws| && inv(ws[0])
    requires forall i {:trigger ops[i]} :: 0 <= i < |ops| ==> (inv(ws[i]) && step(ws[i], ops[i], ws[i + 1]) ==> inv(ws[i + 1]))
    requires forall i {:trigger ops[i]} :: 0 <= i < |ops| ==> step(ws[i], ops[i], ws[i + 1])
    ensures inv(ws[n])
  {
    if n > 0 {
      KeptAlong(ws, ops, step, inv, n - 1);
      assert step(ws[n - 1], ops[n - 1], ws[n]);
    }
  }

  /** What the steps from state `m` to state `n` add up to. */
  ghost function Gathered<W, O, T>(ws: seq<W>, ops: seq<O>, adds: (W, O, W) -> set<T>, m: nat, n: nat): set<T>
    requires m <= n < |ws| == |ops| + 1
  {
    if n == m then {} else Gathered(ws, ops, adds, m, n - 1) + adds(ws[n - 1], ops[n - 1], ws[n])
  }

  lemma {:induction false} KeptWithGathered<W, O, T>(
      ws: seq<W>, ops: seq<O>, adds: (W, O, W) -> set<T>, inv: (W, set<T>) -> bool, m: nat, n: nat)
    requires m <= n < |ws| == |ops| + 1 && inv(ws[m], {})
    requires forall i, others {:trigger ops[i], inv(ws[i], others)} ::
               m <= i < |ops| && inv(ws[i], others) ==> inv(ws[i + 1], others + adds(ws[i], ops[i], ws[i + 1]))
    ensures inv(ws[n], Gathered(ws, ops, adds, m, n))
    decreases n
  {
    if n > m {
      KeptWithGathered(ws, ops, adds, inv, m, n - 1);
      assert inv(ws[n - 1], Gathered(ws, ops, adds, m, n - 1));
      var op := ops[n - 1];
    }
  }
}
