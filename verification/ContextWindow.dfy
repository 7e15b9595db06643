/** Trimming an agent's message history to a budget of characters. */
module ContextWindow {
  import opened PyStrings

  /** A content part counts by its text; anything else by its printed form. */
  datatype Content = Text(text: string) | Parts(parts: seq<string>) | Other(printed: string)

  /** `toolCalls` is the JSON of the tool calls, empty if there are none. */
  datatype Message = Message(role: string, content: Content, toolCalls: string, toolCallId: string, name: string)

  function TotalLength(parts: seq<string>): nat {
    if parts == [] then 0 else |parts[0]| + TotalLength(parts[1..])
  }

  function Labelled(s: string, extra: nat): nat {
    if Strip(s) == "" then 0 else |Strip(s)| + extra
  }

  function Chars(m: Message): nat {
    var metadata := |m.toolCalls| + Labelled(m.toolCallId, 12) + Labelled(m.name, 8);
    match m.content
    case Text(s) => |s| + metadata
    case Parts(parts) => TotalLength(parts) + metadata
    case Other(printed) => |printed| + metadata
  }

  predicate IsSystem(m: Message) {
    Lower(m.role) == "system"
  }

  // ---------- Greedy selection, for any cost ----------

  function Cost<M>(ms: seq<M>, cost: M -> nat): nat {
    if ms == [] then 0 else Cost(ms[..|ms| - 1], cost) + cost(ms[|ms| - 1])
  }

  lemma {:induction false} CostConcat<M>(a: seq<M>, b: seq<M>, cost: M -> nat)
    ensures Cost(a + b, cost) == Cost(a, cost) + Cost(b, cost)
  {
    if b == [] {
      assert a + b == a;
    } else {
      var n := |b| - 1;
      CostConcat(a, b[..n], cost);
      assert (a + b)[..|a| + n] == a + b[..n];
    }
  }

  /** Newest first, every message that still fits. */
  function Greedy<M>(ms: seq<M>, budget: nat, cost: M -> nat): seq<M> {
    if ms == [] then []
    else
      var front, last := ms[..|ms| - 1], ms[|ms| - 1];
      if cost(last) <= budget then Greedy(front, budget - cost(last), cost) + [last] else Greedy(front, budget, cost)
  }

  lemma {:induction false} GreedyFits<M>(ms: seq<M>, budget: nat, cost: M -> nat)
    ensures Cost(Greedy(ms, budget, cost), cost) <= budget
  {
    if ms != [] {
      var front, last := ms[..|ms| - 1], ms[|ms| - 1];
      if cost(last) <= budget {
        var kept := Greedy(front, budget - cost(last), cost);
        GreedyFits(front, budget - cost(last), cost);
        assert (kept + [last])[..|kept|] == kept;
      } else {
        GreedyFits(front, budget, cost);
      }
    }
  }

  /** The choice among the newer messages does not depend on the older ones, which get what is left. */
  lemma {:induction false} GreedySplits<M>(older: seq<M>, newer: seq<M>, budget: nat, cost: M -> nat)
    ensures Cost(Greedy(newer, budget, cost), cost) <= budget
    ensures Greedy(older + newer, budget, cost)
            == Greedy(older, budget - Cost(Greedy(newer, budget, cost), cost), cost) + Greedy(newer, budget, cost)
    decreases |newer|
  {
    GreedyFits(newer, budget, cost);
    if newer == [] {
      assert older + newer == older;
    } else {
      var front, last := newer[..|newer| - 1], newer[|newer| - 1];
      assert (older + newer)[..|older + newer| - 1] == older + front;
      if cost(last) <= budget {
        GreedySplits(older, front, budget - cost(last), cost);
        var kept := Greedy(front, budget - cost(last), cost);
        assert (kept + [last])[..|kept|] == kept;
      } else {
        GreedySplits(older, front, budget, cost);
      }
    }
  }

  /** A message is kept exactly when it fits beside the kept newer ones. */
  lemma GreedyKeepsIff<M>(older: seq<M>, m: M, newer: seq<M>, budget: nat, cost: M -> nat)
    ensures var kept := Greedy(newer, budget, cost);
            var left := budget - Cost(kept, cost);
            && left >= 0
            && Greedy(older + [m] + newer, budget, cost)
               == (if cost(m) <= left then Greedy(older, left - cost(m), cost) + [m] else Greedy(older, left, cost)) + kept
  {
    GreedySplits(older + [m], newer, budget, cost);
    assert (older + [m])[..|older|] == older;
  }

  /** What fits as a whole is kept as a whole. */
  lemma {:induction false} GreedyKeepsAll<M>(ms: seq<M>, budget: nat, cost: M -> nat)
    requires Cost(ms, cost) <= budget
    ensures Greedy(ms, budget, cost) == ms
  {
    if ms != [] {
      GreedyKeepsAll(ms[..|ms| - 1], budget - cost(ms[|ms| - 1]), cost);
      assert ms == ms[..|ms| - 1] + [ms[|ms| - 1]];
    }
  }

  /** `a` is `b` with some elements left out. */
  predicate Subsequence<M(==)>(a: seq<M>, b: seq<M>) {
    if a == [] then true
    else if b == [] then false
    else if a[|a| - 1] == b[|b| - 1] && Subsequence(a[..|a| - 1], b[..|b| - 1]) then true
    else Subsequence(a, b[..|b| - 1])
  }

  lemma {:induction false} GreedyKeepsOrder<M>(ms: seq<M>, budget: nat, cost: M -> nat)
    ensures Subsequence(Greedy(ms, budget, cost), ms)
  {
    if ms != [] {
      var front, last := ms[..|ms| - 1], ms[|ms| - 1];
      if cost(last) <= budget {
        GreedyKeepsOrder(front, budget - cost(last), cost);
        var kept := Greedy(front, budget - cost(last), cost);
        assert (kept + [last])[..|kept|] == kept;
      } else {
        GreedyKeepsOrder(front, budget, cost);
      }
    }
  }

  // ---------- Trimming ----------

  function Where<M>(ms: seq<M>, p: M -> bool): (r: seq<M>)
    ensures forall i :: 0 <= i < |r| ==> p(r[i])
  {
    if ms == [] then []
    else Where(ms[..|ms| - 1], p) + (if p(ms[|ms| - 1]) then [ms[|ms| - 1]] else [])
  }

  function Not<M>(p: M -> bool): M -> bool {
    m => !p(m)
  }

  function Minus(a: nat, b: nat): nat {
    if a < b then 0 else a - b
  }

  /** What is left for the messages between the system messages and the last one. */
  function Left<M>(system: seq<M>, last: M, budget: nat, cost: M -> nat): nat {
    Minus(Minus(budget, Cost(system, cost)), cost(last))
  }

  function Trimmed<M>(ms: seq<M>, budget: nat, system: M -> bool, cost: M -> nat): seq<M> {
    var head, rest := Where(ms, system), Where(ms, Not(system));
    if ms == [] || budget == 0 || rest == [] then ms
    else
      var middle, last := rest[..|rest| - 1], rest[|rest| - 1];
      head + Greedy(middle, Left(head, last, budget, cost), cost) + [last]
  }

  lemma {:induction false} WhereConcat<M>(a: seq<M>, b: seq<M>, p: M -> bool)
    ensures Where(a + b, p) == Where(a, p) + Where(b, p)
  {
    if b == [] {
      assert a + b == a;
    } else {
      var n := |b| - 1;
      WhereConcat(a, b[..n], p);
      assert (a + b)[..|a| + n] == a + b[..n];
    }
  }

  lemma {:induction false} WhereAll<M>(ms: seq<M>, p: M -> bool)
    ensures (forall i :: 0 <= i < |ms| ==> p(ms[i])) ==> Where(ms, p) == ms
    ensures (forall i :: 0 <= i < |ms| ==> !p(ms[i])) ==> Where(ms, p) == []
  {
    if ms != [] {
      WhereAll(ms[..|ms| - 1], p);
      assert ms == ms[..|ms| - 1] + [ms[|ms| - 1]];
    }
  }

  lemma {:induction false} GreedyIsWithin<M>(ms: seq<M>, budget: nat, cost: M -> nat, p: M -> bool)
    requires forall i :: 0 <= i < |ms| ==> p(ms[i])
    ensures forall i :: 0 <= i < |Greedy(ms, budget, cost)| ==> p(Greedy(ms, budget, cost)[i])
  {
    if ms != [] {
      var front, last := ms[..|ms| - 1], ms[|ms| - 1];
      GreedyIsWithin(front, if cost(last) <= budget then budget - cost(last) else budget, cost, p);
    }
  }

  /** Putting the system messages first separates the two kinds. */
  lemma WhereOfParts<M>(head: seq<M>, tail: seq<M>, p: M -> bool)
    requires forall i :: 0 <= i < |head| ==> p(head[i])
    requires forall i :: 0 <= i < |tail| ==> !p(tail[i])
    ensures Where(head + tail, p) == head && Where(head + tail, Not(p)) == tail
  {
    WhereConcat(head, tail, p);
    WhereConcat(head, tail, Not(p));
    WhereAll(head, p);
    WhereAll(tail, p);
    WhereAll(head, Not(p));
    WhereAll(tail, Not(p));
  }

  /** With a budget and a message that is not a system one, the parts of the result. */
  lemma TrimmedParts<M>(ms: seq<M>, budget: nat, system: M -> bool, cost: M -> nat) returns (kept: seq<M>, last: M)
    requires budget > 0 && Where(ms, Not(system)) != []
    ensures var rest := Where(ms, Not(system));
            && last == rest[|rest| - 1]
            && kept == Greedy(rest[..|rest| - 1], Left(Where(ms, system), last, budget, cost), cost)
    ensures Trimmed(ms, budget, system, cost) == Where(ms, system) + (kept + [last])
    ensures Where(Trimmed(ms, budget, system, cost), system) == Where(ms, system)
    ensures Where(Trimmed(ms, budget, system, cost), Not(system)) == kept + [last]
  {
    var head, rest := Where(ms, system), Where(ms, Not(system));
    last := rest[|rest| - 1];
    kept := Greedy(rest[..|rest| - 1], Left(head, last, budget, cost), cost);
    GreedyIsWithin(rest[..|rest| - 1], Left(head, last, budget, cost), cost, Not(system));
    assert head + kept + [last] == head + (kept + [last]);
    WhereOfParts(head, kept + [last], system);
  }

  /** Every system message and the last other one stay; the other ones that stay are in their old order, the last of them last. */
  lemma TrimKeeps<M>(ms: seq<M>, budget: nat, system: M -> bool, cost: M -> nat)
    ensures Where(Trimmed(ms, budget, system, cost), system) == Where(ms, system)
    ensures Subsequence(Where(Trimmed(ms, budget, system, cost), Not(system)), Where(ms, Not(system)))
    ensures var rest, after := Where(ms, Not(system)), Where(Trimmed(ms, budget, system, cost), Not(system));
            rest != [] ==> after != [] && after[|after| - 1] == rest[|rest| - 1]
  {
    var rest := Where(ms, Not(system));
    if budget == 0 || rest == [] {
      SubsequenceOfItself(rest);
    } else {
      var kept, last := TrimmedParts(ms, budget, system, cost);
      GreedyKeepsOrder(rest[..|rest| - 1], Left(Where(ms, system), last, budget, cost), cost);
      assert (kept + [last])[..|kept|] == kept;
    }
  }

  lemma {:induction false} SubsequenceOfItself<M>(ms: seq<M>)
    ensures Subsequence(ms, ms)
  {
    if ms != [] { SubsequenceOfItself(ms[..|ms| - 1]); }
  }

  function Max(a: nat, b: nat): nat {
    if a < b then b else a
  }

  /** Trimming the result again changes nothing. */
  lemma TrimTwice<M>(ms: seq<M>, budget: nat, system: M -> bool, cost: M -> nat)
    ensures Trimmed(Trimmed(ms, budget, system, cost), budget, system, cost) == Trimmed(ms, budget, system, cost)
  {
    var rest := Where(ms, Not(system));
    if budget != 0 && rest != [] {
      var kept, last := TrimmedParts(ms, budget, system, cost);
      GreedyFits(rest[..|rest| - 1], Left(Where(ms, system), last, budget, cost), cost);
      GreedyKeepsAll(kept, Left(Where(ms, system), last, budget, cost), cost);
      var _, _ := TrimmedParts(Trimmed(ms, budget, system, cost), budget, system, cost);
      assert (kept + [last])[..|kept|] == kept;
    }
  }

  lemma TrimmedIs<M>(ms: seq<M>, middle: seq<M>, last: M, budget: nat, system: M -> bool, cost: M -> nat)
    requires budget > 0 && Where(ms, Not(system)) == middle + [last]
    ensures Trimmed(ms, budget, system, cost)
            == Where(ms, system) + Greedy(middle, Left(Where(ms, system), last, budget, cost), cost) + [last]
  {
    var rest := middle + [last];
    assert rest[..|rest| - 1] == middle && rest[|rest| - 1] == last;
  }

  lemma CostOfParts<M>(head: seq<M>, kept: seq<M>, last: M, cost: M -> nat)
    ensures Cost(head + kept + [last], cost) == Cost(head, cost) + Cost(kept, cost) + cost(last)
  {
    CostConcat(head, kept, cost);
    assert (head + kept + [last])[..|head + kept|] == head + kept;
  }

  lemma PartsFit<M>(head: seq<M>, middle: seq<M>, last: M, budget: nat, cost: M -> nat)
    ensures var kept := Greedy(middle, Left(head, last, budget, cost), cost);
            Cost(head + kept + [last], cost) <= Max(budget, Cost(head, cost) + cost(last))
  {
    var room := Left(head, last, budget, cost);
    GreedyFits(middle, room, cost);
    CostOfParts(head, Greedy(middle, room, cost), last, cost);
  }

  /** The result costs at most the budget, or what the messages cost that have to stay. */
  lemma TrimFits<M>(ms: seq<M>, middle: seq<M>, last: M, budget: nat, system: M -> bool, cost: M -> nat)
    requires budget > 0 && Where(ms, Not(system)) == middle + [last]
    ensures Cost(Trimmed(ms, budget, system, cost), cost) <= Max(budget, Cost(Where(ms, system), cost) + cost(last))
  {
    var head := Where(ms, system);
    var kept := Greedy(middle, Left(head, last, budget, cost), cost);
    assert Trimmed(ms, budget, system, cost) == head + kept + [last] by { TrimmedIs(ms, middle, last, budget, system, cost); }
    PartsFit(head, middle, last, budget, cost);
  }

  /** A message between is kept exactly when it fits into what the system messages, the last one and the kept newer ones leave. */
  lemma TrimIsNewestFirst<M>(ms: seq<M>, older: seq<M>, m: M, newer: seq<M>, last: M, budget: nat, system: M -> bool, cost: M -> nat)
    requires budget > 0 && Where(ms, Not(system)) == older + [m] + newer + [last]
    ensures var room := Left(Where(ms, system), last, budget, cost);
            var kept := Greedy(newer, room, cost);
            var left := room - Cost(kept, cost);
            var before := if left < 0 then [] else if cost(m) <= left then Greedy(older, left - cost(m), cost) + [m] else Greedy(older, left, cost);
            left >= 0 && Trimmed(ms, budget, system, cost) == Where(ms, system) + (before + kept) + [last]
  {
    TrimmedIs(ms, older + [m] + newer, last, budget, system, cost);
    GreedyKeepsIff(older, m, newer, Left(Where(ms, system), last, budget, cost), cost);
  }

  // ---------- The code ----------

  lemma GreedyNext<M>(ms: seq<M>, i: nat, budget: nat, kept: seq<M>, cost: M -> nat)
    requires i < |ms|
    ensures Greedy(ms[..i + 1], budget, cost) + kept
            == if cost(ms[i]) <= budget then Greedy(ms[..i], budget - cost(ms[i]), cost) + ([ms[i]] + kept)
               else Greedy(ms[..i], budget, cost) + kept
  {
    assert ms[..i + 1][..i] == ms[..i] && ms[..i + 1][i] == ms[i];
  }

  /** Walks backwards and keeps what fits. */
  method Fitting<M>(middle: seq<M>, budget: nat, cost: M -> nat) returns (kept: seq<M>)
    ensures kept == Greedy(middle, budget, cost)
  {
    kept := [];
    var remaining := budget;
    var i := |middle|;
    assert middle[..i] == middle;
    while i > 0
      invariant 0 <= i <= |middle|
      invariant Greedy(middle[..i], remaining, cost) + kept == Greedy(middle, budget, cost)
    {
      GreedyNext(middle, i - 1, remaining, kept, cost);
      i := i - 1;
      var c := cost(middle[i]);
      if remaining >= c {
        remaining := remaining - c;
        kept := [middle[i]] + kept;
      }
    }
  }

  class ContextWindowManager {
    const budgetChars: nat

    /** A budget in tokens counts four characters each; without any budget there is no limit. */
    constructor (chars: int, tokens: int)
      ensures budgetChars == if chars > 0 then chars else if tokens > 0 then 4 * tokens else 0
    {
      budgetChars := if chars > 0 then chars else if tokens > 0 then tokens * 4 else 0;
    }

    method Trim(messages: seq<Message>) returns (kept: seq<Message>)
      ensures kept == Trimmed(messages, budgetChars, IsSystem, Chars)
    {
      var system, nonSystem := Where(messages, IsSystem), Where(messages, Not(IsSystem));
      if messages == [] || budgetChars <= 0 || nonSystem == [] { return messages; }
      var last, middle := nonSystem[|nonSystem| - 1], nonSystem[..|nonSystem| - 1];
      var remaining := Minus(Minus(budgetChars, Cost(system, Chars)), Chars(last));
      var keptMiddle := Fitting(middle, remaining, Chars);
      kept := system + keptMiddle + [last];
    }
  }
}
