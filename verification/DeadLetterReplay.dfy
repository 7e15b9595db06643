/** Replaying dead letters one by one: what each step takes out of the queue and what it puts back. */
module DeadLetterReplay {
  import opened Wrappers
  import opened PyStrings
  import opened Events
  import opened BusQueue
  import IC = IdempotencyCache
  import IR = IdempotencyRuns
  import opened AtMostOnce
  import opened Delivery

  /** What became of one matched dead letter; `event` is the one that was drained for it. */
  datatype Fate =
    | Missing
    | Skipped(event: OutboundEvent)
    | Hushed(event: OutboundEvent)
    | Resent(event: OutboundEvent)
    | FailedAgain(event: OutboundEvent)

  /** The filter that looks for a matched event again. */
  function SameLetter(e: OutboundEvent, sha: Digest): Filter {
    Filter(e.channel, e.deadLetterReason, e.sessionId, SenderKey(e, sha)).ForDrain()
  }

  function FateOf(v: Verdict, pending: OutboundEvent): Fate {
    match v
    case Suppressed(_) => Hushed(pending)
    case Lost => FailedAgain(pending)
    case _ => Resent(pending)
  }

  /** How the manager publishes and sends an event. */
  type Publisher = (Office, OutboundEvent) -> (Office, Verdict)

  function Publishes(u: Setup): Publisher {
    (o, e) => AfterPublish(o, e, u)
  }

  /** The replay of one matched event; `same` finds it, or one like it, in the queue again. */
  function ReplayNext(o: Office, same: OutboundEvent -> bool, publish: Publisher, u: Setup): (Office, Fate) {
    var drained := Selected(o.dead, same, 1);
    var o' := o.(dead := Kept(o.dead, same, 1));
    if drained == [] then (o', Missing)
    else if drained[0].channel !in u.channels then (o', Skipped(drained[0]))
    else
      var (after, v) := publish(o', Revived(drained[0]));
      (after, FateOf(v, drained[0]))
  }

  // ---------- Counting events ----------

  function Count(es: seq<OutboundEvent>, c: OutboundEvent -> bool): nat {
    if es == [] then 0 else (if c(es[0]) then 1 else 0) + Count(es[1..], c)
  }

  lemma {:induction false} CountConcat(a: seq<OutboundEvent>, b: seq<OutboundEvent>, c: OutboundEvent -> bool)
    ensures Count(a + b, c) == Count(a, c) + Count(b, c)
  {
    if a == [] {
      assert a + b == b;
    } else {
      CountConcat(a[1..], b, c);
      assert (a + b)[1..] == a[1..] + b;
    }
  }

  /** Draining takes the first match out and nothing else. */
  lemma {:induction false} DrainTakesOne(q: seq<OutboundEvent>, p: OutboundEvent -> bool, c: OutboundEvent -> bool)
    ensures var drained, kept := Selected(q, p, 1), Kept(q, p, 1);
            && |drained| <= 1 && |drained| + |kept| == |q|
            && Count(drained, c) + Count(kept, c) == Count(q, c)
  {
    if q != [] {
      var x, rest := q[0], q[1..];
      if p(x) {
        assert Selected(q, p, 1) == [x] && Kept(q, p, 1) == rest;
      } else {
        DrainTakesOne(rest, p, c);
        CountConcat([x], Kept(rest, p, 1), c);
      }
    }
  }

  lemma {:induction false} DrainFinds(q: seq<OutboundEvent>, p: OutboundEvent -> bool)
    ensures Selected(q, p, 1) != [] <==> Count(q, p) > 0
    ensures Selected(q, p, 1) == [] ==> Kept(q, p, 1) == q
  {
    if q != [] && !p(q[0]) {
      DrainFinds(q[1..], p);
      assert q == [q[0]] + q[1..];
    }
  }

  lemma {:induction false} MatchingIsWithin(q: seq<OutboundEvent>, p: OutboundEvent -> bool, c: OutboundEvent -> bool)
    ensures Count(Matching(q, p), c) <= Count(q, c)
  {
    if q != [] {
      MatchingIsWithin(q[1..], p, c);
      CountConcat(if p(q[0]) then [q[0]] else [], Matching(q[1..], p), c);
    }
  }

  // ---------- Conservation ----------

  /** The drained event, or nothing. */
  function Drained(fate: Fate): seq<OutboundEvent> {
    if fate.Missing? then [] else [fate.event]
  }

  /** A failed event goes back. */
  function Returned(fate: Fate): seq<OutboundEvent> {
    if fate.FailedAgain? then [fate.event] else []
  }

  /** A publisher puts a lost event back at the end of the queue, still `c` or not, and changes nothing else there. */
  ghost predicate KeepsLetters(o: Office, e: OutboundEvent, after: Office, v: Verdict, c: OutboundEvent -> bool) {
    if v.Lost?
    then |after.dead| == |o.dead| + 1 && after.dead[..|o.dead|] == o.dead && c(after.dead[|o.dead|]) == c(e)
    else after.dead == o.dead
  }

  ghost predicate IsCareful(publish: Publisher, c: OutboundEvent -> bool) {
    forall o, e :: KeepsLetters(o, e, publish(o, Revived(e)).0, publish(o, Revived(e)).1, c)
  }

  lemma PublishBalances(o: Office, e: OutboundEvent, after: Office, v: Verdict, c: OutboundEvent -> bool)
    requires KeepsLetters(o, e, after, v, c)
    ensures |after.dead| == |o.dead| + (if v.Lost? then 1 else 0)
    ensures Count(after.dead, c) == Count(o.dead, c) + if v.Lost? then Count([e], c) else 0
  {
    if v.Lost? {
      var d := after.dead[|o.dead|];
      assert after.dead == o.dead + [d];
      CountConcat(o.dead, [d], c);
    }
  }

  ghost predicate TurnBalances(o: Office, after: Office, fate: Fate, c: OutboundEvent -> bool) {
    && |after.dead| + |Drained(fate)| == |o.dead| + |Returned(fate)|
    && Count(after.dead, c) + Count(Drained(fate), c) == Count(o.dead, c) + Count(Returned(fate), c)
  }

  /** One step of a replay moves one event out of the queue, and a failed one back in. */
  lemma ReplayNextConserves(o: Office, same: OutboundEvent -> bool, publish: Publisher, c: OutboundEvent -> bool, u: Setup)
    requires IsCareful(publish, c)
    ensures var (after, fate) := ReplayNext(o, same, publish, u); TurnBalances(o, after, fate, c)
  {
    var drained := Selected(o.dead, same, 1);
    DrainTakesOne(o.dead, same, c);
    if drained != [] {
      assert drained == [drained[0]];
      if drained[0].channel in u.channels {
        var mid := o.(dead := Kept(o.dead, same, 1));
        var (after, v) := publish(mid, Revived(drained[0]));
        PublishBalances(mid, drained[0], after, v, c);
      }
    }
  }

  // ---------- The whole loop ----------

  /** Says of a matched event which events of the queue are taken for it. */
  type Finder = OutboundEvent -> (OutboundEvent -> bool)

  /** What happens to one matched event. */
  type Turn = (Office, OutboundEvent) -> (Office, Fate)

  function Turns(o: Office, matched: seq<OutboundEvent>, n: nat, turn: Turn): (r: (Office, seq<Fate>))
    requires n <= |matched|
    ensures |r.1| == n
  {
    if n == 0 then (o, [])
    else
      var (mid, fates) := Turns(o, matched, n - 1, turn);
      var (after, fate) := turn(mid, matched[n - 1]);
      (after, fates + [fate])
  }

  function TurnOf(find: Finder, publish: Publisher, u: Setup): Turn {
    (o, letter) => ReplayNext(o, find(letter), publish, u)
  }

  /** The first `n` matched events, one after the other. */
  function ReplayFirst(o: Office, matched: seq<OutboundEvent>, n: nat, find: Finder, publish: Publisher, u: Setup): (r: (Office, seq<Fate>))
    requires n <= |matched|
    ensures |r.1| == n
  {
    Turns(o, matched, n, TurnOf(find, publish, u))
  }

  datatype Tally = Tally(replayed: nat, failed: nat, skipped: nat, suppressed: nat, missing: nat)

  function Tallied(fates: seq<Fate>): (t: Tally)
    ensures t.replayed + t.failed + t.skipped + t.suppressed + t.missing == |fates|
  {
    if fates == [] then Tally(0, 0, 0, 0, 0)
    else
      var t := Tallied(fates[..|fates| - 1]);
      match fates[|fates| - 1]
      case Missing => t.(missing := t.missing + 1)
      case Skipped(_) => t.(skipped := t.skipped + 1)
      case Hushed(_) => t.(suppressed := t.suppressed + 1)
      case Resent(_) => t.(replayed := t.replayed + 1)
      case FailedAgain(_) => t.(failed := t.failed + 1)
  }

  /** The events set aside because their channel is gone. */
  function Aside(fates: seq<Fate>): (es: seq<OutboundEvent>)
    ensures |es| == Tallied(fates).skipped
  {
    if fates == [] then []
    else
      var last := fates[|fates| - 1];
      Aside(fates[..|fates| - 1]) + if last.Skipped? then [last.event] else []
  }

  /** The events that left for good: sent, dropped by policy, or suppressed as duplicates. */
  function Gone(fates: seq<Fate>): (es: seq<OutboundEvent>)
    ensures |es| == Tallied(fates).replayed + Tallied(fates).suppressed
  {
    if fates == [] then []
    else
      var last := fates[|fates| - 1];
      Gone(fates[..|fates| - 1]) + if last.Hushed? || last.Resent? then [last.event] else []
  }

  lemma LastFate(fates: seq<Fate>, fate: Fate, c: OutboundEvent -> bool)
    ensures Count(Aside(fates + [fate]), c) + Count(Gone(fates + [fate]), c) + Count(Returned(fate), c)
            == Count(Aside(fates), c) + Count(Gone(fates), c) + Count(Drained(fate), c)
    ensures |Aside(fates + [fate])| + |Gone(fates + [fate])| + |Returned(fate)| == |Aside(fates)| + |Gone(fates)| + |Drained(fate)|
  {
    assert (fates + [fate])[..|fates|] == fates;
    CountConcat(Aside(fates), if fate.Skipped? then [fate.event] else [], c);
    CountConcat(Gone(fates), if fate.Hushed? || fate.Resent? then [fate.event] else [], c);
  }

  /** The letters queued, set aside and gone, and how many of them are `c`. */
  function Total(dead: seq<OutboundEvent>, fates: seq<Fate>, c: OutboundEvent -> bool): (nat, nat) {
    (|dead| + |Aside(fates)| + |Gone(fates)|, Count(dead, c) + Count(Aside(fates), c) + Count(Gone(fates), c))
  }

  lemma TurnKeepsTotal(o: Office, after: Office, fates: seq<Fate>, fate: Fate, c: OutboundEvent -> bool)
    requires TurnBalances(o, after, fate, c)
    ensures Total(after.dead, fates + [fate], c) == Total(o.dead, fates, c)
  {
    LastFate(fates, fate, c);
  }

  /** What no turn changes, no number of turns changes. */
  lemma {:induction false} TurnsKeep<T>(o: Office, matched: seq<OutboundEvent>, n: nat, turn: Turn, measure: (Office, seq<Fate>) -> T)
    requires n <= |matched|
    requires forall o, fates, letter :: measure(turn(o, letter).0, fates + [turn(o, letter).1]) == measure(o, fates)
    ensures measure(Turns(o, matched, n, turn).0, Turns(o, matched, n, turn).1) == measure(o, [])
  {
    if n > 0 { TurnsKeep(o, matched, n - 1, turn, measure); }
  }

  /** Whatever a publisher leaves as it was, the replay conserves: every letter is queued, set aside, or gone for good. */
  lemma ReplayConserves(
      o: Office, matched: seq<OutboundEvent>, n: nat, find: Finder, publish: Publisher, c: OutboundEvent -> bool, u: Setup)
    requires n <= |matched| && IsCareful(publish, c)
    ensures var (after, fates) := ReplayFirst(o, matched, n, find, publish, u);
            && |after.dead| + |Aside(fates)| + |Gone(fates)| == |o.dead|
            && Count(after.dead, c) + Count(Aside(fates), c) + Count(Gone(fates), c) == Count(o.dead, c)
  {
    var turn := TurnOf(find, publish, u);
    var total := (o: Office, fates: seq<Fate>) => Total(o.dead, fates, c);
    forall o, fates, letter
      ensures total(turn(o, letter).0, fates + [turn(o, letter).1]) == total(o, fates)
    {
      ReplayNextConserves(o, find(letter), publish, c, u);
      TurnKeepsTotal(o, turn(o, letter).0, fates, turn(o, letter).1, c);
    }
    TurnsKeep(o, matched, n, turn, total);
  }

  // ---------- Every match gets its turn ----------

  ghost predicate Appends(o: Office, after: Office) {
    |o.dead| <= |after.dead| && after.dead[..|o.dead|] == o.dead
  }

  ghost predicate OnlyAppends(publish: Publisher) {
    forall o, e :: Appends(o, publish(o, Revived(e)).0)
  }

  lemma AppendedCount(o: Office, after: Office, c: OutboundEvent -> bool)
    requires Appends(o, after)
    ensures Count(after.dead, c) >= Count(o.dead, c)
  {
    CountConcat(o.dead, after.dead[|o.dead|..], c);
    assert after.dead == o.dead + after.dead[|o.dead|..];
  }

  lemma ReplayNextLeaves(o: Office, same: OutboundEvent -> bool, publish: Publisher, c: OutboundEvent -> bool, u: Setup)
    requires OnlyAppends(publish)
    ensures var (after, fate) := ReplayNext(o, same, publish, u);
            && Count(after.dead, c) + Count(Drained(fate), c) >= Count(o.dead, c)
            && (fate.Missing? <==> Count(o.dead, same) == 0)
            && (!fate.Missing? ==> same(fate.event))
  {
    var drained := Selected(o.dead, same, 1);
    DrainTakesOne(o.dead, same, c);
    DrainTakesOne(o.dead, same, same);
    DrainFinds(o.dead, same);
    if drained != [] {
      assert drained == [drained[0]];
      DrainMatches(o.dead, same);
      if drained[0].channel in u.channels {
        var mid := o.(dead := Kept(o.dead, same, 1));
        AppendedCount(mid, publish(mid, Revived(drained[0])).0, c);
      }
    }
  }

  lemma {:induction false} DrainMatches(q: seq<OutboundEvent>, p: OutboundEvent -> bool)
    requires Selected(q, p, 1) != []
    ensures p(Selected(q, p, 1)[0])
  {
    if !p(q[0]) { DrainMatches(q[1..], p); }
  }

  lemma {:induction false} CountCongruent(es: seq<OutboundEvent>, c: OutboundEvent -> bool, d: OutboundEvent -> bool)
    requires forall e :: c(e) == d(e)
    ensures Count(es, c) == Count(es, d)
  {
    if es != [] { CountCongruent(es[1..], c, d); }
  }

  /** Finding by address: an event is taken for another exactly when it has its address. */
  ghost predicate FindsByAddress<A(!new)>(find: Finder, e: OutboundEvent, address: OutboundEvent -> A) {
    forall d :: find(e)(d) <==> address(d) == address(e)
  }

  function At<A(==)>(a: A, address: OutboundEvent -> A): OutboundEvent -> bool {
    e => address(e) == a
  }

  /** The queue still holds, address by address, at least what remains to be replayed. */
  ghost predicate Enough<A(!new)>(queue: seq<OutboundEvent>, rest: seq<OutboundEvent>, address: OutboundEvent -> A) {
    forall a :: Count(rest, At(a, address)) <= Count(queue, At(a, address))
  }

  lemma NextIsFound<A(!new)>(o: Office, rest: seq<OutboundEvent>, find: Finder, publish: Publisher, address: OutboundEvent -> A, u: Setup)
    requires rest != [] && OnlyAppends(publish) && FindsByAddress(find, rest[0], address)
    requires Enough(o.dead, rest, address)
    ensures var (after, fate) := ReplayNext(o, find(rest[0]), publish, u);
            !fate.Missing? && Enough(after.dead, rest[1..], address)
  {
    var (after, fate) := ReplayNext(o, find(rest[0]), publish, u);
    var here := At(address(rest[0]), address);
    CountCongruent(o.dead, find(rest[0]), here);
    assert Count(rest, here) > 0;
    ReplayNextLeaves(o, find(rest[0]), publish, here, u);
    forall a ensures Count(rest[1..], At(a, address)) <= Count(after.dead, At(a, address)) {
      ReplayNextLeaves(o, find(rest[0]), publish, At(a, address), u);
    }
  }

  /** When the matched events are found by their addresses, each of them gets its turn. */
  lemma {:induction false} EveryMatchHasItsTurn<A(!new)>(
      o: Office, matched: seq<OutboundEvent>, n: nat, find: Finder, publish: Publisher, address: OutboundEvent -> A, u: Setup)
    requires n <= |matched| && OnlyAppends(publish) && forall i :: 0 <= i < |matched| ==> FindsByAddress(find, matched[i], address)
    requires Enough(o.dead, matched, address)
    ensures var (after, fates) := ReplayFirst(o, matched, n, find, publish, u);
            Enough(after.dead, matched[n..], address) && Tallied(fates).missing == 0
  {
    if n == 0 {
      assert matched[0..] == matched;
    } else {
      var (mid, fates) := ReplayFirst(o, matched, n - 1, find, publish, u);
      EveryMatchHasItsTurn(o, matched, n - 1, find, publish, address, u);
      assert FindsByAddress(find, matched[n - 1], address);
      NextIsFound(mid, matched[n - 1..], find, publish, address, u);
      assert matched[n - 1..][1..] == matched[n..];
      var fate := ReplayNext(mid, find(matched[n - 1]), publish, u).1;
      assert (fates + [fate])[..n - 1] == fates;
    }
  }

  // ---------- Keys and addresses ----------

  function WithKey(k: IC.Key, sha: Digest): OutboundEvent -> bool {
    e => IC.Key(BusKey(e, sha)) == k
  }

  lemma ManagerKeepsKeys(u: Setup, k: IC.Key)
    ensures IsCareful(Publishes(u), WithKey(k, u.sha))
  {
    forall o, e ensures KeepsLetters(o, e, Publishes(u)(o, Revived(e)).0, Publishes(u)(o, Revived(e)).1, WithKey(k, u.sha)) {
      PublishKeepsKeys(o, Revived(e), u);
      RevivalKeepsKeys(e, u.sha);
    }
  }

  lemma ManagerOnlyAppends(u: Setup)
    ensures OnlyAppends(Publishes(u))
  {
    forall o, e ensures Appends(o, Publishes(u)(o, Revived(e)).0) {
      PublishKeepsKeys(o, Revived(e), u);
    }
  }

  datatype Address = Address(channel: string, reason: string, sessionId: string, key: string)

  function AddressOf(sha: Digest): OutboundEvent -> Address {
    (e: OutboundEvent) => Address(e.channel, e.deadLetterReason, e.sessionId, BusKey(e, sha))
  }

  function Letters(sha: Digest): Finder {
    (e: OutboundEvent) => SameLetter(e, sha).Predicate(sha)
  }

  predicate Plain(s: string) {
    s != "" && Stripped(s)
  }

  /** The drain for this letter can match nothing but letters with its address: no field is blank or padded, and its key is not odd. */
  predicate Addressable(e: OutboundEvent) {
    Plain(e.channel) && Plain(e.deadLetterReason) && Plain(e.sessionId) && !OddKey(e.metadata)
  }

  lemma SenderKeyIsPlain(e: OutboundEvent, sha: Digest)
    ensures Plain(SenderKey(e, sha))
  {
  }

  lemma AddressableIsFound(e: OutboundEvent, sha: Digest)
    requires Addressable(e)
    ensures FindsByAddress(Letters(sha), e, AddressOf(sha))
  {
    KeysAgreeIff(e, sha);
    SenderKeyIsPlain(e, sha);
    var f := SameLetter(e, sha);
    assert f == Filter(e.channel, e.deadLetterReason, e.sessionId, BusKey(e, sha));
    forall d ensures Letters(sha)(e)(d) <==> AddressOf(sha)(d) == AddressOf(sha)(e) {
      FilterIsAddress(f, d, sha);
    }
  }

  lemma FilterIsAddress(f: Filter, d: OutboundEvent, sha: Digest)
    requires Plain(f.channel) && Plain(f.reason) && Plain(f.sessionId) && Plain(f.key)
    ensures f.Matches(d, sha) <==> AddressOf(sha)(d) == Address(f.channel, f.reason, f.sessionId, f.key)
  {
  }

  /** A filter text is ignored when blank, and stripped otherwise. */
  predicate Usable(s: string) {
    Strip(s) == "" || Stripped(s)
  }

  /** A letter is found by the drain made for it exactly when no address field is padded and its key is not odd. */
  lemma FindsItselfIff(e: OutboundEvent, sha: Digest)
    ensures Letters(sha)(e)(e) <==> Usable(e.channel) && Usable(e.deadLetterReason) && Usable(e.sessionId) && !OddKey(e.metadata)
  {
    KeysAgreeIff(e, sha);
    SenderKeyIsPlain(e, sha);
    var f := SameLetter(e, sha);
    assert f == Filter(Strip(e.channel), Strip(e.deadLetterReason), Strip(e.sessionId), SenderKey(e, sha));
  }

  // ---------- At most once, all the way through ----------

  lemma OrderIgnoresLetters(d: Desk, o: Office, dead: seq<OutboundEvent>, u: Setup)
    requires InOrder(d, o, u)
    ensures InOrder(d, o.(dead := dead), u)
  {
  }

  lemma ReplayNextKeepsOrder(d: Desk, o: Office, same: OutboundEvent -> bool, u: Setup) returns (after: Desk)
    requires InOrder(d, o, u)
    ensures InOrder(after, ReplayNext(o, same, Publishes(u), u).0, u)
  {
    var drained := Selected(o.dead, same, 1);
    var kept := Kept(o.dead, same, 1);
    OrderIgnoresLetters(d, o, kept, u);
    if drained != [] && drained[0].channel in u.channels {
      after := PublishKeepsOrder(d, o.(dead := kept), Revived(drained[0]), u);
    } else {
      after := d;
    }
  }

  /** However many copies of a letter a replay finds, it sends none while its key is remembered. */
  lemma {:induction false} ReplayKeepsOrder(d: Desk, o: Office, matched: seq<OutboundEvent>, n: nat, find: Finder, u: Setup)
    returns (after: Desk)
    requires n <= |matched| && InOrder(d, o, u)
    ensures InOrder(after, ReplayFirst(o, matched, n, find, Publishes(u), u).0, u)
  {
    if n == 0 {
      after := d;
    } else {
      var mid := ReplayKeepsOrder(d, o, matched, n - 1, find, u);
      after := ReplayNextKeepsOrder(mid, ReplayFirst(o, matched, n - 1, find, Publishes(u), u).0, find(matched[n - 1]), u);
    }
  }

  // ---------- What a replay adds up to ----------

  /**
   After any replay, the queue is shorter by exactly the letters resent and suppressed, and for every key it
   holds what it held before but for those: nothing is lost, and nothing is sent or kept under another key.
   */
  lemma ReplayAccounts(o: Office, matched: seq<OutboundEvent>, n: nat, k: IC.Key, u: Setup)
    requires n <= |matched|
    ensures var (after, fates) := ReplayFirst(o, matched, n, Letters(u.sha), Publishes(u), u);
            var dead, t := after.dead + Aside(fates), Tallied(fates);
            && |dead| == |o.dead| - t.replayed - t.suppressed
            && Count(dead, WithKey(k, u.sha)) + Count(Gone(fates), WithKey(k, u.sha)) == Count(o.dead, WithKey(k, u.sha))
  {
    var (after, fates) := ReplayFirst(o, matched, n, Letters(u.sha), Publishes(u), u);
    ManagerKeepsKeys(u, k);
    ReplayConserves(o, matched, n, Letters(u.sha), Publishes(u), WithKey(k, u.sha), u);
    CountConcat(after.dead, Aside(fates), WithKey(k, u.sha));
  }

  lemma MatchesAreEnough(queue: seq<OutboundEvent>, p: OutboundEvent -> bool, sha: Digest)
    ensures Enough(queue, Matching(queue, p), AddressOf(sha))
  {
    forall a ensures Count(Matching(queue, p), At(a, AddressOf(sha))) <= Count(queue, At(a, AddressOf(sha))) {
      MatchingIsWithin(queue, p, At(a, AddressOf(sha)));
    }
  }

  /** If no matched letter has an odd address, each of the first `n` is resent, fails again, is set aside, or is suppressed. */
  lemma EveryLetterIsAccountedFor(o: Office, p: OutboundEvent -> bool, n: nat, u: Setup)
    requires var matched := Matching(o.dead, p);
             n <= |matched| && forall i :: 0 <= i < |matched| ==> Addressable(matched[i])
    ensures var t := Tallied(ReplayFirst(o, Matching(o.dead, p), n, Letters(u.sha), Publishes(u), u).1);
            t.replayed + t.failed + t.skipped + t.suppressed == n
  {
    var matched := Matching(o.dead, p);
    forall i | 0 <= i < |matched| ensures FindsByAddress(Letters(u.sha), matched[i], AddressOf(u.sha)) {
      AddressableIsFound(matched[i], u.sha);
    }
    ManagerOnlyAppends(u);
    MatchesAreEnough(o.dead, p, u.sha);
    EveryMatchHasItsTurn(o, matched, n, Letters(u.sha), Publishes(u), AddressOf(u.sha), u);
  }

  // ---------- Any sequence of deliveries, replays and restarts ----------

  /** A kill cuts off a delivery before its key is saved; after it and after a restart, `dead` are the letters restored. */
  datatype Job =
    | Send(e: OutboundEvent)
    | Replay(wanted: OutboundEvent -> bool, limit: nat)
    | Reload
    | Restart(dead: seq<OutboundEvent>)
    | Kill(e: OutboundEvent, dead: seq<OutboundEvent>)

  const FRESH := Office(IC.EMPTY, [], [], [], 0, 0, 0, [])

  function AfterJob(o: Office, job: Job, u: Setup): Office {
    match job
    case Send(e) => AfterPublish(o, e, u).0
    case Replay(wanted, limit) =>
      var matched := Matching(o.dead, wanted);
      var (after, fates) := ReplayFirst(o, matched, Min(limit, |matched|), Letters(u.sha), Publishes(u), u);
      after.(dead := after.dead + Aside(fates))
    case Reload => AfterReload(o, u)
    case Restart(dead) => AfterReboot(o, dead, u)
    case Kill(e, dead) => AfterKill(o, e, dead, u)
  }

  function AfterJobs(jobs: seq<Job>, u: Setup): Office {
    if jobs == [] then FRESH else AfterJob(AfterJobs(jobs[..|jobs| - 1], u), jobs[|jobs| - 1], u)
  }

  lemma ReplayJobKeepsOrder(d: Desk, o: Office, job: Job, u: Setup) returns (after: Desk)
    requires InOrder(d, o, u) && job.Replay?
    ensures InOrder(after, AfterJob(o, job, u), u)
  {
    var matched := Matching(o.dead, job.wanted);
    var n := Min(job.limit, |matched|);
    after := ReplayKeepsOrder(d, o, matched, n, Letters(u.sha), u);
    var (o', fates) := ReplayFirst(o, matched, n, Letters(u.sha), Publishes(u), u);
    OrderIgnoresLetters(after, o', o'.dead + Aside(fates), u);
  }

  lemma SameOrder(d: Desk, o: Office, same: Office, u: Setup)
    requires InOrder(d, o, u) && o == same
    ensures InOrder(d, same, u)
  {
  }

  lemma JobKeepsOrder(d: Desk, o: Office, job: Job, u: Setup) returns (after: Desk)
    requires InOrder(d, o, u)
    ensures InOrder(after, AfterJob(o, job, u), u)
  {
    match job
    case Replay(_, _) => after := ReplayJobKeepsOrder(d, o, job, u);
    case Send(e) =>
      after := PublishKeepsOrder(d, o, e, u);
      SameOrder(after, AfterPublish(o, e, u).0, AfterJob(o, job, u), u);
    case Reload =>
      after := ReloadKeepsOrder(d, o, u);
      SameOrder(after, AfterReload(o, u), AfterJob(o, job, u), u);
    case Restart(dead) =>
      after := RebootKeepsOrder(d, o, dead, u);
      SameOrder(after, AfterReboot(o, dead, u), AfterJob(o, job, u), u);
    case Kill(e, dead) =>
      after := KillKeepsOrder(d, o, e, dead, u);
      SameOrder(after, AfterKill(o, e, dead, u), AfterJob(o, job, u), u);
  }

  lemma {:induction false} JobsKeepOrder(jobs: seq<Job>, u: Setup) returns (d: Desk)
    requires Ticking(u.clock)
    ensures InOrder(d, AfterJobs(jobs, u), u)
  {
    if jobs == [] {
      DeskStarts(u.clock(0), u.idem);
      d := Desk(IR.World(IC.EMPTY, [], [], u.clock(0)), []);
    } else {
      var before := JobsKeepOrder(jobs[..|jobs| - 1], u);
      d := JobKeepsOrder(before, AfterJobs(jobs[..|jobs| - 1], u), jobs[|jobs| - 1], u);
    }
  }

  lemma OrderedSendsAreApart(d: Desk, o: Office, u: Setup)
    requires InOrder(d, o, u)
    ensures NoEarlyRepeat(o.sent, u.idem)
  {
  }

  /**
   After any deliveries, replays, reloads, restarts and kills on a clock that never goes back, two sends under one key are a
   time to live or more than `maxEntries` keys apart, unless the first was cut off before its key was saved.
   */
  lemma JobsSendOnceWhileRemembered(jobs: seq<Job>, u: Setup, i: nat, j: nat)
    requires Ticking(u.clock)
    requires var sent := AfterJobs(jobs, u).sent; i < j < |sent| && sent[i].key == sent[j].key && sent[i].kept
    ensures var sent := AfterJobs(jobs, u).sent;
            sent[j].checkedAt >= sent[i].confirmedAt + u.idem.ttl || |SentKeys(sent[i..j])| > u.idem.maxEntries
  {
    var d := JobsKeepOrder(jobs, u);
    OrderedSendsAreApart(d, AfterJobs(jobs, u), u);
    assert Apart(AfterJobs(jobs, u).sent, i, j, u.idem);
  }
}
