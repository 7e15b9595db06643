/**
 Inbound messages from acceptance to the end of their handling: every message is in exactly one place, the queue is
 served in order, and a key is journaled exactly from its last acceptance to its clearing.
 */
module InboundFlow {
  import opened Wrappers
  import opened Sequences
  import opened StableSort
  import opened KeyedJournal
  import opened InboundDurability
  import opened BusQueue

  // ---------- When a key is journaled ----------

  /** The step takes the record of a handled message out of the journal. */
  ghost predicate ClearsUnder<R(!new), K>(ops: seq<Op<R>>, j: nat, k: K, sc: Schema<R, K>)
    requires j < |ops|
  {
    ops[j].Clear? && sc.key(ops[j].r) == k && ops[j].r in Run(ops[..j], sc).clearing
  }

  ghost predicate Touches<R(!new), K>(ops: seq<Op<R>>, j: nat, k: K, sc: Schema<R, K>)
    requires j < |ops|
  {
    AcceptsUnder(ops[j], k, sc) || ClearsUnder(ops, j, k, sc)
  }

  lemma WithoutHoldsIff<R(!new), K>(journal: seq<R>, cleared: K, k: K, sc: Schema<R, K>)
    requires Lawful(sc)
    ensures Holds(Without(Loaded(journal, sc), cleared, sc), k, sc) <==> k != cleared && Holds(journal, k, sc)
  {
    var loaded := Loaded(journal, sc);
    LoadedIsWithin(journal, (set x | x in journal), sc);
    LoadedHasWhatRowsHold(journal, k, sc);
    if Holds(Without(loaded, cleared, sc), k, sc) {
      var x :| x in Without(loaded, cleared, sc) && LoadsUnder(x, k, sc);
      assert x in loaded && sc.key(x) == k;
    }
    if k != cleared && Holds(journal, k, sc) {
      var x :| x in loaded && sc.key(x) == k;
      assert x in Without(loaded, cleared, sc) && LoadsUnder(x, k, sc);
    }
  }

  lemma PutHoldsIff<R(!new), K>(journal: seq<R>, r: R, k: K, sc: Schema<R, K>)
    requires Lawful(sc)
    ensures Holds(Put(Loaded(journal, sc), r, sc), k, sc) <==> LoadsUnder(r, k, sc) || (sc.key(r) != k && Holds(journal, k, sc))
  {
    AcceptKeepsRecordIff(journal, r, k, sc);
    LoadedHasWhatRowsHold(journal, k, sc);
    LoadedHasWhatRowsHold(Put(Loaded(journal, sc), r, sc), k, sc);
  }

  lemma StepHoldsIff<R(!new), K>(w: World<R>, op: Op<R>, k: K, sc: Schema<R, K>)
    requires Lawful(sc)
    ensures Holds(Step(w, op, sc).journal, k, sc) <==>
              if op.Accept? then LoadsUnder(op.r, k, sc) || (sc.key(op.r) != k && Holds(w.journal, k, sc))
              else Holds(w.journal, k, sc) && !(op.Clear? && op.r in w.clearing && sc.key(op.r) == k)
  {
    if op.Accept? { PutHoldsIff(w.journal, op.r, k, sc); }
    if op.Clear? && op.r in w.clearing { WithoutHoldsIff(w.journal, sc.key(op.r), k, sc); }
  }

  /** A step that does not touch the key leaves it journaled or not; one that does decides. */
  lemma TouchDecides<R(!new), K>(w: World<R>, op: Op<R>, k: K, sc: Schema<R, K>)
    requires Lawful(sc) && (op.Accept? && LoadsUnder(op.r, k, sc) ==> sc.key(op.r) == k)
    ensures Holds(Step(w, op, sc).journal, k, sc) <==>
              if AcceptsUnder(op, k, sc) then WellFormed(op.r, sc)
              else Holds(w.journal, k, sc) && !(op.Clear? && sc.key(op.r) == k && op.r in w.clearing)
  {
    StepHoldsIff(w, op, k, sc);
  }

  lemma RunNext<R(!new), K>(ops: seq<Op<R>>, m: nat, sc: Schema<R, K>)
    requires m < |ops|
    ensures Run(ops[..m + 1], sc) == Step(Run(ops[..m], sc), ops[m], sc)
  {
    assert ops[..m + 1][..m] == ops[..m];
  }

  lemma NextHoldsIff<R(!new), K>(ops: seq<Op<R>>, m: nat, k: K, sc: Schema<R, K>)
    requires Lawful(sc) && m < |ops| && Uninvaded(Run(ops, sc).accepted, k, sc)
    ensures Holds(Run(ops[..m + 1], sc).journal, k, sc) <==>
              if Touches(ops, m, k, sc) then ops[m].Accept? && WellFormed(ops[m].r, sc) else Holds(Run(ops[..m], sc).journal, k, sc)
  {
    if ops[m].Accept? {
      AcceptedBySteps(ops, sc);
      assert ops[m].r in AcceptedIn(ops);
    }
    RunNext(ops, m, sc);
    TouchDecides(Run(ops[..m], sc), ops[m], k, sc);
  }

  /** What each touch decides and everything else leaves, the last touch decides. */
  lemma {:induction false} LastDecides(held: nat -> bool, touches: nat -> bool, verdict: nat -> bool, i: nat, n: nat)
    requires forall m :: i <= m < n ==> held(m + 1) == if touches(m) then verdict(m) else held(m)
    requires i < n && touches(i) && forall m :: i < m < n ==> !touches(m)
    ensures held(n) == verdict(i)
  {
    if i < n - 1 { LastDecides(held, touches, verdict, i, n - 1); }
  }

  lemma {:induction false} NothingDecides(held: nat -> bool, touches: nat -> bool, n: nat)
    requires !held(0) && forall m :: 0 <= m < n ==> !touches(m) && held(m + 1) == held(m)
    ensures !held(n)
  {
    if n > 0 { NothingDecides(held, touches, n - 1); }
  }

  ghost function HeldAfter<R(!new), K>(ops: seq<Op<R>>, k: K, sc: Schema<R, K>): nat -> bool {
    (m: nat) => m <= |ops| && Holds(Run(ops[..m], sc).journal, k, sc)
  }

  ghost function TouchedAt<R(!new), K>(ops: seq<Op<R>>, k: K, sc: Schema<R, K>): nat -> bool {
    (m: nat) => m < |ops| && Touches(ops, m, k, sc)
  }

  ghost function DecidedAt<R(!new), K>(ops: seq<Op<R>>, sc: Schema<R, K>): nat -> bool {
    (m: nat) => m < |ops| && ops[m].Accept? && WellFormed(ops[m].r, sc)
  }

  lemma HeldNext<R(!new), K>(ops: seq<Op<R>>, m: nat, k: K, sc: Schema<R, K>)
    requires Lawful(sc) && m < |ops| && Uninvaded(Run(ops, sc).accepted, k, sc)
    ensures HeldAfter(ops, k, sc)(m + 1) == if TouchedAt(ops, k, sc)(m) then DecidedAt(ops, sc)(m) else HeldAfter(ops, k, sc)(m)
  {
    NextHoldsIff(ops, m, k, sc);
  }

  lemma HeldEnds<R(!new), K>(ops: seq<Op<R>>, k: K, sc: Schema<R, K>)
    ensures HeldAfter(ops, k, sc)(|ops|) == Holds(Run(ops, sc).journal, k, sc) && !HeldAfter(ops, k, sc)(0)
  {
    assert ops[..|ops|] == ops && ops[..0] == [];
  }

  lemma HeldIff<R(!new), K>(ops: seq<Op<R>>, i: nat, k: K, sc: Schema<R, K>)
    requires Lawful(sc) && Uninvaded(Run(ops, sc).accepted, k, sc)
    requires i < |ops| && TouchedAt(ops, k, sc)(i) && forall j :: i < j < |ops| ==> !TouchedAt(ops, k, sc)(j)
    ensures Holds(Run(ops, sc).journal, k, sc) <==> DecidedAt(ops, sc)(i)
  {
    var held, touches, verdict := HeldAfter(ops, k, sc), TouchedAt(ops, k, sc), DecidedAt(ops, sc);
    forall m | i <= m < |ops| ensures held(m + 1) == if touches(m) then verdict(m) else held(m) { HeldNext(ops, m, k, sc); }
    LastDecides(held, touches, verdict, i, |ops|);
    HeldEnds(ops, k, sc);
  }

  lemma UntouchedIsNotHeld<R(!new), K>(ops: seq<Op<R>>, k: K, sc: Schema<R, K>)
    requires Lawful(sc) && Uninvaded(Run(ops, sc).accepted, k, sc)
    requires forall j :: 0 <= j < |ops| ==> !TouchedAt(ops, k, sc)(j)
    ensures !Holds(Run(ops, sc).journal, k, sc)
  {
    var held, touches := HeldAfter(ops, k, sc), TouchedAt(ops, k, sc);
    HeldEnds(ops, k, sc);
    forall m | 0 <= m < |ops| ensures !touches(m) && held(m + 1) == held(m) { HeldNext(ops, m, k, sc); }
    NothingDecides(held, touches, |ops|);
  }

  /**
   The exact condition, in every run: a key that no message under another key is cleaned into is journaled if and only
   if the last step that accepted a message under it or cleared one accepted a well-formed one. A handled message whose
   record was cleared is not queued again by a restart.
   */
  lemma JournaledIff<R(!new), K>(ops: seq<Op<R>>, k: K, sc: Schema<R, K>)
    requires Lawful(sc) && Uninvaded(Run(ops, sc).accepted, k, sc)
    ensures HasKey(Loaded(Run(ops, sc).journal, sc), k, sc) <==>
              exists i :: 0 <= i < |ops| && AcceptsUnder(ops[i], k, sc) && WellFormed(ops[i].r, sc)
                          && forall j :: i < j < |ops| ==> !Touches(ops, j, k, sc)
  {
    LoadedHasWhatRowsHold(Run(ops, sc).journal, k, sc);
    if exists i :: 0 <= i < |ops| && Touches(ops, i, k, sc) {
      var i := LastTouch(ops, k, |ops|, sc);
      HeldIff(ops, i, k, sc);
      if exists a :: 0 <= a < |ops| && AcceptsUnder(ops[a], k, sc) && WellFormed(ops[a].r, sc)
                     && forall j :: a < j < |ops| ==> !Touches(ops, j, k, sc) {
        var a :| 0 <= a < |ops| && AcceptsUnder(ops[a], k, sc) && WellFormed(ops[a].r, sc)
                 && forall j :: a < j < |ops| ==> !Touches(ops, j, k, sc);
        assert Touches(ops, a, k, sc);
        assert a == i;
      }
    } else {
      UntouchedIsNotHeld(ops, k, sc);
      assert forall i :: 0 <= i < |ops| && AcceptsUnder(ops[i], k, sc) ==> Touches(ops, i, k, sc);
    }
  }

  lemma {:induction false} LastTouch<R(!new), K>(ops: seq<Op<R>>, k: K, n: nat, sc: Schema<R, K>) returns (i: nat)
    requires n <= |ops| && exists j :: 0 <= j < n && Touches(ops, j, k, sc)
    ensures i < n && Touches(ops, i, k, sc) && forall j :: i < j < n ==> !Touches(ops, j, k, sc)
  {
    if Touches(ops, n - 1, k, sc) {
      i := n - 1;
    } else {
      i := LastTouch(ops, k, n - 1, sc);
    }
  }

  // ---------- Where every message is ----------

  /**
   The books of one process: what it accepted, what it put into the queue and in which order, what it took out, and
   what became of that.
   */
  datatype Ledger<!R> = Ledger(
    accepted: multiset<R>, published: multiset<R>, entered: seq<R>, handed: seq<R>,
    completed: multiset<R>, failed: multiset<R>, cleared: multiset<R>, lost: multiset<R>)

  function Blank<R>(): Ledger<R> {
    Ledger(multiset{}, multiset{}, [], [], multiset{}, multiset{}, multiset{}, multiset{})
  }

  /** What a step puts into the queue, and what it takes out. */
  function Entering<R(!new, ==), K(==)>(w: World<R>, op: Op<R>, sc: Schema<R, K>): seq<R> {
    match op
    case Publish(r) => if r in w.publishing then [r] else []
    case Restore(limit) => if w.queue == [] then FirstRows(Loaded(w.journal, sc), limit) else []
    case OperatorReplay(wanted, limit) => FirstRows(Matching(Loaded(w.journal, sc), wanted), limit)
    case _ => []
  }

  /** The oldest message that entered and was not handed out. */
  function Handing<R>(l: Ledger<R>, op: Op<R>): seq<R> {
    if op.Take? && |l.handed| < |l.entered| then [l.entered[|l.handed|]] else []
  }

  /** What a step does to a message that is not in the queue. */
  function Ending<R(==)>(l: Ledger<R>, w: World<R>, op: Op<R>): Ledger<R> {
    match op
    case Accept(r) => l.(accepted := l.accepted + multiset{r})
    case Publish(r) => if r in w.publishing then l.(published := l.published + multiset{r}) else l
    case Complete(r) => if r in w.running then l.(completed := l.completed + multiset{r}) else l
    case Fail(r) => if r in w.running then l.(failed := l.failed + multiset{r}) else l
    case Clear(r) => if r in w.clearing then l.(cleared := l.cleared + multiset{r}) else l
    case LoseClear(r) => if r in w.clearing then l.(lost := l.lost + multiset{r}) else l
    case _ => l
  }

  /** One more step in the books; a step that finds nothing to do is not booked, and a crash starts new ones. */
  function Book<R(!new, ==), K(==)>(l: Ledger<R>, w: World<R>, op: Op<R>, sc: Schema<R, K>): Ledger<R> {
    if op.Crash? then Blank()
    else Ending(l, w, op).(entered := l.entered + Entering(w, op, sc), handed := l.handed + Handing(l, op))
  }

  function Booked<R(!new, ==), K(==)>(ops: seq<Op<R>>, sc: Schema<R, K>): Ledger<R> {
    if ops == [] then Blank()
    else Book(Booked(ops[..|ops| - 1], sc), Run(ops[..|ops| - 1], sc), ops[|ops| - 1], sc)
  }

  ghost predicate Balanced<R(!new)>(w: World<R>, l: Ledger<R>) {
    && l.accepted == w.publishing + l.published
    && l.entered == l.handed + w.queue
    && multiset(l.handed) == w.running + l.completed + l.failed
    && l.completed == w.clearing + l.cleared + l.lost
  }

  /** An operator replays the first matching records. */
  lemma {:induction false} FirstWantedIs<R(!new)>(rows: seq<R>, wanted: R -> bool, limit: nat)
    ensures FirstWanted(rows, wanted, limit) == FirstRows(Matching(rows, wanted), limit)
  {
    if rows != [] && limit != 0 { FirstWantedIs(rows[1..], wanted, if wanted(rows[0]) then limit - 1 else limit); }
  }

  lemma QueueStep<R(!new), K>(w: World<R>, op: Op<R>, sc: Schema<R, K>)
    requires !op.Crash?
    ensures if op.Take? && w.queue != [] then QueueAfter(w, op, sc) == w.queue[1..]
            else QueueAfter(w, op, sc) == w.queue + Entering(w, op, sc)
    ensures op.Take? ==> Entering(w, op, sc) == []
  {
    if op.OperatorReplay? { FirstWantedIs(Loaded(w.journal, sc), op.wanted, op.limit); }
  }

  lemma HandingIs<R>(l: Ledger<R>, op: Op<R>, queue: seq<R>)
    requires l.entered == l.handed + queue
    ensures Handing(l, op) == if op.Take? && queue != [] then [queue[0]] else []
  {
  }

  lemma QueueLaw<R>(entered: seq<R>, handed: seq<R>, queue: seq<R>, entering: seq<R>, handing: seq<R>, queue': seq<R>)
    requires entered == handed + queue
    requires if handing == [] then queue' == queue + entering else entering == [] && queue == handing + queue'
    ensures entered + entering == handed + handing + queue'
  {
  }

  lemma StepBalancesQueue<R(!new), K>(w: World<R>, op: Op<R>, l: Ledger<R>, sc: Schema<R, K>)
    requires l.entered == l.handed + w.queue && !op.Crash?
    ensures l.entered + Entering(w, op, sc) == l.handed + Handing(l, op) + QueueAfter(w, op, sc)
    ensures Handing(l, op) == if op.Take? && w.queue != [] then [w.queue[0]] else []
  {
    QueueStep(w, op, sc);
    HandingIs(l, op, w.queue);
    QueueLaw(l.entered, l.handed, w.queue, Entering(w, op, sc), Handing(l, op), QueueAfter(w, op, sc));
  }

  lemma HandedNext<R>(handed: seq<R>, more: seq<R>)
    ensures multiset(handed + more) == multiset(handed) + multiset(more)
  {
  }

  lemma StepBalancesTasks<R>(w: World<R>, op: Op<R>, l: Ledger<R>, handing: seq<R>)
    requires !op.Crash? && multiset(l.handed) == w.running + l.completed + l.failed
    requires handing == if op.Take? && w.queue != [] then [w.queue[0]] else []
    ensures multiset(l.handed + handing) == TasksAfter(w, op).running + Ending(l, w, op).completed + Ending(l, w, op).failed
  {
    HandedNext(l.handed, handing);
    RunningStep(w, op, l, multiset(handing));
  }

  lemma RunningStep<R>(w: World<R>, op: Op<R>, l: Ledger<R>, handing: multiset<R>)
    requires !op.Crash? && handing == if op.Take? && w.queue != [] then multiset{w.queue[0]} else multiset{}
    ensures w.running + l.completed + l.failed + handing
            == TasksAfter(w, op).running + Ending(l, w, op).completed + Ending(l, w, op).failed
  {
    if op.Complete? {
      CompletionBalances(w, op.r, l);
    } else if op.Fail? {
      FailureBalances(w, op.r, l);
    } else {
      OthersKeepRunning(w, op, l);
    }
  }

  lemma OthersKeepRunning<R>(w: World<R>, op: Op<R>, l: Ledger<R>)
    requires !op.Crash? && !op.Complete? && !op.Fail?
    ensures TasksAfter(w, op).running == w.running + if op.Take? && w.queue != [] then multiset{w.queue[0]} else multiset{}
    ensures Ending(l, w, op).completed == l.completed && Ending(l, w, op).failed == l.failed
  {
  }

  lemma CompletionBalances<R>(w: World<R>, r: R, l: Ledger<R>)
    ensures w.running + l.completed + l.failed
            == TasksAfter(w, Op.Complete(r)).running + Ending(l, w, Op.Complete(r)).completed + Ending(l, w, Op.Complete(r)).failed
  {
  }

  lemma FailureBalances<R>(w: World<R>, r: R, l: Ledger<R>)
    ensures w.running + l.completed + l.failed
            == TasksAfter(w, Op.Fail(r)).running + Ending(l, w, Op.Fail(r)).completed + Ending(l, w, Op.Fail(r)).failed
  {
  }

  lemma StepBalancesAccepted<R>(w: World<R>, op: Op<R>, l: Ledger<R>)
    requires !op.Crash? && l.accepted == w.publishing + l.published
    ensures Ending(l, w, op).accepted == TasksAfter(w, op).publishing + Ending(l, w, op).published
  {
  }

  lemma StepBalancesCompleted<R>(w: World<R>, op: Op<R>, l: Ledger<R>)
    requires !op.Crash? && l.completed == w.clearing + l.cleared + l.lost
    ensures Ending(l, w, op).completed == TasksAfter(w, op).clearing + Ending(l, w, op).cleared + Ending(l, w, op).lost
  {
  }

  lemma CrashBalances<R(!new), K>(w: World<R>, sc: Schema<R, K>)
    ensures Balanced(Step(w, Op<R>.Crash, sc), Blank())
  {
  }

  lemma StepBalances<R(!new), K>(w: World<R>, op: Op<R>, l: Ledger<R>, sc: Schema<R, K>)
    requires Balanced(w, l)
    ensures Balanced(Step(w, op, sc), Book(l, w, op, sc))
  {
    if op.Crash? {
      CrashBalances(w, sc);
    } else {
      StepBalancesQueue(w, op, l, sc);
      StepBalancesTasks(w, op, l, Handing(l, op));
      StepBalancesAccepted(w, op, l);
      StepBalancesCompleted(w, op, l);
    }
  }

  /**
   In every run, since the last crash: what was accepted is waiting to be queued or was queued; what entered the queue
   has been taken out, oldest first, or is still there in order; what was taken out is running, completed or failed;
   and what was completed is waiting to be cleared, cleared, or lost its clearing. Nothing is in two places, and
   nothing disappears.
   */
  lemma {:induction false} EveryMessageIsSomewhere<R(!new), K>(ops: seq<Op<R>>, sc: Schema<R, K>)
    ensures var w, l := Run(ops, sc), Booked(ops, sc);
            && l.accepted == w.publishing + l.published
            && l.entered == l.handed + w.queue
            && multiset(l.handed) == w.running + l.completed + l.failed
            && l.completed == w.clearing + l.cleared + l.lost
    decreases |ops|
  {
    if ops != [] {
      EveryMessageIsSomewhere(ops[..|ops| - 1], sc);
      StepBalances(Run(ops[..|ops| - 1], sc), ops[|ops| - 1], Booked(ops[..|ops| - 1], sc), sc);
    }
  }
}
