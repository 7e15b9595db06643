/**
 Inbound messages over any number of crashes: a message is journaled before it is queued and cleared after
 it is handled. Every stretch between two awaits is one step.
 */
module InboundDurability {
  import opened Wrappers
  import opened Sequences
  import opened StableSort
  import opened KeyedJournal

  /**
   `publishing` holds the messages journaled but not yet queued, `clearing` those handled but not yet cleared.
   `accepted` and `completed` are history.
   */
  datatype World<!R> = World(
    journal: seq<R>, publishing: multiset<R>, queue: seq<R>, running: multiset<R>, clearing: multiset<R>,
    accepted: set<R>, completed: set<R>)

  datatype Op<!R> =
    | Accept(r: R)
    | Publish(r: R)
    | Take
    | Complete(r: R)
    | Fail(r: R)
    | Clear(r: R)
    | LoseClear(r: R)
    | Crash
    | Restore(limit: nat)
    | OperatorReplay(wanted: R -> bool, limit: nat)

  /** The operator replays the first matching records, in journal order. */
  function FirstWanted<R>(rows: seq<R>, wanted: R -> bool, limit: nat): seq<R> {
    if rows == [] || limit == 0 then []
    else if wanted(rows[0]) then [rows[0]] + FirstWanted(rows[1..], wanted, limit - 1)
    else FirstWanted(rows[1..], wanted, limit)
  }

  function FirstRows<R>(rows: seq<R>, limit: nat): seq<R> {
    if limit < |rows| then rows[..limit] else rows
  }

  /** What a step makes of the journal, of the queue, and of the rest. */
  function JournalAfter<R(!new), K(==)>(w: World<R>, op: Op<R>, sc: Schema<R, K>): seq<R> {
    match op
    case Accept(r) => Put(Loaded(w.journal, sc), r, sc)
    case Clear(r) => if r in w.clearing then Without(Loaded(w.journal, sc), sc.key(r), sc) else w.journal
    case _ => w.journal
  }

  function QueueAfter<R(!new, ==), K(==)>(w: World<R>, op: Op<R>, sc: Schema<R, K>): seq<R> {
    match op
    case Publish(r) => if r in w.publishing then w.queue + [r] else w.queue
    case Take => if w.queue != [] then w.queue[1..] else w.queue
    case Crash => []
    case Restore(limit) => if w.queue == [] then FirstRows(Loaded(w.journal, sc), limit) else w.queue
    case OperatorReplay(wanted, limit) => w.queue + FirstWanted(Loaded(w.journal, sc), wanted, limit)
    case _ => w.queue
  }

  function TasksAfter<R(==)>(w: World<R>, op: Op<R>): World<R> {
    match op
    case Accept(r) => w.(publishing := w.publishing + multiset{r}, accepted := w.accepted + {r})
    case Publish(r) => if r in w.publishing then w.(publishing := w.publishing - multiset{r}) else w
    case Take => if w.queue != [] then w.(running := w.running + multiset{w.queue[0]}) else w
    case Complete(r) =>
      if r in w.running
      then w.(running := w.running - multiset{r}, clearing := w.clearing + multiset{r}, completed := w.completed + {r})
      else w
    case Fail(r) => w.(running := w.running - multiset{r})
    case Clear(r) => if r in w.clearing then w.(clearing := w.clearing - multiset{r}) else w
    case LoseClear(r) => w.(clearing := w.clearing - multiset{r})
    case Crash => w.(publishing := multiset{}, running := multiset{}, clearing := multiset{})
    case Restore(_) => w
    case OperatorReplay(_, _) => w
  }

  function Step<R(!new, ==), K(==)>(w: World<R>, op: Op<R>, sc: Schema<R, K>): World<R> {
    TasksAfter(w, op).(journal := JournalAfter(w, op, sc), queue := QueueAfter(w, op, sc))
  }

  function Run<R(!new, ==), K(==)>(ops: seq<Op<R>>, sc: Schema<R, K>): World<R> {
    if ops == [] then World([], multiset{}, [], multiset{}, multiset{}, {}, {})
    else Step(Run(ops[..|ops| - 1], sc), ops[|ops| - 1], sc)
  }

  // ---------- Nothing is made up ----------

  /** The accepted messages and what a load makes of them. */
  ghost function Origins<R, K>(accepted: set<R>, sc: Schema<R, K>): set<R> {
    accepted + set a | a in accepted && sc.clean(a).Some? :: sc.clean(a).value
  }

  ghost predicate RowsWithin<R(!new)>(rows: seq<R>, all: set<R>) {
    forall x :: x in rows ==> x in all
  }

  ghost predicate TasksWithin<R(!new)>(w: World<R>, all: set<R>) {
    && (forall x :: x in w.publishing ==> x in all)
    && (forall x :: x in w.running ==> x in all)
    && DoneWithin(w, all)
  }

  ghost predicate DoneWithin<R(!new)>(w: World<R>, all: set<R>) {
    (forall x :: x in w.clearing ==> x in w.completed) && w.completed <= all
  }

  ghost predicate Within<R(!new)>(w: World<R>, all: set<R>) {
    RowsWithin(w.journal, all) && RowsWithin(w.queue, all) && TasksWithin(w, all)
  }

  ghost predicate Flow<R(!new), K>(w: World<R>, sc: Schema<R, K>) {
    Within(w, Origins(w.accepted, sc))
  }

  lemma LoadedIsWithin<R(!new), K>(rows: seq<R>, accepted: set<R>, sc: Schema<R, K>)
    requires Lawful(sc) && forall x :: x in rows ==> x in Origins(accepted, sc)
    ensures forall x :: x in Loaded(rows, sc) ==> x in Origins(accepted, sc) && sc.clean(x) == Some(x)
  {
    forall x | x in Loaded(rows, sc) ensures x in Origins(accepted, sc) && sc.clean(x) == Some(x) {
      var r :| r in rows && sc.clean(r) == Some(x);
      if r !in accepted { var a :| a in accepted && sc.clean(a).Some? && sc.clean(a).value == r; }
    }
  }

  lemma {:induction false} FirstWantedIsWithin<R(!new)>(rows: seq<R>, wanted: R -> bool, limit: nat)
    ensures forall x :: x in FirstWanted(rows, wanted, limit) ==> x in rows && wanted(x)
  {
    if rows != [] && limit != 0 {
      FirstWantedIsWithin(rows[1..], wanted, if wanted(rows[0]) then limit - 1 else limit);
    }
  }

  lemma PutStaysWithin<R(!new), K>(rows: seq<R>, r: R, all: set<R>, sc: Schema<R, K>)
    requires RowsWithin(rows, all) && r in all
    ensures RowsWithin(Put(rows, r, sc), all)
  {
    PutKeeps(rows, r, sc.key(r), sc);
  }

  lemma WithoutStaysWithin<R(!new), K>(rows: seq<R>, key: K, all: set<R>, sc: Schema<R, K>)
    requires RowsWithin(rows, all)
    ensures RowsWithin(Without(rows, key, sc), all)
  {
  }

  lemma JournalStaysWithin<R(!new), K>(w: World<R>, op: Op<R>, all: set<R>, sc: Schema<R, K>)
    requires RowsWithin(w.journal, all) && RowsWithin(Loaded(w.journal, sc), all) && (op.Accept? ==> op.r in all)
    ensures RowsWithin(Step(w, op, sc).journal, all)
  {
    if op.Accept? { PutStaysWithin(Loaded(w.journal, sc), op.r, all, sc); }
    if op.Clear? { WithoutStaysWithin(Loaded(w.journal, sc), sc.key(op.r), all, sc); }
  }

  lemma QueueStaysWithin<R(!new), K>(w: World<R>, op: Op<R>, all: set<R>, sc: Schema<R, K>)
    requires RowsWithin(w.queue, all) && RowsWithin(Loaded(w.journal, sc), all) && TasksWithin(w, all)
    ensures RowsWithin(Step(w, op, sc).queue, all)
  {
    if op.OperatorReplay? { FirstWantedIsWithin(Loaded(w.journal, sc), op.wanted, op.limit); }
  }

  lemma DoneStaysWithin<R(!new), K>(w: World<R>, op: Op<R>, all: set<R>, sc: Schema<R, K>)
    requires TasksWithin(w, all)
    ensures DoneWithin(Step(w, op, sc), all)
  {
  }

  lemma TasksStayWithin<R(!new), K>(w: World<R>, op: Op<R>, all: set<R>, sc: Schema<R, K>)
    requires RowsWithin(w.queue, all) && TasksWithin(w, all) && (op.Accept? ==> op.r in all)
    ensures TasksWithin(Step(w, op, sc), all)
  {
    DoneStaysWithin(w, op, all, sc);
  }

  lemma StepKeepsFlow<R(!new), K>(w: World<R>, op: Op<R>, sc: Schema<R, K>)
    requires Lawful(sc) && Flow(w, sc)
    ensures Flow(Step(w, op, sc), sc)
  {
    var all := Origins(Step(w, op, sc).accepted, sc);
    LoadedIsWithin(w.journal, w.accepted, sc);
    assert Origins(w.accepted, sc) <= all;
    JournalStaysWithin(w, op, all, sc);
    QueueStaysWithin(w, op, all, sc);
    TasksStayWithin(w, op, all, sc);
  }

  // ---------- Nothing is forgotten ----------

  ghost predicate HasKey<R, K>(rows: seq<R>, k: K, sc: Schema<R, K>) {
    exists x :: x in rows && sc.key(x) == k
  }

  ghost predicate DoneKey<R, K>(completed: set<R>, k: K, sc: Schema<R, K>) {
    exists x :: x in completed && sc.key(x) == k
  }

  /** A load keeps the message under its key: no needed field is blank, and stripping does not change the key. */
  predicate WellFormed<R, K(==)>(r: R, sc: Schema<R, K>) {
    LoadsUnder(r, sc.key(r), sc)
  }

  predicate LoadsUnder<R, K(==)>(r: R, k: K, sc: Schema<R, K>) {
    sc.clean(r).Some? && sc.key(sc.clean(r).value) == k
  }

  /** What a journal that the next load reads as `before` keeps of a key when `written` replaces it. */
  lemma RowsSurvive<R(!new), K>(before: seq<R>, written: seq<R>, k: K, sc: Schema<R, K>)
    requires forall x :: x in before ==> sc.clean(x) == Some(x)
    requires forall x :: x in before && sc.key(x) == k ==> x in written
    requires HasKey(before, k, sc)
    ensures HasKey(Loaded(written, sc), k, sc)
  {
    var x :| x in before && sc.key(x) == k;
    assert x in Loaded(written, sc);
  }

  /** A key in a journal of clean rows, after one more record is written. */
  lemma LoadedHasKeyIff<R(!new), K>(before: seq<R>, written: seq<R>, r: R, k: K, sc: Schema<R, K>)
    requires forall x :: x in before ==> sc.clean(x) == Some(x)
    requires forall x :: x in written <==> x == r || (x in before && sc.key(x) != sc.key(r))
    ensures HasKey(Loaded(written, sc), k, sc) <==> LoadsUnder(r, k, sc) || (sc.key(r) != k && HasKey(before, k, sc))
  {
    if LoadsUnder(r, k, sc) {
      assert sc.clean(r).value in Loaded(written, sc);
    } else if sc.key(r) != k && HasKey(before, k, sc) {
      RowsSurvive(before, written, k, sc);
    }
  }

  /**
   After a message is accepted a key is journaled exactly when that message is loaded under it, or has another
   key and the key was journaled before: a malformed message evicts the record with its key.
   */
  lemma AcceptKeepsRecordIff<R(!new), K>(journal: seq<R>, r: R, k: K, sc: Schema<R, K>)
    requires Lawful(sc)
    ensures HasKey(Loaded(Put(Loaded(journal, sc), r, sc), sc), k, sc)
            <==> LoadsUnder(r, k, sc) || (sc.key(r) != k && HasKey(Loaded(journal, sc), k, sc))
  {
    var loaded := Loaded(journal, sc);
    LoadedIsWithin(journal, (set x | x in journal), sc);
    PutKeeps(loaded, r, k, sc);
    LoadedHasKeyIff(loaded, Put(loaded, r, sc), r, k, sc);
  }

  ghost predicate Safe<R(!new), K>(w: World<R>, k: K, sc: Schema<R, K>) {
    DoneKey(w.completed, k, sc) || HasKey(Loaded(w.journal, sc), k, sc)
  }

  lemma ClearKeepsRecord<R(!new), K>(journal: seq<R>, cleared: K, k: K, sc: Schema<R, K>)
    requires Lawful(sc) && HasKey(Loaded(journal, sc), k, sc) && cleared != k
    ensures HasKey(Loaded(Without(Loaded(journal, sc), cleared, sc), sc), k, sc)
  {
    LoadedIsWithin(journal, (set x | x in journal), sc);
    RowsSurvive(Loaded(journal, sc), Without(Loaded(journal, sc), cleared, sc), k, sc);
  }

  lemma DoneStaysDone<R(!new), K>(w: World<R>, op: Op<R>, k: K, sc: Schema<R, K>)
    requires DoneKey(w.completed, k, sc)
    ensures DoneKey(Step(w, op, sc).completed, k, sc)
  {
    var c :| c in w.completed && sc.key(c) == k;
    assert c in Step(w, op, sc).completed;
  }

  lemma StepKeepsSafe<R(!new), K>(w: World<R>, op: Op<R>, k: K, sc: Schema<R, K>)
    requires Lawful(sc) && DoneWithin(w, Origins(w.accepted, sc)) && Safe(w, k, sc)
    requires op.Accept? && sc.key(op.r) == k ==> WellFormed(op.r, sc)
    ensures Safe(Step(w, op, sc), k, sc)
  {
    if DoneKey(w.completed, k, sc) {
      DoneStaysDone(w, op, k, sc);
    } else {
        if op.Accept? {
        AcceptKeepsRecordIff(w.journal, op.r, k, sc);
      } else if op.Clear? && op.r in w.clearing {
        assert op.r in w.completed;
        ClearKeepsRecord(w.journal, sc.key(op.r), k, sc);
      }
    }
  }

  /** No message accepted under another key is cleaned into this one. */
  ghost predicate Uninvaded<R, K>(accepted: set<R>, k: K, sc: Schema<R, K>) {
    forall a :: a in accepted && LoadsUnder(a, k, sc) ==> sc.key(a) == k
  }

  /** Some record will be loaded under the key. */
  ghost predicate Holds<R, K>(rows: seq<R>, k: K, sc: Schema<R, K>) {
    exists r :: r in rows && LoadsUnder(r, k, sc)
  }

  lemma LoadedHasWhatRowsHold<R(!new), K>(rows: seq<R>, k: K, sc: Schema<R, K>)
    ensures HasKey(Loaded(rows, sc), k, sc) <==> Holds(rows, k, sc)
  {
    if HasKey(Loaded(rows, sc), k, sc) {
      var x :| x in Loaded(rows, sc) && sc.key(x) == k;
      var r :| r in rows && sc.clean(r) == Some(x);
      assert LoadsUnder(r, k, sc);
    }
    if Holds(rows, k, sc) {
      var r :| r in rows && LoadsUnder(r, k, sc);
      assert sc.clean(r).value in Loaded(rows, sc);
    }
  }

  /** Writing loaded records, and perhaps one more, holds nothing new. */
  lemma WrittenHolds<R(!new), K>(journal: seq<R>, written: seq<R>, k: K, sc: Schema<R, K>)
    requires Lawful(sc) && forall x :: x in written ==> x in Loaded(journal, sc) || !LoadsUnder(x, k, sc)
    ensures Holds(written, k, sc) ==> Holds(journal, k, sc)
  {
    if Holds(written, k, sc) {
      var x :| x in written && LoadsUnder(x, k, sc);
      var r :| r in journal && sc.clean(r) == Some(x);
      assert LoadsUnder(r, k, sc);
    }
  }

  lemma StepKeepsGone<R(!new), K>(w: World<R>, op: Op<R>, k: K, sc: Schema<R, K>)
    requires Lawful(sc) && !Holds(w.journal, k, sc)
    requires op.Accept? ==> !LoadsUnder(op.r, k, sc)
    ensures !Holds(Step(w, op, sc).journal, k, sc)
  {
    if op.Accept? {
      PutKeeps(Loaded(w.journal, sc), op.r, k, sc);
      WrittenHolds(w.journal, Put(Loaded(w.journal, sc), op.r, sc), k, sc);
    } else if op.Clear? {
      WrittenHolds(w.journal, Without(Loaded(w.journal, sc), sc.key(op.r), sc), k, sc);
    }
  }

  // ---------- One record per key, in order ----------

  ghost predicate Tidy<R(!new), K(!new)>(w: World<R>, sc: Schema<R, K>) {
    InOrder(w.journal, ByTime(sc)) && forall k :: Uninvaded(w.accepted, k, sc) ==> Once(w.journal, sc.key, k)
  }

  lemma LoadedIsTidy<R(!new), K(!new)>(w: World<R>, k: K, sc: Schema<R, K>)
    requires Lawful(sc) && Flow(w, sc) && Tidy(w, sc) && Uninvaded(w.accepted, k, sc)
    ensures Once(Loaded(w.journal, sc), sc.key, k)
  {
    forall r | r in w.journal && LoadsUnder(r, k, sc) ensures sc.key(r) == k {
      if r !in w.accepted { var a :| a in w.accepted && sc.clean(a).Some? && sc.clean(a).value == r; }
    }
    CleanedKeepsOnce(w.journal, k, sc);
    LoadedIsCleaned(w.journal, sc);
  }

  lemma StepKeepsTidy<R(!new), K(!new)>(w: World<R>, op: Op<R>, sc: Schema<R, K>)
    requires Lawful(sc) && Flow(w, sc) && Tidy(w, sc)
    ensures Tidy(Step(w, op, sc), sc)
  {
    var loaded, after := Loaded(w.journal, sc), Step(w, op, sc);
    if op.Accept? {
      PutKeeps(loaded, op.r, sc.key(op.r), sc);
    } else if op.Clear? {
      ByTimeIsOrder(sc);
      SortedIsInOrder(Cleaned(w.journal, sc), ByTime(sc));
      WhereKeepsOrder(loaded, KeyIsNot(sc.key(op.r), sc), ByTime(sc));
    }
    forall k | Uninvaded(after.accepted, k, sc) ensures Once(after.journal, sc.key, k) {
      assert Uninvaded(w.accepted, k, sc) by { assert w.accepted <= after.accepted; }
      LoadedIsTidy(w, k, sc);
      if op.Accept? {
        PutKeeps(loaded, op.r, k, sc);
      } else if op.Clear? {
        WhereKeepsOnce(loaded, KeyIsNot(sc.key(op.r), sc), sc.key, k);
      }
    }
  }

  // ---------- Whole runs ----------

  ghost predicate Inv<R(!new), K(!new)>(w: World<R>, sc: Schema<R, K>) {
    Flow(w, sc) && Tidy(w, sc)
  }

  lemma {:induction false} RunKeepsInv<R(!new), K(!new)>(ops: seq<Op<R>>, sc: Schema<R, K>)
    requires Lawful(sc)
    ensures Inv(Run(ops, sc), sc)
    decreases |ops|
  {
    if ops != [] {
      var before := Run(ops[..|ops| - 1], sc);
      RunKeepsInv(ops[..|ops| - 1], sc);
      StepKeepsFlow(before, ops[|ops| - 1], sc);
      StepKeepsTidy(before, ops[|ops| - 1], sc);
    }
  }

  predicate AcceptsUnder<R, K(==)>(op: Op<R>, k: K, sc: Schema<R, K>) {
    op.Accept? && sc.key(op.r) == k
  }

  /** Step `i` accepts a message under the key, and neither that message nor a later one under the key is malformed. */
  ghost predicate KeptSince<R, K>(ops: seq<Op<R>>, i: nat, k: K, sc: Schema<R, K>) {
    && i < |ops| && AcceptsUnder(ops[i], k, sc)
    && forall j :: i <= j < |ops| && AcceptsUnder(ops[j], k, sc) ==> WellFormed(ops[j].r, sc)
  }

  /** What happens under other keys does not matter, however malformed it is. */
  lemma {:induction false} KeptIsDoneOrJournaled<R(!new), K(!new)>(ops: seq<Op<R>>, i: nat, k: K, sc: Schema<R, K>)
    requires Lawful(sc) && KeptSince(ops, i, k, sc)
    ensures Safe(Run(ops, sc), k, sc)
    decreases |ops|
  {
    var front, n := ops[..|ops| - 1], |ops| - 1;
    if i == n {
      AcceptKeepsRecordIff(Run(front, sc).journal, ops[n].r, k, sc);
    } else {
      RunKeepsInv(front, sc);
      assert KeptSince(front, i, k, sc) by { assert forall j :: 0 <= j < n ==> front[j] == ops[j]; }
      KeptIsDoneOrJournaled(front, i, k, sc);
      StepKeepsSafe(Run(front, sc), ops[n], k, sc);
    }
  }

  lemma StepAccepts<R(!new), K>(w: World<R>, op: Op<R>, sc: Schema<R, K>)
    ensures Step(w, op, sc).accepted == w.accepted + if op.Accept? then {op.r} else {}
  {
  }

  ghost function AcceptedIn<R>(ops: seq<Op<R>>): set<R> {
    set i | 0 <= i < |ops| && ops[i].Accept? :: ops[i].r
  }

  lemma AcceptedNext<R(!new)>(ops: seq<Op<R>>)
    requires ops != []
    ensures var op := ops[|ops| - 1]; AcceptedIn(ops) == AcceptedIn(ops[..|ops| - 1]) + if op.Accept? then {op.r} else {}
  {
    var front := ops[..|ops| - 1];
    forall a | a in AcceptedIn(front) ensures a in AcceptedIn(ops) {
      var i :| 0 <= i < |front| && front[i].Accept? && front[i].r == a;
      assert ops[i] == front[i];
    }
  }

  lemma {:induction false} AcceptedBySteps<R(!new), K>(ops: seq<Op<R>>, sc: Schema<R, K>)
    ensures Run(ops, sc).accepted == AcceptedIn(ops)
    decreases |ops|
  {
    if ops != [] {
      AcceptedBySteps(ops[..|ops| - 1], sc);
      StepAccepts(Run(ops[..|ops| - 1], sc), ops[|ops| - 1], sc);
      AcceptedNext(ops);
    }
  }

  lemma KeptSinceItsStep<R(!new), K>(ops: seq<Op<R>>, a: R, sc: Schema<R, K>) returns (i: nat)
    requires a in Run(ops, sc).accepted
    requires forall b :: b in Run(ops, sc).accepted && sc.key(b) == sc.key(a) ==> WellFormed(b, sc)
    ensures KeptSince(ops, i, sc.key(a), sc)
  {
    AcceptedBySteps(ops, sc);
    i :| 0 <= i < |ops| && ops[i].Accept? && ops[i].r == a;
    forall j | i <= j < |ops| && AcceptsUnder(ops[j], sc.key(a), sc) ensures WellFormed(ops[j].r, sc) {
      assert ops[j].r in AcceptedIn(ops);
    }
  }

  /**
   After any run, an accepted message is done under its key or still journaled under it, if no message accepted
   under that key is malformed.
   */
  lemma AcceptedIsDoneOrJournaled<R(!new), K(!new)>(ops: seq<Op<R>>, a: R, sc: Schema<R, K>)
    requires Lawful(sc) && a in Run(ops, sc).accepted
    requires forall b :: b in Run(ops, sc).accepted && sc.key(b) == sc.key(a) ==> WellFormed(b, sc)
    ensures Safe(Run(ops, sc), sc.key(a), sc)
  {
    var i := KeptSinceItsStep(ops, a, sc);
    KeptIsDoneOrJournaled(ops, i, sc.key(a), sc);
  }

  /** Step `i` is the last to accept a message under the key. */
  ghost predicate LastUnder<R, K>(ops: seq<Op<R>>, i: nat, k: K, sc: Schema<R, K>) {
    i < |ops| && AcceptsUnder(ops[i], k, sc) && forall j :: i < j < |ops| ==> !AcceptsUnder(ops[j], k, sc)
  }

  lemma {:induction false} GoneStaysGone<R(!new), K>(ops: seq<Op<R>>, i: nat, k: K, sc: Schema<R, K>)
    requires Lawful(sc) && LastUnder(ops, i, k, sc) && !WellFormed(ops[i].r, sc)
    requires Uninvaded(Run(ops, sc).accepted, k, sc)
    ensures !Holds(Run(ops, sc).journal, k, sc)
    decreases |ops|
  {
    var front, n := ops[..|ops| - 1], |ops| - 1;
    if i == n {
      AcceptKeepsRecordIff(Run(front, sc).journal, ops[n].r, k, sc);
    } else {
      assert LastUnder(front, i, k, sc) by { assert forall j :: 0 <= j < n ==> front[j] == ops[j]; }
      StepAccepts(Run(front, sc), ops[n], sc);
      GoneStaysGone(front, i, k, sc);
      StepKeepsGone(Run(front, sc), ops[n], k, sc);
    }
  }

  /** The exact condition: a key that is not done is journaled exactly when the last message accepted under it is loaded under it. */
  lemma JournaledIffLastIsWellFormed<R(!new), K(!new)>(ops: seq<Op<R>>, i: nat, k: K, sc: Schema<R, K>)
    requires Lawful(sc) && LastUnder(ops, i, k, sc) && Uninvaded(Run(ops, sc).accepted, k, sc)
    requires !DoneKey(Run(ops, sc).completed, k, sc)
    ensures HasKey(Loaded(Run(ops, sc).journal, sc), k, sc) <==> WellFormed(ops[i].r, sc)
  {
    if WellFormed(ops[i].r, sc) {
      KeptIsDoneOrJournaled(ops, i, k, sc);
    } else {
      GoneStaysGone(ops, i, k, sc);
    }
  }

  predicate IsOrLoadsAs<R(==), K>(x: R, a: R, sc: Schema<R, K>) {
    x == a || sc.clean(a) == Some(x)
  }

  /** No other message, as it was accepted or as a load cleans it, has this one's key. */
  ghost predicate OwnKey<R, K>(a: R, accepted: set<R>, sc: Schema<R, K>) {
    forall b :: b in Origins(accepted, sc) && sc.key(b) == sc.key(a) ==> IsOrLoadsAs(b, a, sc)
  }

  /** A well-formed message whose key is its own is itself done or journaled, whatever else was accepted. */
  lemma AcceptedItselfIsDoneOrJournaled<R(!new), K(!new)>(ops: seq<Op<R>>, a: R, sc: Schema<R, K>)
    requires Lawful(sc) && a in Run(ops, sc).accepted
    requires WellFormed(a, sc) && OwnKey(a, Run(ops, sc).accepted, sc)
    ensures var w := Run(ops, sc);
            exists x :: IsOrLoadsAs(x, a, sc) && (x in w.completed || x in Loaded(w.journal, sc))
  {
    var w := Run(ops, sc);
    forall b | b in w.accepted && sc.key(b) == sc.key(a) ensures WellFormed(b, sc) { assert IsOrLoadsAs(b, a, sc); }
    AcceptedIsDoneOrJournaled(ops, a, sc);
    RunKeepsInv(ops, sc);
    LoadedIsWithin(w.journal, w.accepted, sc);
    var x :| (x in w.completed || x in Loaded(w.journal, sc)) && sc.key(x) == sc.key(a);
    assert x in Origins(w.accepted, sc);
  }

  /** The journal is always sorted by creation time, and holds at most one record under a key that nothing is cleaned into. */
  lemma JournalIsOrderedAndKeyed<R(!new), K(!new)>(ops: seq<Op<R>>, k: K, sc: Schema<R, K>)
    requires Lawful(sc)
    ensures var w := Run(ops, sc);
            && InOrder(w.journal, ByTime(sc))
            && (forall x :: x in w.journal ==> x in Origins(w.accepted, sc))
            && (Uninvaded(w.accepted, k, sc) ==> Once(w.journal, sc.key, k))
  {
    RunKeepsInv(ops, sc);
  }

  // ---------- Restarts ----------

  /** A restart: everything in memory is gone, and the first `limit` records are queued. */
  function Restarted<R(!new, ==), K(==)>(w: World<R>, limit: nat, sc: Schema<R, K>): World<R> {
    Step(Step(w, Crash, sc), Restore(limit), sc)
  }

  lemma CrashLeavesJournal<R(!new), K>(w: World<R>, sc: Schema<R, K>)
    ensures var after := Step(w, Crash, sc); after.journal == w.journal && after.queue == []
  {
  }

  lemma RestoreQueues<R(!new), K>(w: World<R>, limit: nat, sc: Schema<R, K>)
    requires w.queue == []
    ensures var after := Step(w, Restore(limit), sc);
            after.journal == w.journal && after.queue == FirstRows(Loaded(w.journal, sc), limit)
  {
  }

  lemma RestartedIs<R(!new), K>(w: World<R>, limit: nat, sc: Schema<R, K>)
    ensures Restarted(w, limit, sc).journal == w.journal
    ensures Restarted(w, limit, sc).queue == FirstRows(Loaded(w.journal, sc), limit)
  {
    CrashLeavesJournal(w, sc);
    RestoreQueues(Step(w, Crash, sc), limit, sc);
  }

  lemma FirstRowsIs<R>(rows: seq<R>, limit: nat)
    ensures FirstRows(rows, limit) <= rows && |FirstRows(rows, limit)| == if limit < |rows| then limit else |rows|
  {
  }

  /** In journal order: cleaning moves no record, and none is lost that a load accepts. */
  lemma RestartQueuesFirstRows<R(!new), K(!new)>(ops: seq<Op<R>>, limit: nat, sc: Schema<R, K>)
    requires Lawful(sc)
    ensures var w := Run(ops, sc);
            && Restarted(w, limit, sc).journal == w.journal
            && Restarted(w, limit, sc).queue <= Cleaned(w.journal, sc)
            && |Restarted(w, limit, sc).queue| == (if limit < |Cleaned(w.journal, sc)| then limit else |Cleaned(w.journal, sc)|)
            && (Cleaned(w.journal, sc) == w.journal <==> AllClean(w.journal, sc))
  {
    var w := Run(ops, sc);
    assert Loaded(w.journal, sc) == Cleaned(w.journal, sc) && (Cleaned(w.journal, sc) == w.journal <==> AllClean(w.journal, sc)) by {
      RunKeepsInv(ops, sc);
      LoadedIsCleaned(w.journal, sc);
      LoadedIsIdentityIff(w.journal, sc);
    }
    RestartedIs(w, limit, sc);
    FirstRowsIs(Cleaned(w.journal, sc), limit);
  }

  /** With room for the whole journal, a restart queues under its key every accepted message that is not done. */
  lemma RestartRequeuesAll<R(!new), K(!new)>(ops: seq<Op<R>>, limit: nat, a: R, sc: Schema<R, K>)
    requires Lawful(sc) && a in Run(ops, sc).accepted && !DoneKey(Run(ops, sc).completed, sc.key(a), sc)
    requires forall b :: b in Run(ops, sc).accepted && sc.key(b) == sc.key(a) ==> WellFormed(b, sc)
    requires |Loaded(Run(ops, sc).journal, sc)| <= limit
    ensures HasKey(Restarted(Run(ops, sc), limit, sc).queue, sc.key(a), sc)
    ensures OwnKey(a, Run(ops, sc).accepted, sc) ==>
              exists x :: IsOrLoadsAs(x, a, sc) && x in Restarted(Run(ops, sc), limit, sc).queue
  {
    var w := Run(ops, sc);
    AcceptedIsDoneOrJournaled(ops, a, sc);
    RunKeepsInv(ops, sc);
    LoadedIsWithin(w.journal, w.accepted, sc);
    var x :| x in Loaded(w.journal, sc) && sc.key(x) == sc.key(a);
    RestartedIs(w, limit, sc);
    assert x in Restarted(w, limit, sc).queue && x in Origins(w.accepted, sc);
  }
}
