/**
 Who gets a permit, and when: sessions serve their tasks in the order in which they came, no wake-up is lost, and the
 slot table forgets only what was unused longest.
 */
module DispatchFairness {
  import opened Sets
  import opened DispatchSlots

  // ---------- Who starts at once ----------

  ghost predicate Pending(tasks: map<nat, Task>, session: Session) {
    exists t :: t in tasks && tasks[t].session == session && (tasks[t].pc == Waiting || tasks[t].pc == Granted)
  }

  lemma LockedIff(st: State, session: Session, found: Slot, cfg: Config)
    requires SessionInv(found, st.tasks, session, cfg)
    ensures Locked(st, session, found) <==> Pending(st.tasks, session) || |Holders(st.tasks, session)| == cfg.maxPerSession
  {
    if found.queue != [] {
      assert found.queue[0] in Queued(found.queue);
      assert found.queue[0] in Waiters(st.tasks, session);
    }
    if exists t :: t in st.tasks && st.tasks[t].session == session && st.tasks[t].pc == Waiting {
      var t :| t in st.tasks && st.tasks[t].session == session && st.tasks[t].pc == Waiting;
      assert t in Waiters(st.tasks, session) && t in Queued(found.queue);
    }
  }

  /**
   In every run a task that enters starts at once exactly if its session has a permit to spare and nobody of the
   session waits or has been woken and not resumed; otherwise it waits.
   */
  lemma StartsAtOnceIff(sts: seq<State>, ops: seq<Op>, cfg: Config, n: nat)
    requires IsRun(sts, ops, cfg) && n < |ops| && ops[n].Enter?
    ensures var op, tasks, after := ops[n], sts[n].tasks, sts[n + 1].tasks;
            && op.task in after && after[op.task].session == op.session && after == tasks[op.task := after[op.task]]
            && after[op.task].pc == if Pending(tasks, op.session) || |Holders(tasks, op.session)| == cfg.maxPerSession then Waiting else Running
  {
    RunKeepsInv(sts, ops, cfg, n);
    FoundSlotInv(sts[n], ops[n].session, ops[n].now, cfg);
    var found := FoundSlot(sts[n], ops[n].session, ops[n].now, cfg);
    var slot := found.(leases := found.leases + 1, lastUsed := ops[n].now);
    LockedIff(sts[n], ops[n].session, found, cfg);
    assert Locked(sts[n], ops[n].session, slot) == Locked(sts[n], ops[n].session, found);
  }

  // ---------- First come, first served ----------

  /** The step at which the task came in last, or -1. */
  function Arrival(ops: seq<Op>, n: nat, t: nat): (i: int)
    requires n <= |ops|
    ensures -1 <= i < n
  {
    if n == 0 then -1 else if ops[n - 1].Enter? && ops[n - 1].task == t then n - 1 else Arrival(ops, n - 1, t)
  }

  function Arrivals(ops: seq<Op>, n: nat): nat -> int
    requires n <= |ops|
  {
    (t: nat) => Arrival(ops, n, t)
  }

  ghost predicate Holds(tasks: map<nat, Task>, t: nat, session: Session) {
    t in tasks && tasks[t].session == session && (tasks[t].pc == Granted || tasks[t].pc == Running)
  }

  ghost predicate InLine(queue: seq<nat>, at: nat -> int) {
    forall i, j :: 0 <= i < j < |queue| ==> at(queue[i]) < at(queue[j])
  }

  /** The queue is in the order of arrival, and whoever holds a permit came before all of it. */
  ghost predicate Lined(slot: Slot, tasks: map<nat, Task>, session: Session, at: nat -> int) {
    && InLine(slot.queue, at)
    && (forall h, i :: Holds(tasks, h, session) && 0 <= i < |slot.queue| ==> at(h) < at(slot.queue[i]))
  }

  /** A queue with a permit to spare is about to move: somebody was woken and has not resumed. */
  ghost predicate Awake(slot: Slot, tasks: map<nat, Task>, session: Session) {
    slot.queue != [] && slot.value > 0 ==> exists g :: g in tasks && tasks[g] == Task(session, Granted)
  }

  ghost predicate Fair(st: State, at: nat -> int) {
    forall s :: s in st.slots ==> Lined(st.slots[s], st.tasks, s, at) && Awake(st.slots[s], st.tasks, s)
  }

  /** The same, but for one session that may still have to be woken. */
  ghost predicate FairBut(st: State, session: Session, at: nat -> int) {
    && (forall s :: s in st.slots ==> Lined(st.slots[s], st.tasks, s, at))
    && (forall s :: s in st.slots && s != session ==> Awake(st.slots[s], st.tasks, s))
  }

  /** The queue lists tasks of its session that wait, each once. */
  ghost predicate Mine(st: State, session: Session) {
    session in st.slots ==>
      && Distinct(st.slots[session].queue)
      && forall t :: t in st.slots[session].queue ==> t in st.tasks && st.tasks[t] == Task(session, Waiting)
  }

  lemma InvIsMine(st: State, session: Session, cfg: Config)
    requires DispatchSlots.Inv(st, cfg)
    ensures Mine(st, session)
  {
    if session in st.slots {
      assert SessionInv(st.slots[session], st.tasks, session, cfg);
      forall t | t in st.slots[session].queue ensures t in st.tasks && st.tasks[t] == Task(session, Waiting) {
        assert t in Queued(st.slots[session].queue);
        assert t in Waiters(st.tasks, session);
      }
    }
  }

  lemma OthersStay(st: State, after: State, t: nat, session: Session, s: Session, at: nat -> int)
    requires ChangesOnly(st.tasks, after.tasks, t, session) && s != session
    requires s in st.slots && s in after.slots && after.slots[s] == st.slots[s]
    ensures Lined(st.slots[s], st.tasks, s, at) ==> Lined(after.slots[s], after.tasks, s, at)
    ensures Awake(st.slots[s], st.tasks, s) ==> Awake(after.slots[s], after.tasks, s)
  {
    forall h ensures Holds(after.tasks, h, s) <==> Holds(st.tasks, h, s) { }
    if exists g :: g in st.tasks && st.tasks[g] == Task(s, Granted) {
      var g :| g in st.tasks && st.tasks[g] == Task(s, Granted);
      assert g in after.tasks && after.tasks[g] == Task(s, Granted);
    }
  }

  /** A change to one task and its session's slot leaves the other sessions fair. */
  lemma LocalChange(st: State, after: State, t: nat, session: Session, at: nat -> int)
    requires FairBut(st, session, at) && ChangesOnly(st.tasks, after.tasks, t, session)
    requires session in after.slots && after.slots == st.slots[session := after.slots[session]]
    requires Lined(after.slots[session], after.tasks, session, at)
    ensures FairBut(after, session, at)
    ensures Awake(after.slots[session], after.tasks, session) ==> Fair(after, at)
  {
    forall s | s in after.slots && s != session
      ensures Lined(after.slots[s], after.tasks, s, at) && Awake(after.slots[s], after.tasks, s)
    {
      OthersStay(st, after, t, session, s, at);
    }
  }

  /** Waking the first in line keeps the line. */
  lemma WakeNextIsFair(st: State, session: Session, at: nat -> int)
    requires FairBut(st, session, at) && CanWake(st, session) && Mine(st, session)
    ensures FairBut(WakeNext(st, session), session, at) && Mine(WakeNext(st, session), session)
    ensures exists g :: g in WakeNext(st, session).tasks && WakeNext(st, session).tasks[g] == Task(session, Granted)
  {
    var slot, after := st.slots[session], WakeNext(st, session);
    var t := slot.queue[0];
    assert forall i :: 0 <= i < |slot.queue| - 1 ==> slot.queue[1..][i] == slot.queue[i + 1];
    assert forall h :: Holds(after.tasks, h, session) ==> Holds(st.tasks, h, session) || h == t;
    assert after.tasks[t] == Task(session, Granted);
    LocalChange(st, after, t, session, at);
    forall x | x in slot.queue[1..] ensures x in after.tasks && after.tasks[x] == Task(session, Waiting) {
      assert x in slot.queue && x != t;
    }
  }

  lemma {:induction false} WakeAllIsFair(st: State, session: Session, at: nat -> int)
    requires FairBut(st, session, at) && Mine(st, session)
    ensures Fair(WakeAll(st, session), at)
    decreases if session in st.slots then |st.slots[session].queue| else 0
  {
    if CanWake(st, session) {
      WakeNextIsFair(st, session, at);
      WakeAllIsFair(WakeNext(st, session), session, at);
    } else if session in st.slots {
      assert st.slots[session].queue != [] ==> st.slots[session].queue[0] in st.slots[session].queue;
    }
  }

  // ---------- Step by step ----------

  lemma QueuedLast(slot: Slot, tasks: map<nat, Task>, t: nat, session: Session, at: nat -> int)
    requires Lined(slot, tasks, session, at) && t !in tasks
    requires (forall i :: 0 <= i < |slot.queue| ==> at(slot.queue[i]) < at(t)) && forall h :: Holds(tasks, h, session) ==> at(h) < at(t)
    ensures Lined(slot.(queue := slot.queue + [t]), tasks[t := Task(session, Waiting)], session, at)
  {
    var tasks' := tasks[t := Task(session, Waiting)];
    forall h ensures Holds(tasks', h, session) <==> Holds(tasks, h, session) { }
  }

  lemma StaysAwake(slot: Slot, slot': Slot, tasks: map<nat, Task>, t: nat, session: Session)
    requires t !in tasks && slot.value > 0 ==> exists g :: g in tasks && tasks[g] == Task(session, Granted)
    requires slot'.value == slot.value && t !in tasks
    ensures Awake(slot', tasks[t := Task(session, Waiting)], session)
  {
    if slot.value > 0 {
      var g :| g in tasks && tasks[g] == Task(session, Granted);
      assert tasks[t := Task(session, Waiting)][g] == Task(session, Granted);
    }
  }

  /** A newcomer that finds the session locked although there is a permit finds a woken task. */
  lemma LockedByWoken(st: State, session: Session, slot: Slot)
    requires Locked(st, session, slot) && slot.value > 0 && Awake(slot, st.tasks, session)
    ensures exists g :: g in st.tasks && st.tasks[g] == Task(session, Granted)
  {
    if slot.queue == [] {
      var g :| g in st.tasks && st.tasks[g].session == session && st.tasks[g].pc == Granted;
      assert st.tasks[g] == Task(session, Granted);
    }
  }

  /** The newcomer came after everybody, and is in no queue yet. */
  lemma NewcomerInSession(st: State, t: nat, session: Session, found: Slot, now: int, at: nat -> int, cfg: Config)
    requires t !in st.tasks && Lined(found, st.tasks, session, at) && Awake(found, st.tasks, session)
    requires forall x :: x in st.tasks ==> at(x) < at(t)
    requires forall i :: 0 <= i < |found.queue| ==> found.queue[i] in st.tasks
    ensures var slot := found.(leases := found.leases + 1, lastUsed := now);
            if Locked(st, session, slot)
            then var queued, tasks := slot.(queue := slot.queue + [t]), st.tasks[t := Task(session, Waiting)];
                 Lined(queued, tasks, session, at) && Awake(queued, tasks, session)
            else var taken, tasks := slot.(value := slot.value - 1), st.tasks[t := Task(session, Running)];
                 Lined(taken, tasks, session, at) && Awake(taken, tasks, session)
  {
    var slot := found.(leases := found.leases + 1, lastUsed := now);
    assert Lined(slot, st.tasks, session, at) && Awake(slot, st.tasks, session);
    if Locked(st, session, slot) {
      QueuedLast(slot, st.tasks, t, session, at);
      if slot.value > 0 { LockedByWoken(st, session, slot); }
      StaysAwake(slot, slot.(queue := slot.queue + [t]), st.tasks, t, session);
    }
  }

  lemma EnterChanges(st: State, t: nat, session: Session, now: int, cfg: Config)
    requires t !in st.tasks && st.free > 0
    ensures var found, after := FoundSlot(st, session, now, cfg), AfterEnter(st, t, session, now, cfg);
            var slot := found.(leases := found.leases + 1, lastUsed := now);
            && ChangesOnly(st.tasks, after.tasks, t, session) && after.slots == st.slots[session := after.slots[session]]
            && (after.slots[session], after.tasks) ==
               (if Locked(st, session, slot) then (slot.(queue := slot.queue + [t]), st.tasks[t := Task(session, Waiting)])
                else (slot.(value := slot.value - 1), st.tasks[t := Task(session, Running)]))
  {
  }

  lemma FoundIsFair(st: State, session: Session, now: int, at: nat -> int, cfg: Config)
    requires Inv(st, cfg) && Fair(st, at)
    ensures var found := FoundSlot(st, session, now, cfg);
            && Lined(found, st.tasks, session, at) && Awake(found, st.tasks, session)
            && forall i :: 0 <= i < |found.queue| ==> found.queue[i] in st.tasks
  {
    InvIsMine(st, session, cfg);
    if session in st.slots {
      var queue := st.slots[session].queue;
      forall i | 0 <= i < |queue| ensures queue[i] in st.tasks { assert queue[i] in queue; }
    }
  }

  lemma SameArrivalsButOne(st: State, t: nat, at: nat -> int, at': nat -> int, cfg: Config)
    requires Inv(st, cfg) && Fair(st, at) && t !in st.tasks && forall x :: x != t ==> at'(x) == at(x)
    ensures Fair(st, at')
  {
    forall s | s in st.slots ensures Lined(st.slots[s], st.tasks, s, at') {
      InvIsMine(st, s, cfg);
      forall i | 0 <= i < |st.slots[s].queue| ensures st.slots[s].queue[i] != t { assert st.slots[s].queue[i] in st.slots[s].queue; }
    }
  }

  lemma NewcomerIsFair(st: State, t: nat, session: Session, now: int, at: nat -> int, cfg: Config)
    requires Inv(st, cfg) && Fair(st, at) && t !in st.tasks && st.free > 0 && forall x :: x != t ==> at(x) < at(t)
    ensures Fair(AfterEnter(st, t, session, now, cfg), at)
  {
    var after := AfterEnter(st, t, session, now, cfg);
    FoundIsFair(st, session, now, at, cfg);
    NewcomerInSession(st, t, session, FoundSlot(st, session, now, cfg), now, at, cfg);
    EnterChanges(st, t, session, now, cfg);
    forall s | s in after.slots ensures Lined(after.slots[s], after.tasks, s, at) && Awake(after.slots[s], after.tasks, s) {
      if s != session { OthersStay(st, after, t, session, s, at); }
    }
  }

  lemma FairIsFairBut(st: State, session: Session, at: nat -> int)
    requires Fair(st, at)
    ensures FairBut(st, session, at)
  {
  }

  lemma ResumedIsFair(st: State, t: nat, at: nat -> int, cfg: Config)
    requires Inv(st, cfg) && Fair(st, at) && t in st.tasks && st.tasks[t].pc == Granted
    ensures FairBut(SetPc(st, t, Running), st.tasks[t].session, at) && Mine(SetPc(st, t, Running), st.tasks[t].session)
  {
    var session, mid := st.tasks[t].session, SetPc(st, t, Running);
    assert session in st.slots;
    FairIsFairBut(st, session, at);
    LineBehind(st.slots[session], mid.slots[session], st.tasks, mid.tasks, session, at);
    assert mid.slots == st.slots[session := st.slots[session]];
    LocalChange(st, mid, t, session, at);
    InvIsMine(st, session, cfg);
  }

  lemma ResumeIsFair(st: State, t: nat, at: nat -> int, cfg: Config)
    requires Inv(st, cfg) && Fair(st, at) && t in st.tasks && st.tasks[t].pc == Granted
    ensures Fair(WakeAll(SetPc(st, t, Running), st.tasks[t].session), at)
  {
    ResumedIsFair(st, t, at, cfg);
    WakeAllIsFair(SetPc(st, t, Running), st.tasks[t].session, at);
  }

  lemma {:induction false} WithoutKeepsLine(queue: seq<nat>, t: nat, at: nat -> int)
    requires InLine(queue, at)
    ensures InLine(WithoutTask(queue, t), at)
  {
    if queue != [] {
      var rest := queue[1..];
      assert forall i :: 0 <= i < |rest| ==> rest[i] == queue[i + 1];
      assert InLine(rest, at);
      WithoutKeepsLine(rest, t, at);
      var kept := WithoutTask(rest, t);
      forall j | 0 <= j < |kept| ensures at(queue[0]) < at(kept[j]) {
        assert kept[j] in kept;
        assert kept[j] in rest;
      }
      FirstInLine(queue[0], kept, at);
      assert WithoutTask(queue, t) == if queue[0] == t then kept else [queue[0]] + kept;
    }
  }

  lemma FirstInLine(first: nat, rest: seq<nat>, at: nat -> int)
    requires InLine(rest, at) && forall j :: 0 <= j < |rest| ==> at(first) < at(rest[j])
    ensures InLine([first] + rest, at)
  {
    var line := [first] + rest;
    assert forall i :: 1 <= i < |line| ==> line[i] == rest[i - 1];
  }

  /** A cancelled waiter leaves the line as it was. */
  lemma LineWithout(slot: Slot, tasks: map<nat, Task>, t: nat, session: Session, at: nat -> int)
    requires Lined(slot, tasks, session, at) && Awake(slot, tasks, session) && t in tasks && tasks[t] == Task(session, Waiting)
    ensures var slot', tasks' := slot.(queue := WithoutTask(slot.queue, t)), tasks[t := Task(session, Abandoned)];
            Lined(slot', tasks', session, at) && Awake(slot', tasks', session)
  {
    var kept, tasks' := WithoutTask(slot.queue, t), tasks[t := Task(session, Abandoned)];
    WithoutKeepsLine(slot.queue, t, at);
    forall h ensures Holds(tasks', h, session) <==> Holds(tasks, h, session) { }
    forall i | 0 <= i < |kept| ensures kept[i] in slot.queue { assert kept[i] in kept; }
    if kept != [] && slot.value > 0 {
      var g :| g in tasks && tasks[g] == Task(session, Granted);
      assert tasks'[g] == Task(session, Granted);
    }
  }

  lemma CancelWaitingIsFair(st: State, t: nat, after: State, at: nat -> int, cfg: Config)
    requires Inv(st, cfg) && Fair(st, at) && Step(st, CancelWaiting(t), after, cfg)
    ensures Fair(after, at)
  {
    var session := st.tasks[t].session;
    FairIsFairBut(st, session, at);
    assert st.tasks[t] == Task(session, Waiting);
    LineWithout(st.slots[session], st.tasks, t, session, at);
    LocalChange(st, after, t, session, at);
  }

  /** Whoever stops holding a permit leaves the line as it was. */
  lemma LineBehind(slot: Slot, slot': Slot, tasks: map<nat, Task>, tasks': map<nat, Task>, session: Session, at: nat -> int)
    requires Lined(slot, tasks, session, at) && slot'.queue == slot.queue
    requires forall h :: Holds(tasks', h, session) ==> Holds(tasks, h, session)
    ensures Lined(slot', tasks', session, at)
  {
  }

  /** The woken task is cancelled and its permit is back, but nobody has been woken for it yet. */
  function Cancelled(st: State, t: nat): State
    requires t in st.tasks && st.tasks[t].session in st.slots
  {
    var session := st.tasks[t].session;
    SetSlot(SetPc(st, t, Abandoned), session, st.slots[session].(value := st.slots[session].value + 1))
  }

  lemma CancelledIsFair(st: State, t: nat, at: nat -> int, cfg: Config)
    requires Inv(st, cfg) && Fair(st, at) && t in st.tasks && st.tasks[t].pc == Granted && st.tasks[t].session in st.slots
    ensures FairBut(Cancelled(st, t), st.tasks[t].session, at) && Mine(Cancelled(st, t), st.tasks[t].session)
  {
    var session, mid := st.tasks[t].session, Cancelled(st, t);
    FairIsFairBut(st, session, at);
    LineBehind(st.slots[session], mid.slots[session], st.tasks, mid.tasks, session, at);
    LocalChange(st, mid, t, session, at);
    InvIsMine(st, session, cfg);
    forall x | x in st.slots[session].queue ensures x in mid.tasks && mid.tasks[x] == Task(session, Waiting) { assert x != t; }
  }

  lemma CancelGrantedWakes(st: State, t: nat, after: State, cfg: Config)
    requires Step(st, CancelGranted(t), after, cfg)
    ensures st.tasks[t].pc == Granted && after == WakeAll(Cancelled(st, t), st.tasks[t].session)
  {
  }

  lemma CancelGrantedIsFair(st: State, t: nat, after: State, at: nat -> int, cfg: Config)
    requires Inv(st, cfg) && Fair(st, at) && Step(st, CancelGranted(t), after, cfg)
    ensures Fair(after, at)
  {
    CancelledIsFair(st, t, at, cfg);
    CancelGrantedWakes(st, t, after, cfg);
    WakeAllIsFair(Cancelled(st, t), st.tasks[t].session, at);
  }

  lemma LeftIsFair(st: State, t: nat, now: int, at: nat -> int, cfg: Config)
    requires Inv(st, cfg) && Fair(st, at) && t in st.tasks && st.tasks[t].pc == Running && st.slots[st.tasks[t].session].leases > 0
    ensures FairBut(Left(st, t, now), st.tasks[t].session, at) && Mine(Left(st, t, now), st.tasks[t].session)
  {
    var session, left := st.tasks[t].session, Left(st, t, now);
    FairIsFairBut(st, session, at);
    LineBehind(st.slots[session], left.slots[session], st.tasks, left.tasks, session, at);
    LocalChange(st, left, t, session, at);
    InvIsMine(st, session, cfg);
    forall x | x in left.slots[session].queue ensures x in left.tasks && left.tasks[x] == Task(session, Waiting) { assert x != t; }
  }

  lemma WakeOneIsFair(st: State, session: Session, at: nat -> int)
    requires session in st.slots && FairBut(st, session, at) && Mine(st, session) && st.slots[session].value > 0
    ensures Fair(WakeOne(st, session), at)
  {
    if st.slots[session].queue != [] {
      assert st.slots[session].queue[0] in st.slots[session].queue;
      WakeNextIsFair(st, session, at);
    }
  }

  lemma ReleaseIsFair(st: State, t: nat, now: int, after: State, at: nat -> int, cfg: Config)
    requires Inv(st, cfg) && Fair(st, at) && Step(st, Release(t, now), after, cfg)
    ensures Fair(after, at)
  {
    var session := st.tasks[t].session;
    LeftKeepsBooks(st, t, now, cfg);
    LeftIsFair(st, t, now, at, cfg);
    WakeOneIsFair(Left(st, t, now), session, at);
    ReturnedWakesLeft(st, t, now);
    PrunedKeepsLeased(Returned(st, t, now).slots, after.slots, cfg.slotLimit);
  }

  lemma StepIsFair(st: State, op: Op, after: State, at: nat -> int, at': nat -> int, cfg: Config)
    requires Inv(st, cfg) && Step(st, op, after, cfg) && Fair(st, at)
    requires if op.Enter? then forall x :: x != op.task ==> at'(x) == at(x) && at(x) < at'(op.task) else forall x :: at'(x) == at(x)
    ensures Fair(after, at')
  {
    if op.Enter? { SameArrivalsButOne(st, op.task, at, at', cfg); } else { SameArrivals(st, at, at'); }
    match op
    case Enter(t, session, now) => NewcomerIsFair(st, t, session, now, at', cfg);
    case Resume(t) => ResumeIsFair(st, t, at', cfg);
    case CancelWaiting(t) => CancelWaitingIsFair(st, t, after, at', cfg);
    case CancelGranted(t) => CancelGrantedIsFair(st, t, after, at', cfg);
    case WakeMore(session) =>
      FairIsFairBut(st, session, at');
      InvIsMine(st, session, cfg);
      WakeAllIsFair(st, session, at');
    case Release(t, now) => ReleaseIsFair(st, t, now, after, at', cfg);
  }

  lemma SameArrivals(st: State, at: nat -> int, at': nat -> int)
    requires Fair(st, at) && forall x :: at'(x) == at(x)
    ensures Fair(st, at')
  {
  }

  lemma {:induction false} RunIsFair(sts: seq<State>, ops: seq<Op>, cfg: Config, n: nat)
    requires IsRun(sts, ops, cfg) && n < |sts|
    ensures Fair(sts[n], Arrivals(ops, n))
  {
    if n > 0 {
      RunKeepsInv(sts, ops, cfg, n - 1);
      RunIsFair(sts, ops, cfg, n - 1);
      StepIsFair(sts[n - 1], ops[n - 1], sts[n], Arrivals(ops, n - 1), Arrivals(ops, n), cfg);
    }
  }

  /** In every reachable state, of two tasks of one session the one that came first holds a permit if the other one does, or was cancelled. */
  lemma PermitsGoInOrder(sts: seq<State>, ops: seq<Op>, cfg: Config, n: nat, first: nat, second: nat)
    requires IsRun(sts, ops, cfg) && n < |sts|
    requires first in sts[n].tasks && second in sts[n].tasks && sts[n].tasks[first].session == sts[n].tasks[second].session
    requires Arrival(ops, n, first) < Arrival(ops, n, second)
    requires sts[n].tasks[second].pc == Granted || sts[n].tasks[second].pc == Running
    ensures sts[n].tasks[first].pc != Waiting
  {
    RunKeepsInv(sts, ops, cfg, n);
    RunIsFair(sts, ops, cfg, n);
    var st, session, at := sts[n], sts[n].tasks[first].session, Arrivals(ops, n);
    assert Holds(st.tasks, second, session) && at(first) < at(second);
    if st.tasks[first].pc == Waiting { WaiterIsBehind(st, session, first, second, at, cfg); }
  }

  lemma WaiterIsBehind(st: State, session: Session, waiter: nat, holder: nat, at: nat -> int, cfg: Config)
    requires Inv(st, cfg) && Fair(st, at) && Holds(st.tasks, holder, session)
    requires waiter in st.tasks && st.tasks[waiter] == Task(session, Waiting)
    ensures at(holder) < at(waiter)
  {
    assert SessionInv(st.slots[session], st.tasks, session, cfg);
    assert waiter in Waiters(st.tasks, session);
    assert waiter in Queued(st.slots[session].queue);
    var i :| 0 <= i < |st.slots[session].queue| && st.slots[session].queue[i] == waiter;
    assert Lined(st.slots[session], st.tasks, session, at);
  }

  /** No wake-up is lost: while somebody waits, all permits of the session are held, or a woken task is about to resume and wake the next. */
  lemma NoWakeUpIsLost(sts: seq<State>, ops: seq<Op>, cfg: Config, n: nat, t: nat)
    requires IsRun(sts, ops, cfg) && n < |sts| && t in sts[n].tasks && sts[n].tasks[t].pc == Waiting
    ensures var tasks, session := sts[n].tasks, sts[n].tasks[t].session;
            |Holders(tasks, session)| == cfg.maxPerSession || exists g :: g in tasks && tasks[g] == Task(session, Granted)
  {
    RunKeepsInv(sts, ops, cfg, n);
    RunIsFair(sts, ops, cfg, n);
    var st, session := sts[n], sts[n].tasks[t].session;
    assert SessionInv(st.slots[session], st.tasks, session, cfg);
    assert t in Waiters(st.tasks, session);
    assert t in Queued(st.slots[session].queue);
  }

  lemma {:induction false} WakeAllServes(st: State, session: Session, cfg: Config)
    requires BooksExcept(st, session, cfg) && session in st.slots && TableInv(st.slots, cfg)
    ensures var after := WakeAll(st, session);
            session in after.slots && (after.slots[session].value == 0 || after.slots[session].queue == [])
    decreases |st.slots[session].queue|
  {
    if CanWake(st, session) {
      WakeNextKeepsBooks(st, session, cfg);
      BooksExceptAny(WakeNext(st, session), session, cfg);
      WakeAllServes(WakeNext(st, session), session, cfg);
    } else {
      var slot := st.slots[session];
      assert SessionInv(slot, st.tasks, session, cfg);
      if slot.queue != [] {
        assert slot.queue[0] in Queued(slot.queue);
        assert slot.queue[0] in Waiters(st.tasks, session);
      }
    }
  }

  lemma ResumeIsExcept(st: State, t: nat, cfg: Config)
    requires Inv(st, cfg) && t in st.tasks && st.tasks[t].pc == Granted
    ensures var mid, session := SetPc(st, t, Running), st.tasks[t].session;
            BooksExcept(mid, session, cfg) && session in mid.slots && TableInv(mid.slots, cfg)
  {
    var session, mid := st.tasks[t].session, SetPc(st, t, Running);
    ResumeInSession(st.slots[session], st.tasks, t, session, cfg);
    SameTaskCount(st.tasks, t, Task(session, Running));
    BooksExceptAny(st, session, cfg);
    assert mid.slots == st.slots[session := st.slots[session]];
    LocalStep(st, mid, t, session, st.slots[session], cfg);
  }

  /** A woken task that resumes hands on all permits its session has left: then all are held, or nobody waits. */
  lemma ResumeServesAll(sts: seq<State>, ops: seq<Op>, cfg: Config, n: nat)
    requires IsRun(sts, ops, cfg) && n < |ops| && ops[n].Resume?
    ensures var tasks, session := sts[n + 1].tasks, sts[n].tasks[ops[n].task].session;
            |Holders(tasks, session)| == cfg.maxPerSession || Waiters(tasks, session) == {}
  {
    RunKeepsInv(sts, ops, cfg, n);
    RunKeepsInv(sts, ops, cfg, n + 1);
    var st, t, after := sts[n], ops[n].task, sts[n + 1];
    var session := st.tasks[t].session;
    ResumeIsExcept(st, t, cfg);
    WakeAllServes(SetPc(st, t, Running), session, cfg);
    assert SessionInv(after.slots[session], after.tasks, session, cfg);
    assert Queued([]) == {};
  }

  // ---------- Which slots are forgotten ----------

  /** When the session was last entered or left. */
  function LastUse(sts: seq<State>, ops: seq<Op>, n: nat, session: Session): int
    requires n < |sts| == |ops| + 1
  {
    if n == 0 then 0
    else
      var st := sts[n - 1];
      match ops[n - 1]
      case Enter(_, s, now) => if s == session then now else LastUse(sts, ops, n - 1, session)
      case Release(t, now) =>
        if t in st.tasks && st.tasks[t].session == session then now else LastUse(sts, ops, n - 1, session)
      case _ => LastUse(sts, ops, n - 1, session)
  }

  lemma {:induction false} WakeAllKeepsUse(st: State, session: Session)
    ensures WakeAll(st, session).slots.Keys == st.slots.Keys
    ensures forall s :: s in st.slots ==> WakeAll(st, session).slots[s].lastUsed == st.slots[s].lastUsed
    decreases if session in st.slots then |st.slots[session].queue| else 0
  {
    if CanWake(st, session) { WakeAllKeepsUse(WakeNext(st, session), session); }
  }

  /** What waking at most one waiter changes. */
  lemma WakeOneIs(st: State, session: Session)
    requires session in st.slots && Mine(st, session) && st.slots[session].value > 0
    ensures var queue, after := st.slots[session].queue, WakeOne(st, session);
            && after.tasks == (if queue == [] then st.tasks else st.tasks[queue[0] := Task(session, Granted)])
            && after.slots.Keys == st.slots.Keys && after.slots[session].lastUsed == st.slots[session].lastUsed
            && forall s :: s in st.slots && s != session ==> after.slots[s] == st.slots[s]
  {
    var queue := st.slots[session].queue;
    if queue != [] { assert queue[0] in queue; }
  }

  /** Waking somebody after the task left. */
  lemma LeftAndWoken(st: State, t: nat, now: int)
    requires t in st.tasks && st.tasks[t].session in st.slots && st.slots[st.tasks[t].session].leases > 0
    requires Mine(Left(st, t, now), st.tasks[t].session)
    ensures var session, queue := st.tasks[t].session, st.slots[st.tasks[t].session].queue;
            var after := WakeOne(Left(st, t, now), session);
            && after.tasks == (if queue == [] then st.tasks - {t} else (st.tasks - {t})[queue[0] := Task(session, Granted)])
            && after.slots.Keys == st.slots.Keys && after.slots[session].lastUsed == now
            && forall s :: s in st.slots && s != session ==> after.slots[s] == st.slots[s]
  {
    WakeOneIs(Left(st, t, now), st.tasks[t].session);
  }

  /** What a release changes before it prunes the table. */
  lemma ReturnedIs(st: State, t: nat, now: int, cfg: Config)
    requires Inv(st, cfg) && t in st.tasks && st.tasks[t].pc == Running
    ensures var session, queue, after := st.tasks[t].session, st.slots[st.tasks[t].session].queue, Returned(st, t, now);
            && after.tasks == (if queue == [] then st.tasks - {t} else (st.tasks - {t})[queue[0] := Task(session, Granted)])
            && after.slots.Keys == st.slots.Keys && after.slots[session].lastUsed == now
            && forall s :: s in st.slots && s != session ==> after.slots[s] == st.slots[s]
  {
    LeftKeepsBooks(st, t, now, cfg);
    LeftIsMine(st, t, now, cfg);
    LeftAndWoken(st, t, now);
    ReturnedWakesLeft(st, t, now);
  }

  lemma ReleaseIs(st: State, t: nat, now: int, after: State, cfg: Config)
    requires Inv(st, cfg) && Step(st, Release(t, now), after, cfg)
    ensures t in st.tasks && st.tasks[t].pc == Running && st.tasks[t].session in st.slots
    ensures after.tasks == Returned(st, t, now).tasks && Pruned(Returned(st, t, now).slots, after.slots, cfg.slotLimit)
  {
  }

  lemma LeftIsMine(st: State, t: nat, now: int, cfg: Config)
    requires Inv(st, cfg) && t in st.tasks && st.tasks[t].pc == Running && st.slots[st.tasks[t].session].leases > 0
    ensures Mine(Left(st, t, now), st.tasks[t].session)
  {
    var session, left := st.tasks[t].session, Left(st, t, now);
    InvIsMine(st, session, cfg);
    forall x | x in left.slots[session].queue ensures x in left.tasks && left.tasks[x] == Task(session, Waiting) { assert x != t; }
  }

  lemma ReleaseUses(st: State, t: nat, now: int, after: State, cfg: Config)
    requires Inv(st, cfg) && Step(st, Release(t, now), after, cfg)
    ensures forall s :: s in after.slots ==>
              s in st.slots && after.slots[s].lastUsed == if s == st.tasks[t].session then now else st.slots[s].lastUsed
  {
    ReleaseIs(st, t, now, after, cfg);
    ReturnedIs(st, t, now, cfg);
    PrunedKeepsLeased(Returned(st, t, now).slots, after.slots, cfg.slotLimit);
  }

  lemma OtherUses(st: State, op: Op, after: State, cfg: Config, s: Session)
    requires Step(st, op, after, cfg) && !op.Enter? && !op.Release? && s in after.slots
    ensures s in st.slots && after.slots[s].lastUsed == st.slots[s].lastUsed
  {
    match op
    case Resume(t) => WakeAllKeepsUse(SetPc(st, t, Running), st.tasks[t].session);
    case CancelWaiting(_) =>
    case CancelGranted(t) =>
      CancelGrantedWakes(st, t, after, cfg);
      WakeAllKeepsUse(Cancelled(st, t), st.tasks[t].session);
    case WakeMore(session) => WakeAllKeepsUse(st, session);
    case _ =>
  }

  lemma StepUses(sts: seq<State>, ops: seq<Op>, cfg: Config, n: nat, s: Session)
    requires IsRun(sts, ops, cfg) && n < |ops| && s in sts[n + 1].slots
    requires s in sts[n].slots ==> sts[n].slots[s].lastUsed == LastUse(sts, ops, n, s)
    ensures sts[n + 1].slots[s].lastUsed == LastUse(sts, ops, n + 1, s)
  {
    RunKeepsInv(sts, ops, cfg, n);
    assert Step(sts[n], ops[n], sts[n + 1], cfg);
    if ops[n].Release? {
      ReleaseUses(sts[n], ops[n].task, ops[n].now, sts[n + 1], cfg);
    } else if !ops[n].Enter? {
      OtherUses(sts[n], ops[n], sts[n + 1], cfg, s);
    }
  }

  lemma {:induction false} UseIsKept(sts: seq<State>, ops: seq<Op>, cfg: Config, n: nat, s: Session)
    requires IsRun(sts, ops, cfg) && n < |sts| && s in sts[n].slots
    ensures sts[n].slots[s].lastUsed == LastUse(sts, ops, n, s)
  {
    if n > 0 {
      if s in sts[n - 1].slots { UseIsKept(sts, ops, cfg, n - 1, s); }
      StepUses(sts, ops, cfg, n - 1, s);
    }
  }

  ghost predicate IsBusy(st: State, session: Session) {
    exists t :: t in st.tasks && st.tasks[t].session == session
  }

  lemma LeasedIffBusy(st: State, session: Session, cfg: Config)
    requires Books(st, cfg) && session in st.slots
    ensures st.slots[session].leases != 0 <==> IsBusy(st, session)
  {
    assert SessionInv(st.slots[session], st.tasks, session, cfg);
    if st.slots[session].leases != 0 {
      var t :| t in Of(st.tasks, session);
    }
    if IsBusy(st, session) {
      var t :| t in st.tasks && st.tasks[t].session == session;
      assert t in Of(st.tasks, session);
    }
  }

  /** How many slots a release keeps: all that fit, and more only if that many are in use. */
  function KeptSlots(slots: nat, busy: nat, limit: nat): nat {
    if slots <= limit then slots else if busy > limit then busy else limit
  }

  lemma LeasedAndNot(slots: map<Session, Slot>)
    ensures |slots| == |Leased(slots)| + |Unleased(slots)|
  {
    assert slots.Keys == Leased(slots) + Unleased(slots) && Leased(slots) !! Unleased(slots);
  }

  lemma PrunedSize(slots: map<Session, Slot>, kept: map<Session, Slot>, limit: nat)
    requires Pruned(slots, kept, limit)
    ensures |kept| == KeptSlots(|slots|, |Leased(slots)|, limit)
  {
    var gone := slots.Keys - kept.Keys;
    LeasedAndNot(slots);
    assert |kept.Keys| == |slots.Keys| - |gone| by { assert kept.Keys == slots.Keys - gone && gone <= slots.Keys; }
  }

  /** A release forgets no more slots than it must. */
  lemma ReleaseKeepsSlots(sts: seq<State>, ops: seq<Op>, cfg: Config, n: nat)
    requires IsRun(sts, ops, cfg) && n < |ops| && ops[n].Release?
    ensures var after := sts[n + 1]; |after.slots| == KeptSlots(|sts[n].slots|, |Leased(after.slots)|, cfg.slotLimit)
  {
    RunKeepsInv(sts, ops, cfg, n);
    ReleaseIs(sts[n], ops[n].task, ops[n].now, sts[n + 1], cfg);
    ReturnedIs(sts[n], ops[n].task, ops[n].now, cfg);
    var slots := Returned(sts[n], ops[n].task, ops[n].now).slots;
    PrunedSize(slots, sts[n + 1].slots, cfg.slotLimit);
    PrunedKeepsLeased(slots, sts[n + 1].slots, cfg.slotLimit);
    assert |slots.Keys| == |sts[n].slots.Keys|;
  }

  lemma PrunedAreOldest(slots: map<Session, Slot>, kept: map<Session, Slot>, limit: nat, a: Session, b: Session)
    requires Pruned(slots, kept, limit) && a in slots && a !in kept && b in kept && kept[b].leases == 0
    ensures slots[a].leases == 0 && b in slots && slots[b] == kept[b] && slots[a].lastUsed <= slots[b].lastUsed
  {
    PrunedKeepsLeased(slots, kept, limit);
    assert a in slots.Keys - kept.Keys && b in Unleased(slots) - (slots.Keys - kept.Keys);
  }

  /** In every run, a slot that a release forgets has no tasks, and no slot it keeps without tasks was unused for longer. */
  lemma OldestUnusedIsForgotten(sts: seq<State>, ops: seq<Op>, cfg: Config, n: nat, gone: Session, kept: Session)
    requires IsRun(sts, ops, cfg) && n < |ops| && ops[n].Release?
    requires gone in sts[n].slots && gone !in sts[n + 1].slots && kept in sts[n + 1].slots && !IsBusy(sts[n + 1], kept)
    ensures !IsBusy(sts[n + 1], gone) && LastUse(sts, ops, n + 1, gone) <= LastUse(sts, ops, n + 1, kept)
  {
    RunKeepsInv(sts, ops, cfg, n);
    RunKeepsInv(sts, ops, cfg, n + 1);
    assert !IsBusy(sts[n + 1], gone);
    LeasedIffBusy(sts[n + 1], kept, cfg);
    UseIsKept(sts, ops, cfg, n + 1, kept);
    UseIsKept(sts, ops, cfg, n, gone);
    ForgottenIsOlder(sts[n], ops[n].task, ops[n].now, sts[n + 1], gone, kept, cfg);
  }

  lemma ForgottenIsOlder(st: State, t: nat, now: int, after: State, gone: Session, kept: Session, cfg: Config)
    requires Inv(st, cfg) && Step(st, Release(t, now), after, cfg)
    requires gone in st.slots && gone !in after.slots && kept in after.slots && after.slots[kept].leases == 0
    ensures (if gone == st.tasks[t].session then now else st.slots[gone].lastUsed) <= after.slots[kept].lastUsed
  {
    ReleaseIs(st, t, now, after, cfg);
    ReturnedIs(st, t, now, cfg);
    PrunedAreOldest(Returned(st, t, now).slots, after.slots, cfg.slotLimit, gone, kept);
  }

  // ---------- What a release hands on ----------

  lemma FirstWaiter(slot: Slot, tasks: map<nat, Task>, session: Session, at: nat -> int)
    requires Lined(slot, tasks, session, at) && QueueOf(slot.queue, Waiters(tasks, session))
    ensures slot.queue == [] <==> Waiters(tasks, session) == {}
    ensures slot.queue != [] ==>
              slot.queue[0] in Waiters(tasks, session)
              && forall x :: x in Waiters(tasks, session) && x != slot.queue[0] ==> at(slot.queue[0]) < at(x)
  {
    if slot.queue != [] {
      assert slot.queue[0] in Queued(slot.queue);
      forall x | x in Waiters(tasks, session) && x != slot.queue[0] ensures at(slot.queue[0]) < at(x) {
        assert x in Queued(slot.queue);
        var i :| 0 <= i < |slot.queue| && slot.queue[i] == x;
      }
    } else {
      assert Queued(slot.queue) == {};
    }
  }

  /** A release hands the permit to the task of its session that has waited longest, and wakes nobody else. */
  lemma ReleaseHandsOn(sts: seq<State>, ops: seq<Op>, cfg: Config, n: nat)
    requires IsRun(sts, ops, cfg) && n < |ops| && ops[n].Release?
    ensures var t, tasks, after := ops[n].task, sts[n].tasks, sts[n + 1].tasks;
            var waiters := Waiters(tasks, tasks[t].session);
            if waiters == {} then after == tasks - {t}
            else exists w :: w in waiters && after == (tasks - {t})[w := Task(tasks[t].session, Granted)]
                             && forall x :: x in waiters && x != w ==> Arrival(ops, n, w) < Arrival(ops, n, x)
  {
    RunKeepsInv(sts, ops, cfg, n);
    RunIsFair(sts, ops, cfg, n);
    var st, session := sts[n], sts[n].tasks[ops[n].task].session;
    ReleaseIs(st, ops[n].task, ops[n].now, sts[n + 1], cfg);
    ReturnedIs(st, ops[n].task, ops[n].now, cfg);
    assert SessionInv(st.slots[session], st.tasks, session, cfg);
    FirstWaiter(st.slots[session], st.tasks, session, Arrivals(ops, n));
  }
}
