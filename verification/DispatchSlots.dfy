/**
 Dispatch control: one global semaphore of `maxConcurrency` permits, and per session a lazily created,
 pruned slot holding a semaphore of `maxPerSession` permits.

 The slot semaphore is asyncio's of Python 3.12: waiters queue first in first out, a release hands its
 permit to the first waiter, and a woken waiter still blocks newcomers until it resumes. A task appears
 in `tasks` from the moment it holds a global permit. Cancellation of a task that is inside the session
 acquire is not caught by the handler around it, so that task keeps its permit and its lease for good.
 */
module DispatchSlots {
  import opened Sets

  datatype Session = Session(id: string)
  datatype Pc = Waiting | Granted | Running | Abandoned
  datatype Task = Task(session: Session, pc: Pc)
  datatype Slot = Slot(value: nat, queue: seq<nat>, leases: nat, lastUsed: int)

  datatype Config = Config(maxConcurrency: nat, maxPerSession: nat, slotLimit: nat) {
    /** The start-up code raises each setting to at least one. */
    predicate Valid() {
      maxConcurrency >= 1 && maxPerSession >= 1 && slotLimit >= 1
    }
  }

  datatype State = State(free: nat, slots: map<Session, Slot>, tasks: map<nat, Task>)

  datatype Op =
    | Enter(task: nat, session: Session, now: int)
    | Resume(task: nat)
    | CancelWaiting(task: nat)
    | CancelGranted(task: nat)
    | WakeMore(session: Session)
    | Release(task: nat, now: int)

  // ---------- Who holds what ----------

  function Of(tasks: map<nat, Task>, session: Session): set<nat> {
    set t | t in tasks && tasks[t].session == session
  }

  function Holders(tasks: map<nat, Task>, session: Session): set<nat> {
    set t | t in tasks && tasks[t].session == session && (tasks[t].pc == Granted || tasks[t].pc == Running)
  }

  function Waiters(tasks: map<nat, Task>, session: Session): set<nat> {
    set t | t in tasks && tasks[t].session == session && tasks[t].pc == Waiting
  }

  function With(tasks: map<nat, Task>, pc: Pc): set<nat> {
    set t | t in tasks && tasks[t].pc == pc
  }

  function Leased(slots: map<Session, Slot>): set<Session> {
    set s | s in slots && slots[s].leases != 0
  }

  function Unleased(slots: map<Session, Slot>): set<Session> {
    set s | s in slots && slots[s].leases == 0
  }

  // ---------- Steps ----------

  function SetPc(st: State, t: nat, pc: Pc): State
    requires t in st.tasks
  {
    st.(tasks := st.tasks[t := st.tasks[t].(pc := pc)])
  }

  function SetSlot(st: State, session: Session, slot: Slot): State {
    st.(slots := st.slots[session := slot])
  }

  predicate CanWake(st: State, session: Session) {
    session in st.slots && st.slots[session].value > 0 && st.slots[session].queue != [] &&
    st.slots[session].queue[0] in st.tasks
  }

  /** The first waiter gets a permit. */
  function WakeNext(st: State, session: Session): State
    requires CanWake(st, session)
  {
    var slot := st.slots[session];
    SetSlot(SetPc(st, slot.queue[0], Granted), session, slot.(value := slot.value - 1, queue := slot.queue[1..]))
  }

  /** As many waiters as there are permits. */
  function WakeAll(st: State, session: Session): State
    decreases if session in st.slots then |st.slots[session].queue| else 0
  {
    if CanWake(st, session) then WakeAll(WakeNext(st, session), session) else st
  }

  function WakeOne(st: State, session: Session): State {
    if CanWake(st, session) then WakeNext(st, session) else st
  }

  function FreshSlot(cfg: Config, now: int): Slot {
    Slot(cfg.maxPerSession, [], 0, now)
  }

  /** `asyncio.Semaphore.locked`: no permit left, or somebody is ahead in the queue or not resumed yet. */
  predicate Locked(st: State, session: Session, slot: Slot) {
    || slot.value == 0
    || slot.queue != []
    || exists t :: t in st.tasks && st.tasks[t].session == session && st.tasks[t].pc == Granted
  }

  function AfterEnter(st: State, t: nat, session: Session, now: int, cfg: Config): State
    requires st.free > 0
  {
    var found := FoundSlot(st, session, now, cfg);
    var slot := found.(leases := found.leases + 1, lastUsed := now);
    if Locked(st, session, slot) then
      State(st.free - 1, st.slots[session := slot.(queue := slot.queue + [t])], st.tasks[t := Task(session, Waiting)])
    else
      State(st.free - 1, st.slots[session := slot.(value := slot.value - 1)], st.tasks[t := Task(session, Running)])
  }

  predicate Distinct(queue: seq<nat>) {
    forall i, j :: 0 <= i < j < |queue| ==> queue[i] != queue[j]
  }

  function WithoutTask(queue: seq<nat>, t: nat): (r: seq<nat>)
    ensures forall x :: x in r <==> x in queue && x != t
    ensures Distinct(queue) ==> Distinct(r)
  {
    if queue == [] then []
    else
      var rest := WithoutTask(queue[1..], t);
      assert queue == [queue[0]] + queue[1..];
      assert Distinct(queue) ==> Distinct(queue[1..]) && queue[0] !in queue[1..];
      if queue[0] == t then rest else [queue[0]] + rest
  }

  /** Everything a release does before it prunes the slot table. */
  function Returned(st: State, t: nat, now: int): State
    requires t in st.tasks
  {
    var session := st.tasks[t].session;
    var given := State(st.free + 1, st.slots, st.tasks - {t});
    if session !in st.slots then given
    else
      var woken := WakeOne(SetSlot(given, session, st.slots[session].(value := st.slots[session].value + 1)), session);
      var slot := woken.slots[session];
      SetSlot(woken, session, slot.(leases := if slot.leases == 0 then 0 else slot.leases - 1, lastUsed := now))
  }

  /** As many unleased slots as the table is over its limit, if there are that many, and none younger than one kept. */
  ghost predicate Prunable(slots: map<Session, Slot>, gone: set<Session>, limit: nat) {
    && gone <= Unleased(slots)
    && |gone| == (if |slots| <= limit then 0 else if |slots| - limit <= |Unleased(slots)| then |slots| - limit else |Unleased(slots)|)
    && (forall a, b :: a in gone && b in Unleased(slots) - gone ==> slots[a].lastUsed <= slots[b].lastUsed)
  }

  ghost predicate Pruned(slots: map<Session, Slot>, kept: map<Session, Slot>, limit: nat) {
    var gone := slots.Keys - kept.Keys;
    kept == slots - gone && Prunable(slots, gone, limit)
  }

  ghost predicate Step(st: State, op: Op, after: State, cfg: Config) {
    match op
    case Enter(t, session, now) => t !in st.tasks && st.free > 0 && after == AfterEnter(st, t, session, now, cfg)
    case Resume(t) =>
      && t in st.tasks && st.tasks[t].pc == Granted
      && after == WakeAll(SetPc(st, t, Running), st.tasks[t].session)
    case CancelWaiting(t) =>
      && t in st.tasks && st.tasks[t].pc == Waiting && st.tasks[t].session in st.slots
      && var session := st.tasks[t].session;
         var slot := st.slots[session];
         after == SetSlot(SetPc(st, t, Abandoned), session, slot.(queue := WithoutTask(slot.queue, t)))
    case CancelGranted(t) =>
      && t in st.tasks && st.tasks[t].pc == Granted && st.tasks[t].session in st.slots
      && var session := st.tasks[t].session;
         var slot := st.slots[session];
         after == WakeAll(SetSlot(SetPc(st, t, Abandoned), session, slot.(value := slot.value + 1)), session)
    case WakeMore(session) => after == WakeAll(st, session)
    case Release(t, now) =>
      && t in st.tasks && st.tasks[t].pc == Running
      && var returned := Returned(st, t, now);
         if st.tasks[t].session !in st.slots then after == returned
         else after == returned.(slots := after.slots) && Pruned(returned.slots, after.slots, cfg.slotLimit)
  }

  // ---------- The invariant ----------

  /** One session's books: leases, permits and queue agree with what its tasks are doing. */
  ghost predicate SessionInv(slot: Slot, tasks: map<nat, Task>, session: Session, cfg: Config) {
    && slot.leases == |Of(tasks, session)|
    && slot.value + |Holders(tasks, session)| == cfg.maxPerSession
    && QueueOf(slot.queue, Waiters(tasks, session))
  }

  /** The queue lists each waiter once. */
  ghost predicate QueueOf(queue: seq<nat>, waiters: set<nat>) {
    Distinct(queue) && Queued(queue) == waiters
  }

  function Queued(queue: seq<nat>): set<nat> {
    set t | t in queue
  }

  lemma QueuePush(queue: seq<nat>, waiters: set<nat>, t: nat)
    requires QueueOf(queue, waiters) && t !in waiters
    ensures QueueOf(queue + [t], waiters + {t})
  {
    assert t in queue ==> t in Queued(queue);
    assert Queued(queue + [t]) == Queued(queue) + {t};
  }

  /** A session where somebody waits has a task that holds, or has just been handed, a session permit. */
  ghost predicate NoIdleQueue(slot: Slot, tasks: map<nat, Task>, session: Session) {
    slot.queue != [] ==> Holders(tasks, session) != {}
  }

  /** The books of all sessions; `session` alone may have an idle queue. */
  ghost predicate BooksExcept(st: State, session: Session, cfg: Config) {
    && cfg.Valid()
    && st.free + |st.tasks| == cfg.maxConcurrency
    && (forall t :: t in st.tasks ==> st.tasks[t].session in st.slots)
    && (forall s :: s in st.slots ==> SessionInv(st.slots[s], st.tasks, s, cfg))
    && (forall s :: s in st.slots && s != session ==> NoIdleQueue(st.slots[s], st.tasks, s))
  }

  ghost predicate Books(st: State, cfg: Config) {
    && cfg.Valid()
    && st.free + |st.tasks| == cfg.maxConcurrency
    && (forall t :: t in st.tasks ==> st.tasks[t].session in st.slots)
    && (forall s :: s in st.slots ==> SessionInv(st.slots[s], st.tasks, s, cfg) && NoIdleQueue(st.slots[s], st.tasks, s))
  }

  ghost predicate TableInv(slots: map<Session, Slot>, cfg: Config) {
    |slots| <= cfg.slotLimit + |Leased(slots)|
  }

  ghost predicate Inv(st: State, cfg: Config) {
    Books(st, cfg) && TableInv(st.slots, cfg)
  }

  /** `tasks'` differs from `tasks` at `t` only, which belongs to `session` wherever it is. */
  ghost predicate ChangesOnly(tasks: map<nat, Task>, tasks': map<nat, Task>, t: nat, session: Session) {
    && (t in tasks ==> tasks[t].session == session)
    && (t in tasks' ==> tasks'[t].session == session)
    && (forall x :: x != t ==> (x in tasks <==> x in tasks') && (x in tasks ==> tasks[x] == tasks'[x]))
  }

  /** Tasks of one session do not appear in the books of another. */
  lemma OthersUnchanged(slot: Slot, tasks: map<nat, Task>, tasks': map<nat, Task>, t: nat, session: Session, other: Session, cfg: Config)
    requires session != other && ChangesOnly(tasks, tasks', t, session)
    ensures SessionInv(slot, tasks, other, cfg) ==> SessionInv(slot, tasks', other, cfg)
    ensures NoIdleQueue(slot, tasks, other) ==> NoIdleQueue(slot, tasks', other)
  {
    assert Of(tasks, other) == Of(tasks', other);
    assert Holders(tasks, other) == Holders(tasks', other);
    assert Waiters(tasks, other) == Waiters(tasks', other);
  }

  /** A step on one task and its session's slot keeps the books if it keeps that session's. */
  lemma LocalStep(st: State, after: State, t: nat, session: Session, slot: Slot, cfg: Config)
    requires BooksExcept(st, session, cfg) && ChangesOnly(st.tasks, after.tasks, t, session)
    requires after.slots == st.slots[session := slot] && after.free + |after.tasks| == cfg.maxConcurrency
    requires SessionInv(slot, after.tasks, session, cfg)
    ensures BooksExcept(after, session, cfg)
    ensures NoIdleQueue(slot, after.tasks, session) ==> Books(after, cfg)
  {
    forall s | s in after.slots && s != session
      ensures SessionInv(after.slots[s], after.tasks, s, cfg) && NoIdleQueue(after.slots[s], after.tasks, s)
    {
      OthersUnchanged(st.slots[s], st.tasks, after.tasks, t, session, s, cfg);
    }
    forall x | x in after.tasks ensures after.tasks[x].session in after.slots {
      if x != t { assert x in st.tasks; }
    }
  }

  // ---------- One session's books, step by step ----------

  lemma GrantSets(tasks: map<nat, Task>, t: nat, session: Session)
    requires t in tasks && tasks[t] == Task(session, Waiting)
    ensures var tasks' := tasks[t := Task(session, Granted)];
            && Of(tasks', session) == Of(tasks, session)
            && Holders(tasks', session) == Holders(tasks, session) + {t} && t !in Holders(tasks, session)
            && Waiters(tasks', session) == Waiters(tasks, session) - {t}
  {
  }

  lemma QueuePop(queue: seq<nat>, waiters: set<nat>)
    requires QueueOf(queue, waiters) && queue != []
    ensures queue[0] in waiters && QueueOf(queue[1..], waiters - {queue[0]})
  {
    assert queue == [queue[0]] + queue[1..];
    assert queue[0] in Queued(queue);
    assert Queued(queue[1..]) == Queued(queue) - {queue[0]};
  }

  lemma GrantInSession(slot: Slot, tasks: map<nat, Task>, session: Session, cfg: Config)
    requires SessionInv(slot, tasks, session, cfg) && slot.queue != [] && slot.value > 0
    ensures slot.queue[0] in tasks && tasks[slot.queue[0]].session == session
    ensures var t := slot.queue[0];
            var tasks' := tasks[t := tasks[t].(pc := Granted)];
            && SessionInv(slot.(value := slot.value - 1, queue := slot.queue[1..]), tasks', session, cfg)
            && Holders(tasks', session) != {}
  {
    QueuePop(slot.queue, Waiters(tasks, session));
    GrantSets(tasks, slot.queue[0], session);
  }

  lemma NewTaskSets(tasks: map<nat, Task>, t: nat, session: Session)
    requires t !in tasks
    ensures var queued := tasks[t := Task(session, Waiting)];
            && Of(queued, session) == Of(tasks, session) + {t}
            && Holders(queued, session) == Holders(tasks, session)
            && Waiters(queued, session) == Waiters(tasks, session) + {t}
    ensures var started := tasks[t := Task(session, Running)];
            && Of(started, session) == Of(tasks, session) + {t}
            && Holders(started, session) == Holders(tasks, session) + {t}
            && Waiters(started, session) == Waiters(tasks, session)
    ensures t !in Of(tasks, session) && t !in Holders(tasks, session) && t !in Waiters(tasks, session)
  {
  }

  lemma QueueInSession(slot: Slot, tasks: map<nat, Task>, t: nat, session: Session, now: int, cfg: Config)
    requires SessionInv(slot, tasks, session, cfg) && t !in tasks
    ensures var tasks' := tasks[t := Task(session, Waiting)];
            && SessionInv(slot.(leases := slot.leases + 1, lastUsed := now, queue := slot.queue + [t]), tasks', session, cfg)
            && Holders(tasks', session) == Holders(tasks, session)
  {
    NewTaskSets(tasks, t, session);
    QueuePush(slot.queue, Waiters(tasks, session), t);
  }

  lemma RunInSession(slot: Slot, tasks: map<nat, Task>, t: nat, session: Session, now: int, cfg: Config)
    requires SessionInv(slot, tasks, session, cfg) && t !in tasks && slot.value > 0
    ensures SessionInv(slot.(leases := slot.leases + 1, lastUsed := now, value := slot.value - 1),
                       tasks[t := Task(session, Running)], session, cfg)
  {
    NewTaskSets(tasks, t, session);
  }

  lemma LockedHasHolder(st: State, session: Session, slot: Slot, cfg: Config)
    requires SessionInv(slot, st.tasks, session, cfg) && NoIdleQueue(slot, st.tasks, session)
    requires cfg.Valid() && Locked(st, session, slot)
    ensures Holders(st.tasks, session) != {}
  {
    if slot.value > 0 && slot.queue == [] {
      var g :| g in st.tasks && st.tasks[g].session == session && st.tasks[g].pc == Granted;
      assert g in Holders(st.tasks, session);
    }
  }

  lemma EmptySession(tasks: map<nat, Task>, session: Session, now: int, cfg: Config)
    requires forall t :: t in tasks ==> tasks[t].session != session
    ensures SessionInv(FreshSlot(cfg, now), tasks, session, cfg)
  {
    assert Of(tasks, session) == {} && Holders(tasks, session) == {} && Waiters(tasks, session) == {};
    assert Queued([]) == {};
  }

  lemma ResumeInSession(slot: Slot, tasks: map<nat, Task>, t: nat, session: Session, cfg: Config)
    requires SessionInv(slot, tasks, session, cfg) && t in tasks && tasks[t] == Task(session, Granted)
    ensures var tasks' := tasks[t := Task(session, Running)];
            SessionInv(slot, tasks', session, cfg) && Holders(tasks', session) == Holders(tasks, session)
  {
    var tasks' := tasks[t := Task(session, Running)];
    assert Of(tasks', session) == Of(tasks, session);
    assert Holders(tasks', session) == Holders(tasks, session);
    assert Waiters(tasks', session) == Waiters(tasks, session);
  }

  lemma AbandonWaiter(slot: Slot, tasks: map<nat, Task>, t: nat, session: Session, cfg: Config)
    requires SessionInv(slot, tasks, session, cfg) && t in tasks && tasks[t] == Task(session, Waiting)
    ensures var tasks' := tasks[t := Task(session, Abandoned)];
            && SessionInv(slot.(queue := WithoutTask(slot.queue, t)), tasks', session, cfg)
            && Holders(tasks', session) == Holders(tasks, session)
  {
    var tasks' := tasks[t := Task(session, Abandoned)];
    assert Of(tasks', session) == Of(tasks, session);
    assert Holders(tasks', session) == Holders(tasks, session);
    assert Waiters(tasks', session) == Waiters(tasks, session) - {t};
    assert Queued(WithoutTask(slot.queue, t)) == Queued(slot.queue) - {t};
  }

  lemma AbandonGranted(slot: Slot, tasks: map<nat, Task>, t: nat, session: Session, cfg: Config)
    requires SessionInv(slot, tasks, session, cfg) && t in tasks && tasks[t] == Task(session, Granted)
    ensures SessionInv(slot.(value := slot.value + 1), tasks[t := Task(session, Abandoned)], session, cfg)
  {
    var tasks' := tasks[t := Task(session, Abandoned)];
    assert t in Holders(tasks, session);
    assert Of(tasks', session) == Of(tasks, session);
    assert Holders(tasks', session) == Holders(tasks, session) - {t};
    assert Waiters(tasks', session) == Waiters(tasks, session);
  }

  lemma LeaveSession(slot: Slot, tasks: map<nat, Task>, t: nat, session: Session, now: int, cfg: Config)
    requires SessionInv(slot, tasks, session, cfg) && t in tasks && tasks[t] == Task(session, Running)
    ensures slot.leases > 0
    ensures SessionInv(slot.(value := slot.value + 1, leases := slot.leases - 1, lastUsed := now), tasks - {t}, session, cfg)
  {
    var tasks' := tasks - {t};
    assert t in Holders(tasks, session) && t in Of(tasks, session);
    assert Of(tasks', session) == Of(tasks, session) - {t};
    assert Holders(tasks', session) == Holders(tasks, session) - {t};
    assert Waiters(tasks', session) == Waiters(tasks, session);
  }

  // ---------- Each step keeps the invariant ----------

  lemma ReplaceSlot(slots: map<Session, Slot>, session: Session, slot: Slot)
    requires session in slots && (slot.leases == 0 <==> slots[session].leases == 0)
    ensures Leased(slots[session := slot]) == Leased(slots) && |slots[session := slot]| == |slots|
  {
    assert slots[session := slot].Keys == slots.Keys;
  }

  lemma SameTaskCount(tasks: map<nat, Task>, t: nat, task: Task)
    requires t in tasks
    ensures |tasks[t := task]| == |tasks|
  {
    assert tasks[t := task].Keys == tasks.Keys;
  }

  lemma WakeNextKeepsBooks(st: State, session: Session, cfg: Config)
    requires BooksExcept(st, session, cfg) && CanWake(st, session)
    ensures Books(WakeNext(st, session), cfg)
    ensures TableInv(st.slots, cfg) ==> TableInv(WakeNext(st, session).slots, cfg)
  {
    var slot := st.slots[session];
    var t := slot.queue[0];
    GrantInSession(slot, st.tasks, session, cfg);
    SameTaskCount(st.tasks, t, st.tasks[t].(pc := Granted));
    var slot' := slot.(value := slot.value - 1, queue := slot.queue[1..]);
    LocalStep(st, WakeNext(st, session), t, session, slot', cfg);
    ReplaceSlot(st.slots, session, slot');
  }

  lemma BooksExceptAny(st: State, session: Session, cfg: Config)
    requires Books(st, cfg)
    ensures BooksExcept(st, session, cfg)
  {
  }

  /** Nobody can be woken: then the session has no permit to spare, or nobody waits. */
  lemma NothingToWake(st: State, session: Session, cfg: Config)
    requires BooksExcept(st, session, cfg) && session in st.slots && !CanWake(st, session)
    ensures Books(st, cfg)
  {
    var slot := st.slots[session];
    assert SessionInv(slot, st.tasks, session, cfg);
    if slot.queue != [] {
      assert slot.queue[0] in Queued(slot.queue);
      assert |Holders(st.tasks, session)| == cfg.maxPerSession;
    }
  }

  lemma {:induction false} WakeAllKeepsInv(st: State, session: Session, cfg: Config)
    requires BooksExcept(st, session, cfg) && session in st.slots && TableInv(st.slots, cfg)
    ensures Inv(WakeAll(st, session), cfg)
    decreases |st.slots[session].queue|
  {
    if CanWake(st, session) {
      WakeNextKeepsBooks(st, session, cfg);
      BooksExceptAny(WakeNext(st, session), session, cfg);
      WakeAllKeepsInv(WakeNext(st, session), session, cfg);
    } else {
      NothingToWake(st, session, cfg);
    }
  }

  lemma NewTaskCount(tasks: map<nat, Task>, t: nat, task: Task)
    requires t !in tasks
    ensures |tasks[t := task]| == |tasks| + 1
  {
    assert tasks[t := task].Keys == tasks.Keys + {t};
  }

  /** The books after a new task of a session and that session's new slot. */
  lemma EnterBooks(st: State, t: nat, task: Task, slot: Slot, cfg: Config)
    requires BooksExcept(st, task.session, cfg) && t !in st.tasks && st.free > 0
    requires SessionInv(slot, st.tasks[t := task], task.session, cfg) && NoIdleQueue(slot, st.tasks[t := task], task.session)
    ensures Books(State(st.free - 1, st.slots[task.session := slot], st.tasks[t := task]), cfg)
  {
    var after := State(st.free - 1, st.slots[task.session := slot], st.tasks[t := task]);
    NewTaskCount(st.tasks, t, task);
    assert ChangesOnly(st.tasks, after.tasks, t, task.session);
    LocalStep(st, after, t, task.session, slot, cfg);
  }

  lemma AfterEnterIs(st: State, t: nat, session: Session, found: Slot, now: int, cfg: Config) returns (task: Task, slot: Slot)
    requires cfg.Valid() && t !in st.tasks && st.free > 0 && found == FoundSlot(st, session, now, cfg)
    requires SessionInv(found, st.tasks, session, cfg) && NoIdleQueue(found, st.tasks, session)
    ensures AfterEnter(st, t, session, now, cfg) == State(st.free - 1, st.slots[session := slot], st.tasks[t := task])
    ensures task.session == session
    ensures SessionInv(slot, st.tasks[t := task], session, cfg) && NoIdleQueue(slot, st.tasks[t := task], session)
  {
    slot := found.(leases := found.leases + 1, lastUsed := now);
    if Locked(st, session, slot) {
      assert Holders(st.tasks, session) != {} by { LockedHasHolder(st, session, found, cfg); }
      QueueInSession(found, st.tasks, t, session, now, cfg);
      task, slot := Task(session, Waiting), slot.(queue := slot.queue + [t]);
    } else {
      RunInSession(found, st.tasks, t, session, now, cfg);
      task, slot := Task(session, Running), slot.(value := slot.value - 1);
    }
  }

  lemma EnterKeepsBooks(st: State, t: nat, session: Session, now: int, cfg: Config)
    requires Books(st, cfg) && t !in st.tasks && st.free > 0
    ensures Books(AfterEnter(st, t, session, now, cfg), cfg)
  {
    FoundSlotInv(st, session, now, cfg);
    var task, slot := AfterEnterIs(st, t, session, FoundSlot(st, session, now, cfg), now, cfg);
    BooksExceptAny(st, session, cfg);
    EnterBooks(st, t, task, slot, cfg);
  }

  function FoundSlot(st: State, session: Session, now: int, cfg: Config): Slot {
    if session in st.slots then st.slots[session] else FreshSlot(cfg, now)
  }

  lemma FoundSlotInv(st: State, session: Session, now: int, cfg: Config)
    requires Books(st, cfg)
    ensures SessionInv(FoundSlot(st, session, now, cfg), st.tasks, session, cfg)
    ensures NoIdleQueue(FoundSlot(st, session, now, cfg), st.tasks, session)
  {
    if session !in st.slots { EmptySession(st.tasks, session, now, cfg); }
  }

  lemma LeaseKeepsTable(slots: map<Session, Slot>, session: Session, slot: Slot, cfg: Config)
    requires slot.leases > 0 && TableInv(slots, cfg)
    ensures TableInv(slots[session := slot], cfg)
  {
    var after := slots[session := slot];
    if session in slots {
      assert after.Keys == slots.Keys;
      assert Leased(slots) <= Leased(after);
      SubsetSize(Leased(slots), Leased(after));
    } else {
      assert after.Keys == slots.Keys + {session};
      assert Leased(after) == Leased(slots) + {session};
    }
  }

  lemma EnterKeepsTable(st: State, t: nat, session: Session, now: int, cfg: Config)
    requires st.free > 0 && TableInv(st.slots, cfg)
    ensures TableInv(AfterEnter(st, t, session, now, cfg).slots, cfg)
  {
    LeaseKeepsTable(st.slots, session, AfterEnter(st, t, session, now, cfg).slots[session], cfg);
  }

  lemma ResumeKeepsInv(st: State, t: nat, cfg: Config)
    requires Inv(st, cfg) && t in st.tasks && st.tasks[t].pc == Granted
    ensures Inv(WakeAll(SetPc(st, t, Running), st.tasks[t].session), cfg)
  {
    var session := st.tasks[t].session;
    var after := SetPc(st, t, Running);
    ResumeInSession(st.slots[session], st.tasks, t, session, cfg);
    SameTaskCount(st.tasks, t, Task(session, Running));
    BooksExceptAny(st, session, cfg);
    assert after.slots == st.slots[session := st.slots[session]];
    LocalStep(st, after, t, session, st.slots[session], cfg);
    WakeAllKeepsInv(after, session, cfg);
  }

  lemma CancelWaitingKeepsInv(st: State, t: nat, after: State, cfg: Config)
    requires Inv(st, cfg) && Step(st, CancelWaiting(t), after, cfg)
    ensures Inv(after, cfg)
  {
    var session := st.tasks[t].session;
    var slot := st.slots[session];
    AbandonWaiter(slot, st.tasks, t, session, cfg);
    SameTaskCount(st.tasks, t, Task(session, Abandoned));
    BooksExceptAny(st, session, cfg);
    LocalStep(st, after, t, session, slot.(queue := WithoutTask(slot.queue, t)), cfg);
    ReplaceSlot(st.slots, session, slot.(queue := WithoutTask(slot.queue, t)));
    assert NoIdleQueue(slot, st.tasks, session);
  }

  lemma CancelGrantedKeepsInv(st: State, t: nat, after: State, cfg: Config)
    requires Inv(st, cfg) && Step(st, CancelGranted(t), after, cfg)
    ensures Inv(after, cfg)
  {
    var session := st.tasks[t].session;
    var slot := st.slots[session].(value := st.slots[session].value + 1);
    AbandonGranted(st.slots[session], st.tasks, t, session, cfg);
    SameTaskCount(st.tasks, t, Task(session, Abandoned));
    BooksExceptAny(st, session, cfg);
    var mid := SetSlot(SetPc(st, t, Abandoned), session, slot);
    LocalStep(st, mid, t, session, slot, cfg);
    ReplaceSlot(st.slots, session, slot);
    WakeAllKeepsInv(mid, session, cfg);
  }

  lemma PrunedKeepsLeased(slots: map<Session, Slot>, kept: map<Session, Slot>, limit: nat)
    requires Pruned(slots, kept, limit)
    ensures Leased(kept) == Leased(slots)
    ensures forall s :: s in slots && slots[s].leases != 0 ==> s in kept
    ensures forall s :: s in kept ==> s in slots && kept[s] == slots[s]
  {
    forall s | s in slots && slots[s].leases != 0 ensures s in kept {
      assert s !in Unleased(slots);
    }
  }

  lemma PrunableCount(slots: map<Session, Slot>, gone: set<Session>, limit: nat)
    requires Prunable(slots, gone, limit)
    ensures |slots.Keys - gone| <= limit + |Leased(slots)|
  {
    assert slots.Keys == Leased(slots) + Unleased(slots);
    assert |slots.Keys| <= |Leased(slots)| + |Unleased(slots)|;
    assert gone <= slots.Keys;
    assert |slots.Keys - gone| == |slots.Keys| - |gone|;
  }

  lemma PrunedKeepsTable(slots: map<Session, Slot>, kept: map<Session, Slot>, cfg: Config)
    requires Pruned(slots, kept, cfg.slotLimit)
    ensures TableInv(kept, cfg)
  {
    var gone := slots.Keys - kept.Keys;
    PrunedKeepsLeased(slots, kept, cfg.slotLimit);
    PrunableCount(slots, gone, cfg.slotLimit);
    assert kept.Keys == slots.Keys - gone;
  }

  /** The task is gone and its permits are back, but nobody has been woken yet. */
  function Left(st: State, t: nat, now: int): State
    requires t in st.tasks && st.tasks[t].session in st.slots && st.slots[st.tasks[t].session].leases > 0
  {
    var session := st.tasks[t].session;
    var slot := st.slots[session];
    State(st.free + 1, st.slots[session := slot.(value := slot.value + 1, leases := slot.leases - 1, lastUsed := now)], st.tasks - {t})
  }

  lemma LeftKeepsBooks(st: State, t: nat, now: int, cfg: Config)
    requires Books(st, cfg) && t in st.tasks && st.tasks[t].pc == Running
    ensures st.slots[st.tasks[t].session].leases > 0
    ensures BooksExcept(Left(st, t, now), st.tasks[t].session, cfg)
  {
    var session := st.tasks[t].session;
    LeaveSession(st.slots[session], st.tasks, t, session, now, cfg);
    var base := Left(st, t, now);
    assert base.tasks.Keys == st.tasks.Keys - {t};
    BooksExceptAny(st, session, cfg);
    LocalStep(st, base, t, session, base.slots[session], cfg);
  }

  /** A release before pruning wakes at most one waiter. */
  lemma ReturnedKeepsBooks(st: State, t: nat, now: int, cfg: Config)
    requires Books(st, cfg) && t in st.tasks && st.tasks[t].pc == Running
    ensures Books(Returned(st, t, now), cfg)
  {
    var session := st.tasks[t].session;
    LeftKeepsBooks(st, t, now, cfg);
    ReturnedWakesLeft(st, t, now);
    var base := Left(st, t, now);
    if CanWake(base, session) {
      WakeNextKeepsBooks(base, session, cfg);
    } else {
      NothingToWake(base, session, cfg);
    }
  }

  /** The order of the bookkeeping inside a release does not matter. */
  lemma ReturnedWakesLeft(st: State, t: nat, now: int)
    requires t in st.tasks && st.tasks[t].session in st.slots && st.slots[st.tasks[t].session].leases > 0
    ensures Returned(st, t, now) == WakeOne(Left(st, t, now), st.tasks[t].session)
  {
    var session := st.tasks[t].session;
    var slot := st.slots[session];
    var raised := SetSlot(State(st.free + 1, st.slots, st.tasks - {t}), session, slot.(value := slot.value + 1));
    var base := Left(st, t, now);
    assert CanWake(raised, session) == CanWake(base, session);
    assert Returned(st, t, now).slots == WakeOne(base, session).slots;
  }

  lemma ReleaseKeepsInv(st: State, t: nat, now: int, after: State, cfg: Config)
    requires Inv(st, cfg) && Step(st, Release(t, now), after, cfg)
    ensures Inv(after, cfg)
  {
    var returned := Returned(st, t, now);
    ReturnedKeepsBooks(st, t, now, cfg);
    PrunedKeepsTable(returned.slots, after.slots, cfg);
    PrunedKeepsLeased(returned.slots, after.slots, cfg.slotLimit);
    forall x | x in after.tasks ensures after.tasks[x].session in after.slots {
      var s := after.tasks[x].session;
      assert SessionInv(returned.slots[s], returned.tasks, s, cfg);
      assert x in Of(returned.tasks, s);
    }
  }

  lemma StepKeepsInv(st: State, op: Op, after: State, cfg: Config)
    requires Inv(st, cfg) && Step(st, op, after, cfg)
    ensures Inv(after, cfg)
  {
    match op
    case Enter(t, session, now) =>
      EnterKeepsBooks(st, t, session, now, cfg);
      EnterKeepsTable(st, t, session, now, cfg);
    case Resume(t) => ResumeKeepsInv(st, t, cfg);
    case CancelWaiting(t) => CancelWaitingKeepsInv(st, t, after, cfg);
    case CancelGranted(t) => CancelGrantedKeepsInv(st, t, after, cfg);
    case WakeMore(session) =>
      if session in st.slots {
        BooksExceptAny(st, session, cfg);
        WakeAllKeepsInv(st, session, cfg);
      }
    case Release(t, now) => ReleaseKeepsInv(st, t, now, after, cfg);
  }

  // ---------- Every interleaving ----------

  function Initial(cfg: Config): State {
    State(cfg.maxConcurrency, map[], map[])
  }

  ghost predicate IsRun(sts: seq<State>, ops: seq<Op>, cfg: Config) {
    && cfg.Valid()
    && |sts| == |ops| + 1
    && sts[0] == Initial(cfg)
    && (forall i {:trigger ops[i]} :: 0 <= i < |ops| ==> Step(sts[i], ops[i], sts[i + 1], cfg))
  }

  lemma {:induction false} RunKeepsInv(sts: seq<State>, ops: seq<Op>, cfg: Config, n: nat)
    requires IsRun(sts, ops, cfg) && n < |sts|
    ensures Inv(sts[n], cfg)
  {
    if n > 0 {
      RunKeepsInv(sts, ops, cfg, n - 1);
      StepKeepsInv(sts[n - 1], ops[n - 1], sts[n], cfg);
    }
  }

  lemma DisjointUnion(a: set<nat>, b: set<nat>)
    requires a !! b
    ensures |a + b| == |a| + |b|
  {
  }

  lemma PcsPartition(tasks: map<nat, Task>)
    ensures |tasks| == |With(tasks, Waiting)| + |With(tasks, Granted)| + |With(tasks, Running)| + |With(tasks, Abandoned)|
  {
    var w, g, r, a := With(tasks, Waiting), With(tasks, Granted), With(tasks, Running), With(tasks, Abandoned);
    assert tasks.Keys == w + g + (r + a);
    DisjointUnion(w, g);
    DisjointUnion(r, a);
    DisjointUnion(w + g, r + a);
  }

  /** No permit is created or lost except by abandonment, and no session runs more tasks than it may. */
  lemma PermitsAreConserved(sts: seq<State>, ops: seq<Op>, cfg: Config, n: nat, session: Session)
    requires IsRun(sts, ops, cfg) && n < |sts|
    ensures var ts := sts[n].tasks;
            && sts[n].free + |With(ts, Running)| + |With(ts, Granted)| + |With(ts, Waiting)| + |With(ts, Abandoned)| == cfg.maxConcurrency
            && |Holders(ts, session)| <= cfg.maxPerSession
  {
    RunKeepsInv(sts, ops, cfg, n);
    var st := sts[n];
    PcsPartition(st.tasks);
    if session in st.slots {
      assert SessionInv(st.slots[session], st.tasks, session, cfg);
    } else {
      assert Holders(st.tasks, session) == {};
    }
  }

  /** Whoever waits for a session permit waits for a task of the same session that runs or is about to. */
  lemma WaitersHaveARunner(sts: seq<State>, ops: seq<Op>, cfg: Config, n: nat, t: nat)
    requires IsRun(sts, ops, cfg) && n < |sts|
    requires t in sts[n].tasks && sts[n].tasks[t].pc == Waiting
    ensures exists u :: u in Holders(sts[n].tasks, sts[n].tasks[t].session)
  {
    RunKeepsInv(sts, ops, cfg, n);
    var st, session := sts[n], sts[n].tasks[t].session;
    assert SessionInv(st.slots[session], st.tasks, session, cfg) && NoIdleQueue(st.slots[session], st.tasks, session);
    assert t in Waiters(st.tasks, session);
    assert t in Queued(st.slots[session].queue);
    var u :| u in Holders(st.tasks, session);
  }

  lemma LeasedSlotsHaveTasks(st: State, cfg: Config)
    requires Inv(st, cfg)
    ensures |Leased(st.slots)| <= |st.tasks|
  {
    var names := map t | t in st.tasks :: st.tasks[t].session;
    forall s | s in Leased(st.slots) ensures s in names.Values {
      assert SessionInv(st.slots[s], st.tasks, s, cfg);
      var t :| t in Of(st.tasks, s);
      assert names[t] == s;
    }
    ValuesBound(names);
    SubsetSize(Leased(st.slots), names.Values);
    assert names.Keys == st.tasks.Keys;
  }

  lemma {:induction false} ValuesBound(m: map<nat, Session>)
    ensures |m.Values| <= |m|
    decreases |m|
  {
    if m.Keys == {} {
      assert m.Values == {};
    } else {
      var k :| k in m;
      var rest := m - {k};
      ValuesBound(rest);
      assert rest.Keys == m.Keys - {k};
      forall v | v in m.Values ensures v in rest.Values + {m[k]} {
        var j :| j in m && m[j] == v;
        assert j == k || (j in rest && rest[j] == v);
      }
      SubsetSize(m.Values, rest.Values + {m[k]});
    }
  }

  /** The slot table stays bounded, and pruning never drops a slot that a task has leased. */
  lemma SlotTableIsBounded(sts: seq<State>, ops: seq<Op>, cfg: Config, n: nat)
    requires IsRun(sts, ops, cfg) && n < |sts|
    ensures |sts[n].slots| <= cfg.slotLimit + cfg.maxConcurrency
    ensures forall t :: t in sts[n].tasks ==> sts[n].tasks[t].session in sts[n].slots
  {
    RunKeepsInv(sts, ops, cfg, n);
    LeasedSlotsHaveTasks(sts[n], cfg);
  }

  // ---------- Abandoned permits ----------

  /** Somebody can take a permit, resume, or finish and give one back. */
  ghost predicate CanProgress(st: State) {
    st.free > 0 || exists t :: t in st.tasks && (st.tasks[t].pc == Granted || st.tasks[t].pc == Running)
  }

  /** There is no hold-and-wait deadlock: dispatch stops exactly when every permit has been abandoned. */
  lemma StuckIffAllAbandoned(sts: seq<State>, ops: seq<Op>, cfg: Config, n: nat)
    requires IsRun(sts, ops, cfg) && n < |sts|
    ensures !CanProgress(sts[n]) <==> |With(sts[n].tasks, Abandoned)| == cfg.maxConcurrency
  {
    RunKeepsInv(sts, ops, cfg, n);
    var st := sts[n];
    var gone := With(st.tasks, Abandoned);
    PcsPartition(st.tasks);
    if !CanProgress(st) {
      forall t | t in st.tasks ensures t in gone {
        if st.tasks[t].pc == Waiting { WaitersHaveARunner(sts, ops, cfg, n, t); }
      }
      assert gone == st.tasks.Keys;
    } else if st.free == 0 {
      var t :| t in st.tasks && (st.tasks[t].pc == Granted || st.tasks[t].pc == Running);
      assert t in With(st.tasks, st.tasks[t].pc);
    }
  }

  /** The queue of a session holds tasks that wait, each once. */
  ghost predicate QueueWaits(st: State, session: Session) {
    session in st.slots ==>
      && Distinct(st.slots[session].queue)
      && forall t :: t in st.slots[session].queue ==> t in st.tasks && st.tasks[t].pc == Waiting
  }

  lemma {:induction false} WakeAllAbandonsNobody(st: State, session: Session)
    requires QueueWaits(st, session)
    ensures With(WakeAll(st, session).tasks, Abandoned) == With(st.tasks, Abandoned)
    decreases if session in st.slots then |st.slots[session].queue| else 0
  {
    if CanWake(st, session) {
      var queue, next := st.slots[session].queue, WakeNext(st, session);
      forall t | t in queue[1..] ensures t in queue && t != queue[0] { }
      WakeAllAbandonsNobody(next, session);
      assert With(next.tasks, Abandoned) == With(st.tasks, Abandoned);
    }
  }

  lemma InvQueueWaits(st: State, session: Session, cfg: Config)
    requires Inv(st, cfg)
    ensures QueueWaits(st, session)
  {
    if session in st.slots {
      assert SessionInv(st.slots[session], st.tasks, session, cfg);
      forall t | t in st.slots[session].queue ensures t in Waiters(st.tasks, session) { assert t in Queued(st.slots[session].queue); }
    }
  }

  predicate IsCancel(op: Op) {
    op.CancelWaiting? || op.CancelGranted?
  }

  lemma ResumeAbandonsNobody(st: State, t: nat)
    requires t in st.tasks && st.tasks[t].pc == Granted && QueueWaits(st, st.tasks[t].session)
    ensures With(WakeAll(SetPc(st, t, Running), st.tasks[t].session).tasks, Abandoned) == With(st.tasks, Abandoned)
  {
    var resumed := SetPc(st, t, Running);
    assert With(resumed.tasks, Abandoned) == With(st.tasks, Abandoned);
    WakeAllAbandonsNobody(resumed, st.tasks[t].session);
  }

  lemma CancelGrantedAbandons(st: State, t: nat, after: State, cfg: Config)
    requires Step(st, CancelGranted(t), after, cfg) && QueueWaits(st, st.tasks[t].session)
    ensures With(after.tasks, Abandoned) == With(st.tasks, Abandoned) + {t}
  {
    var session := st.tasks[t].session;
    var gone := SetSlot(SetPc(st, t, Abandoned), session, st.slots[session].(value := st.slots[session].value + 1));
    assert With(gone.tasks, Abandoned) == With(st.tasks, Abandoned) + {t};
    WakeAllAbandonsNobody(gone, session);
  }

  lemma EnterAbandonsNobody(st: State, t: nat, session: Session, now: int, cfg: Config)
    requires t !in st.tasks && st.free > 0
    ensures With(AfterEnter(st, t, session, now, cfg).tasks, Abandoned) == With(st.tasks, Abandoned)
  {
  }

  lemma ReleaseAbandonsNobody(st: State, t: nat, now: int)
    requires t in st.tasks && st.tasks[t].pc == Running && QueueWaits(st, st.tasks[t].session)
    ensures With(Returned(st, t, now).tasks, Abandoned) == With(st.tasks, Abandoned)
  {
  }

  ghost predicate QueuesWait(st: State) {
    forall s :: s in st.slots ==> QueueWaits(st, s)
  }

  lemma InvQueuesWait(st: State, cfg: Config)
    requires Inv(st, cfg)
    ensures QueuesWait(st)
  {
    forall s | s in st.slots ensures QueueWaits(st, s) { InvQueueWaits(st, s, cfg); }
  }

  /** A cancellation abandons its task, and no other step abandons one. */
  lemma StepAbandons(st: State, op: Op, after: State, cfg: Config)
    requires QueuesWait(st) && Step(st, op, after, cfg)
    ensures With(after.tasks, Abandoned) == With(st.tasks, Abandoned) + if IsCancel(op) then {op.task} else {}
    ensures IsCancel(op) ==> op.task !in With(st.tasks, Abandoned)
  {
    match op
    case Enter(t, session, now) => EnterAbandonsNobody(st, t, session, now, cfg);
    case Resume(t) => ResumeAbandonsNobody(st, t);
    case CancelWaiting(t) =>
    case CancelGranted(t) => CancelGrantedAbandons(st, t, after, cfg);
    case WakeMore(session) => WakeAllAbandonsNobody(st, session);
    case Release(t, now) => ReleaseAbandonsNobody(st, t, now);
  }

  /** The cancellations among the first `n` steps. */
  function Cancellations(ops: seq<Op>, n: nat): nat
    requires n <= |ops|
  {
    if n == 0 then 0 else Cancellations(ops, n - 1) + if IsCancel(ops[n - 1]) then 1 else 0
  }

  lemma StepCountsAbandoned(sts: seq<State>, ops: seq<Op>, cfg: Config, n: nat)
    requires IsRun(sts, ops, cfg) && n < |ops|
    ensures |With(sts[n + 1].tasks, Abandoned)| == |With(sts[n].tasks, Abandoned)| + if IsCancel(ops[n]) then 1 else 0
  {
    RunKeepsInv(sts, ops, cfg, n);
    InvQueuesWait(sts[n], cfg);
    StepAbandons(sts[n], ops[n], sts[n + 1], cfg);
  }

  /** In every run as many permits are abandoned as tasks were cancelled inside the session acquire. */
  lemma {:induction false} AbandonedAreCancelled(sts: seq<State>, ops: seq<Op>, cfg: Config, n: nat)
    requires IsRun(sts, ops, cfg) && n < |sts|
    ensures |With(sts[n].tasks, Abandoned)| == Cancellations(ops, n)
  {
    if n > 0 {
      AbandonedAreCancelled(sts, ops, cfg, n - 1);
      StepCountsAbandoned(sts, ops, cfg, n - 1);
    }
  }

  /** So dispatch stops exactly when as many tasks have been cancelled there as there are permits. */
  lemma StuckIffAllCancelled(sts: seq<State>, ops: seq<Op>, cfg: Config, n: nat)
    requires IsRun(sts, ops, cfg) && n < |sts|
    ensures !CanProgress(sts[n]) <==> Cancellations(ops, n) == cfg.maxConcurrency
    ensures Cancellations(ops, n) <= cfg.maxConcurrency
  {
    AbandonedAreCancelled(sts, ops, cfg, n);
    StuckIffAllAbandoned(sts, ops, cfg, n);
    PermitsAreConserved(sts, ops, cfg, n, Session(""));
  }

  /**
   Cancelling a task that was handed a session permit but has not resumed, together with one queued behind
   it, is enough: with two permits the dispatcher ends with none, and nothing can run again.
   */
  lemma AllPermitsCanBeAbandoned(s: Session, cfg: Config)
    returns (s0: State, s1: State, s2: State, s3: State, s4: State, s5: State, s6: State)
    requires cfg == Config(2, 1, 1)
    ensures s0 == Initial(cfg) && !CanProgress(s6)
    ensures Step(s0, Enter(0, s, 0), s1, cfg) && Step(s1, Enter(1, s, 0), s2, cfg) && Step(s2, Release(0, 0), s3, cfg)
    ensures Step(s3, Enter(2, s, 0), s4, cfg) && Step(s4, CancelWaiting(2), s5, cfg) && Step(s5, CancelGranted(1), s6, cfg)
  {
    s0, s1, s2, s3 := UpToRelease(s, cfg);
    s4, s5, s6 := UpToNobody(s, s3, cfg);
  }

  lemma UpToRelease(s: Session, cfg: Config) returns (s0: State, s1: State, s2: State, s3: State)
    requires cfg == Config(2, 1, 1)
    ensures s0 == Initial(cfg) && s3 == State(1, map[s := Slot(0, [], 1, 0)], map[1 := Task(s, Granted)])
    ensures Step(s0, Enter(0, s, 0), s1, cfg) && Step(s1, Enter(1, s, 0), s2, cfg) && Step(s2, Release(0, 0), s3, cfg)
  {
    s0 := Initial(cfg);
    s1 := State(1, map[s := Slot(0, [], 1, 0)], map[0 := Task(s, Running)]);
    s2 := State(0, map[s := Slot(0, [1], 2, 0)], map[0 := Task(s, Running), 1 := Task(s, Waiting)]);
    s3 := State(1, map[s := Slot(0, [], 1, 0)], map[1 := Task(s, Granted)]);
    EnterSteps(s, s0, s1, s2, cfg);
    ReleaseStep(s, s2, s3, cfg);
  }

  lemma UpToNobody(s: Session, s3: State, cfg: Config) returns (s4: State, s5: State, s6: State)
    requires cfg == Config(2, 1, 1) && s3 == State(1, map[s := Slot(0, [], 1, 0)], map[1 := Task(s, Granted)])
    ensures Step(s3, Enter(2, s, 0), s4, cfg) && Step(s4, CancelWaiting(2), s5, cfg) && Step(s5, CancelGranted(1), s6, cfg)
    ensures !CanProgress(s6)
  {
    s4 := State(0, map[s := Slot(0, [2], 2, 0)], map[1 := Task(s, Granted), 2 := Task(s, Waiting)]);
    s5 := State(0, map[s := Slot(0, [], 2, 0)], map[1 := Task(s, Granted), 2 := Task(s, Abandoned)]);
    s6 := State(0, map[s := Slot(1, [], 2, 0)], map[1 := Task(s, Abandoned), 2 := Task(s, Abandoned)]);
    EnterAgain(s, s3, s4, cfg);
    CancelSteps(s, s4, s5, s6, cfg);
  }

  lemma EnterSteps(s: Session, s0: State, s1: State, s2: State, cfg: Config)
    requires cfg == Config(2, 1, 1) && s0 == Initial(cfg)
    requires s1 == State(1, map[s := Slot(0, [], 1, 0)], map[0 := Task(s, Running)])
    requires s2 == State(0, map[s := Slot(0, [1], 2, 0)], map[0 := Task(s, Running), 1 := Task(s, Waiting)])
    ensures Step(s0, Enter(0, s, 0), s1, cfg) && Step(s1, Enter(1, s, 0), s2, cfg)
  {
    assert AfterEnter(s0, 0, s, 0, cfg) == s1;
    assert [] + [1] == [1];
    assert AfterEnter(s1, 1, s, 0, cfg).slots == s2.slots && AfterEnter(s1, 1, s, 0, cfg).tasks == s2.tasks;
  }

  lemma EnterAgain(s: Session, s3: State, s4: State, cfg: Config)
    requires s3 == State(1, map[s := Slot(0, [], 1, 0)], map[1 := Task(s, Granted)])
    requires s4 == State(0, map[s := Slot(0, [2], 2, 0)], map[1 := Task(s, Granted), 2 := Task(s, Waiting)])
    ensures Step(s3, Enter(2, s, 0), s4, cfg)
  {
    assert [] + [2] == [2];
    assert AfterEnter(s3, 2, s, 0, cfg).slots == s4.slots && AfterEnter(s3, 2, s, 0, cfg).tasks == s4.tasks;
  }

  lemma ReturnedToWaiter(s: Session, s2: State, s3: State)
    requires s2 == State(0, map[s := Slot(0, [1], 2, 0)], map[0 := Task(s, Running), 1 := Task(s, Waiting)])
    requires s3 == State(1, map[s := Slot(0, [], 1, 0)], map[1 := Task(s, Granted)])
    ensures Returned(s2, 0, 0) == s3
  {
    assert s2.tasks - {0} == map[1 := Task(s, Waiting)];
    var raised := State(1, map[s := Slot(1, [1], 2, 0)], map[1 := Task(s, Waiting)]);
    var given := SetSlot(State(1, s2.slots, s2.tasks - {0}), s, Slot(1, [1], 2, 0));
    assert given == raised by { assert given.slots == raised.slots; }
    assert CanWake(raised, s);
    var woken := WakeNext(raised, s);
    assert [1][1..] == [];
    assert woken.slots == map[s := Slot(0, [], 2, 0)] && woken.tasks == map[1 := Task(s, Granted)];
    assert Returned(s2, 0, 0).slots == s3.slots;
  }

  lemma ReleaseStep(s: Session, s2: State, s3: State, cfg: Config)
    requires cfg.slotLimit == 1
    requires s2 == State(0, map[s := Slot(0, [1], 2, 0)], map[0 := Task(s, Running), 1 := Task(s, Waiting)])
    requires s3 == State(1, map[s := Slot(0, [], 1, 0)], map[1 := Task(s, Granted)])
    ensures Step(s2, Release(0, 0), s3, cfg)
  {
    assert Returned(s2, 0, 0) == s3 by { ReturnedToWaiter(s, s2, s3); }
    assert s3.slots.Keys - s3.slots.Keys == {};
    assert Pruned(s3.slots, s3.slots, 1);
  }

  lemma CancelSteps(s: Session, s4: State, s5: State, s6: State, cfg: Config)
    requires s4 == State(0, map[s := Slot(0, [2], 2, 0)], map[1 := Task(s, Granted), 2 := Task(s, Waiting)])
    requires s5 == State(0, map[s := Slot(0, [], 2, 0)], map[1 := Task(s, Granted), 2 := Task(s, Abandoned)])
    requires s6 == State(0, map[s := Slot(1, [], 2, 0)], map[1 := Task(s, Abandoned), 2 := Task(s, Abandoned)])
    ensures Step(s4, CancelWaiting(2), s5, cfg) && Step(s5, CancelGranted(1), s6, cfg)
  {
    assert WithoutTask([2], 2) == [];
    assert !CanWake(s6, s);
  }

  // ---------- The code itself ----------

  function Names(list: seq<Session>): set<Session> {
    set s | s in list
  }

  /** Each name once, oldest slot first. */
  ghost predicate OldestFirst(list: seq<Session>, slots: map<Session, Slot>) {
    && (forall s :: s in list ==> s in slots)
    && (forall i, j :: 0 <= i < j < |list| ==> list[i] != list[j] && slots[list[i]].lastUsed <= slots[list[j]].lastUsed)
  }

  lemma {:induction false} NamesCount(list: seq<Session>)
    requires forall i, j :: 0 <= i < j < |list| ==> list[i] != list[j]
    ensures |Names(list)| == |list|
  {
    if list != [] {
      var front, last := list[..|list| - 1], list[|list| - 1];
      NamesCount(front);
      assert list == front + [last];
      assert Names(list) == Names(front) + {last} && last !in Names(front);
    }
  }

  class DispatchControls {
    const cfg: Config
    var free: nat
    var slots: map<Session, Slot>
    var tasks: map<nat, Task>

    function View(): State
      reads this
    {
      State(free, slots, tasks)
    }

    constructor (cfg: Config)
      requires cfg.Valid()
      ensures this.cfg == cfg && View() == Initial(cfg) && Inv(View(), cfg)
    {
      this.cfg := cfg;
      free, slots, tasks := cfg.maxConcurrency, map[], map[];
    }

    method InsertByAge(list: seq<Session>, session: Session) returns (longer: seq<Session>)
      requires OldestFirst(list, slots) && session in slots && session !in Names(list)
      ensures OldestFirst(longer, slots) && Names(longer) == Names(list) + {session}
    {
      var i := |list|;
      while i > 0 && slots[list[i - 1]].lastUsed > slots[session].lastUsed
        invariant 0 <= i <= |list|
        invariant i < |list| ==> slots[list[i]].lastUsed > slots[session].lastUsed
      {
        i := i - 1;
      }
      InsertKeepsOrder(list, i, session, slots);
      longer := list[..i] + [session] + list[i..];
    }

    method Removable() returns (removable: seq<Session>)
      ensures OldestFirst(removable, slots) && Names(removable) == Unleased(slots)
    {
      removable := [];
      var rest := slots.Keys;
      while rest != {}
        invariant rest <= slots.Keys
        invariant OldestFirst(removable, slots) && Names(removable) == Unleased(slots) - rest
        decreases rest
      {
        var session :| session in rest;
        if slots[session].leases == 0 {
          assert session !in Names(removable);
          removable := InsertByAge(removable, session);
        }
        rest := rest - {session};
      }
    }

    method PruneSessionSlots()
      modifies `slots
      ensures Pruned(old(slots), slots, cfg.slotLimit)
    {
      if |slots| <= cfg.slotLimit {
        NothingPruned(slots, cfg.slotLimit);
        return;
      }
      var removable := Removable();
      var overflow := |slots| - cfg.slotLimit;
      var count := if overflow <= |removable| then overflow else |removable|;
      for i := 0 to count
        invariant slots == old(slots) - Names(removable[..i])
      {
        DropNext(old(slots), removable, i);
        slots := slots - {removable[i]};
      }
      OldestArePruned(old(slots), removable, count, cfg.slotLimit);
    }

    method Enter(t: nat, session: Session, now: int)
      requires t !in tasks && free > 0
      modifies this
      ensures Step(old(View()), Op.Enter(t, session, now), View(), cfg)
    {
      free := free - 1;
      if session !in slots {
        slots := slots[session := FreshSlot(cfg, now)];
      }
      var slot := slots[session];
      slot := slot.(leases := slot.leases + 1, lastUsed := now);
      if Locked(View(), session, slot) {
        slots := slots[session := slot.(queue := slot.queue + [t])];
        tasks := tasks[t := Task(session, Waiting)];
      } else {
        slots := slots[session := slot.(value := slot.value - 1)];
        tasks := tasks[t := Task(session, Running)];
      }
      assert View().slots == AfterEnter(old(View()), t, session, now, cfg).slots;
    }

    method ReturnPermits(t: nat, now: int)
      requires t in tasks
      modifies this
      ensures View() == Returned(old(View()), t, now)
    {
      var session := tasks[t].session;
      free := free + 1;
      tasks := tasks - {t};
      if session !in slots { return; }
      slots := slots[session := slots[session].(value := slots[session].value + 1)];
      var woken := WakeOne(View(), session);
      slots, tasks := woken.slots, woken.tasks;
      var slot := slots[session];
      slots := slots[session := slot.(leases := if slot.leases == 0 then 0 else slot.leases - 1, lastUsed := now)];
    }

    method Release(t: nat, now: int)
      requires t in tasks && tasks[t].pc == Running
      modifies this
      ensures Step(old(View()), Op.Release(t, now), View(), cfg)
    {
      var known := tasks[t].session in slots;
      ReturnPermits(t, now);
      if known { PruneSessionSlots(); }
    }
  }

  lemma NamesOfInsert(list: seq<Session>, i: nat, s: Session)
    requires i <= |list|
    ensures Names(list[..i] + [s] + list[i..]) == Names(list) + {s}
  {
    assert list == list[..i] + list[i..];
  }

  /** What holds between every two elements in order still does after one that fits its place is inserted. */
  lemma InsertKeepsPairs<T>(list: seq<T>, i: nat, s: T, rel: (T, T) -> bool)
    requires i <= |list| && forall a, b :: 0 <= a < b < |list| ==> rel(list[a], list[b])
    requires (forall a :: 0 <= a < i ==> rel(list[a], s)) && (forall b :: i <= b < |list| ==> rel(s, list[b]))
    ensures var longer := list[..i] + [s] + list[i..];
            forall a, b :: 0 <= a < b < |longer| ==> rel(longer[a], longer[b])
  {
    var longer := list[..i] + [s] + list[i..];
    assert forall k :: 0 <= k < |longer| ==> longer[k] == if k < i then list[k] else if k == i then s else list[k - 1];
  }

  lemma InsertKeepsOrder(list: seq<Session>, i: nat, s: Session, slots: map<Session, Slot>)
    requires OldestFirst(list, slots) && s in slots && s !in Names(list) && i <= |list|
    requires i > 0 ==> slots[list[i - 1]].lastUsed <= slots[s].lastUsed
    requires i < |list| ==> slots[s].lastUsed < slots[list[i]].lastUsed
    ensures var longer := list[..i] + [s] + list[i..];
            OldestFirst(longer, slots) && Names(longer) == Names(list) + {s}
  {
    var longer := list[..i] + [s] + list[i..];
    var rel := (a: Session, b: Session) => a in slots && b in slots && a != b && slots[a].lastUsed <= slots[b].lastUsed;
    NamesOfInsert(list, i, s);
    forall a | 0 <= a < |list| ensures list[a] in slots && list[a] != s { assert list[a] in Names(list); }
    forall a | 0 <= a < i ensures rel(list[a], s) { assert a < i - 1 ==> slots[list[a]].lastUsed <= slots[list[i - 1]].lastUsed; }
    forall b | i <= b < |list| ensures rel(s, list[b]) { assert i < b ==> slots[list[i]].lastUsed <= slots[list[b]].lastUsed; }
    InsertKeepsPairs(list, i, s, rel);
    forall x | x in longer ensures x in slots {
      assert x in Names(longer);
      assert x in Names(list) || x == s;
    }
    assert forall a, b :: 0 <= a < b < |longer| ==> rel(longer[a], longer[b]);
  }

  lemma NamesOfPrefix(list: seq<Session>, i: nat)
    requires i < |list|
    ensures Names(list[..i + 1]) == Names(list[..i]) + {list[i]}
  {
    assert list[..i + 1] == list[..i] + [list[i]];
  }

  lemma DropNext(slots: map<Session, Slot>, list: seq<Session>, i: nat)
    requires i < |list|
    ensures slots - Names(list[..i]) - {list[i]} == slots - Names(list[..i + 1])
  {
    NamesOfPrefix(list, i);
  }

  lemma NothingPruned(slots: map<Session, Slot>, limit: nat)
    requires |slots| <= limit
    ensures Pruned(slots, slots, limit)
  {
    assert slots.Keys - slots.Keys == {};
  }

  lemma OldestArePrunable(slots: map<Session, Slot>, removable: seq<Session>, count: nat)
    requires OldestFirst(removable, slots) && Names(removable) == Unleased(slots) && count <= |removable|
    ensures var gone := Names(removable[..count]);
            && gone <= Unleased(slots) && |gone| == count && |Unleased(slots)| == |removable|
            && (forall a, b :: a in gone && b in Unleased(slots) - gone ==> slots[a].lastUsed <= slots[b].lastUsed)
  {
    NamesCount(removable);
    NamesCount(removable[..count]);
    var gone := Names(removable[..count]);
    forall k | 0 <= k < count ensures removable[k] in gone {
      assert removable[..count][k] == removable[k];
    }
    forall a, b | a in gone && b in Unleased(slots) - gone
      ensures slots[a].lastUsed <= slots[b].lastUsed
    {
      var i :| 0 <= i < count && removable[..count][i] == a;
      assert b in Names(removable);
      var j :| 0 <= j < |removable| && removable[j] == b;
    }
  }

  lemma OldestArePruned(slots: map<Session, Slot>, removable: seq<Session>, count: nat, limit: nat)
    requires OldestFirst(removable, slots) && Names(removable) == Unleased(slots)
    requires |slots| > limit && count == if |slots| - limit <= |removable| then |slots| - limit else |removable|
    ensures Pruned(slots, slots - Names(removable[..count]), limit)
  {
    OldestArePrunable(slots, removable, count);
    var gone := Names(removable[..count]);
    var kept := slots - gone;
    assert slots.Keys - kept.Keys == gone;
  }
}
