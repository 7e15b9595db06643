/**
 What the offset store guarantees over whole runs: the incremental store agrees with an
 order-independent description, the watermark never passes an uncompleted update above the last
 explicit baseline, and memory, state file and next offset never drift apart.
 */
module TelegramOffsetRuns {
  import opened Wrappers
  import opened TelegramOffsets

  // ---------- Completions in any order ----------

  datatype Mark = Mark(id: nat, tracked: bool)

  ghost function MarkedIds(marks: seq<Mark>): set<nat> {
    set m | m in marks :: m.id
  }

  ghost function TrackedIds(marks: seq<Mark>): set<nat> {
    set m | m in marks && m.tracked :: m.id
  }

  ghost function CompleteAll(st: OffsetState, marks: seq<Mark>): OffsetState {
    if marks == [] then st
    else
      var last := marks[|marks| - 1];
      AfterCompletion(CompleteAll(st, marks[..|marks| - 1]), last.id, last.tracked)
  }

  /** The state that a batch of completions must lead to, whatever its order. */
  ghost function BatchSpec(st: OffsetState, ids: set<nat>, tracked: set<nat>): OffsetState
    requires st.safe.Some? && st.highest.Some?
  {
    var done := st.completed + ids;
    var end := RunEnd(st.safe.value, done);
    OffsetState(Some(end), Some(MaxOf({st.highest.value, end} + ids)), Above(done, end), Above(st.pending - tracked, end))
  }

  lemma MarksGrow(marks: seq<Mark>)
    requires marks != []
    ensures var last := marks[|marks| - 1];
            && MarkedIds(marks) == MarkedIds(marks[..|marks| - 1]) + {last.id}
            && TrackedIds(marks) == TrackedIds(marks[..|marks| - 1]) + if last.tracked then {last.id} else {}
  {
    var front, last := marks[..|marks| - 1], marks[|marks| - 1];
    assert marks == front + [last];
    forall x | x in MarkedIds(marks) ensures x in MarkedIds(front) + {last.id} {
      var m :| m in marks && m.id == x;
      assert m in front || m == last;
    }
    forall x | x in TrackedIds(marks) ensures x in TrackedIds(front) || (last.tracked && x == last.id) {
      var m :| m in marks && m.tracked && m.id == x;
      assert m in front || m == last;
    }
  }

  /** The run of a larger set goes at least as far, and continuing from the earlier end changes nothing. */
  lemma RunEndExtends(floor: nat, ids: set<nat>, more: set<nat>, id: nat)
    requires more == ids + {id}
    ensures RunEnd(floor, ids) <= RunEnd(floor, more)
    ensures RunEnd(RunEnd(floor, ids), more) == RunEnd(floor, more)
    ensures id <= RunEnd(floor, ids) ==> RunEnd(floor, more) == RunEnd(floor, ids)
  {
    var near, far := RunEnd(floor, ids), RunEnd(floor, more);
    assert forall x :: floor < x <= near ==> x in more;
    RunEndIsUnique(floor, more, RunEnd(near, more));
  }

  /** Only the ids above the watermark matter for how far it can move. */
  lemma RunEndIgnoresLowIds(floor: nat, ids: set<nat>, others: set<nat>)
    requires Above(ids, floor) == Above(others, floor)
    ensures RunEnd(floor, ids) == RunEnd(floor, others)
  {
    var end := RunEnd(floor, ids);
    forall x | x > floor ensures x in ids <==> x in others {
      assert x in Above(ids, floor) <==> x in Above(others, floor);
    }
    RunEndIsUnique(floor, others, end);
  }

  /** The highest id after one more completion, as the store computes it and as the batch names it. */
  lemma HighestStep(start: nat, near: nat, far: nat, ids: set<nat>, id: nat)
    requires near <= far
    ensures var h := MaxOf({start, near} + ids);
            var noted := if id <= near || h >= id then h else id;
            (if noted < far then far else noted) == MaxOf({start, far} + (ids + {id}))
  {
    var before, after := {start, near} + ids, {start, far} + (ids + {id});
    var h := MaxOf(before);
    assert MaxOf(after) in after && h in before;
    assert forall x :: x in before ==> x in after || x == near;
    assert forall x :: x in after ==> x in before || x == id || x == far;
    assert near in before && far in after && id in after;
  }

  lemma PendingStep(pending: set<nat>, tracked: set<nat>, more: set<nat>, near: nat, far: nat)
    requires near <= far
    ensures Above(Above(pending - tracked, near) - more, far) == Above(pending - (tracked + more), far)
  {
  }

  /** Where the watermark and the completed ids stand after one more completion. */
  lemma RunStep(floor: nat, done: set<nat>, id: nat)
    ensures var near, far := RunEnd(floor, done), RunEnd(floor, done + {id});
            var noted := if id <= near then Above(done, near) else Above(done, near) + {id};
            near <= far && RunEnd(near, noted) == far && Above(noted, far) == Above(done + {id}, far)
  {
    var near, far := RunEnd(floor, done), RunEnd(floor, done + {id});
    var noted := if id <= near then Above(done, near) else Above(done, near) + {id};
    RunEndExtends(floor, done, done + {id}, id);
    assert Above(noted, near) == Above(done + {id}, near);
    RunEndIgnoresLowIds(near, noted, done + {id});
  }

  /** A completion noted in a state with a watermark. */
  lemma RecordedAt(near: nat, h: nat, completed: set<nat>, pending: set<nat>, id: nat, isTracked: bool)
    ensures Recorded(OffsetState(Some(near), Some(h), completed, pending), id, isTracked)
            == OffsetState(Some(near), Some(if id <= near || h >= id then h else id),
                           if id <= near then completed else completed + {id},
                           pending - if isTracked then {id} else {})
  {
    assert pending - {} == pending;
  }

  /** Settling when the end of the run is known. */
  lemma SettledAt(near: nat, h: nat, completed: set<nat>, pending: set<nat>, isTracked: bool, far: nat)
    requires RunEnd(near, completed) == far
    ensures Settled(OffsetState(Some(near), Some(h), completed, pending), isTracked)
            == OffsetState(Some(far), Some(if h < far then far else h), Above(completed, far), Above(pending, far))
  {
  }

  /** One more completion after a settled batch. */
  lemma BatchStep(st: OffsetState, ids: set<nat>, tracked: set<nat>, id: nat, isTracked: bool)
    requires st.Valid() && st.safe.Some?
    ensures AfterCompletion(BatchSpec(st, ids, tracked), id, isTracked)
            == BatchSpec(st, ids + {id}, tracked + if isTracked then {id} else {})
  {
    var floor, done := st.safe.value, st.completed + ids;
    var near, far := RunEnd(floor, done), RunEnd(floor, done + {id});
    var more: set<nat> := if isTracked then {id} else {};
    var h, pending := MaxOf({st.highest.value, near} + ids), Above(st.pending - tracked, near);
    var noted := if id <= near then Above(done, near) else Above(done, near) + {id};
    assert st.completed + (ids + {id}) == done + {id};
    RecordedAt(near, h, Above(done, near), pending, id, isTracked);
    RunStep(floor, done, id);
    SettledAt(near, if id <= near || h >= id then h else id, noted, pending - more, isTracked, far);
    HighestStep(st.highest.value, near, far, ids, id);
    PendingStep(st.pending, tracked, more, near, far);
  }

  /** The first completion already settles the batch, whatever state it starts from. */
  lemma FirstCompletion(st: OffsetState, id: nat, isTracked: bool)
    requires st.Valid() && st.safe.Some?
    ensures AfterCompletion(st, id, isTracked) == BatchSpec(st, {id}, if isTracked then {id} else {})
  {
    var noted := Recorded(st, id, isTracked);
    var done := st.completed + {id};
    var floor := st.safe.value;
    assert Above(noted.completed, floor) == Above(done, floor);
    RunEndIgnoresLowIds(floor, noted.completed, done);
    var far := RunEnd(floor, done);
    assert Above(noted.completed, far) == Above(done, far);
    assert Above(noted.pending, far) == Above(st.pending - if isTracked then {id} else {}, far);
    var h := MaxOf({st.highest.value, far} + {id});
    assert h in {st.highest.value, far, id};
  }

  /**
   From a watermark, any non-empty sequence of completions, in any order and with repeats, ends with
   the watermark at the end of the longest contiguous run of done ids, and every set cut there.
   */
  lemma {:induction false} CompletionsRefineBatch(st: OffsetState, marks: seq<Mark>)
    requires st.Valid() && st.safe.Some? && marks != []
    ensures CompleteAll(st, marks) == BatchSpec(st, MarkedIds(marks), TrackedIds(marks))
    decreases |marks|
  {
    var front, last := marks[..|marks| - 1], marks[|marks| - 1];
    MarksGrow(marks);
    if front == [] {
      assert MarkedIds(front) == {} && TrackedIds(front) == {};
      FirstCompletion(st, last.id, last.tracked);
      assert MarkedIds(marks) == {last.id};
      assert TrackedIds(marks) == if last.tracked then {last.id} else {};
    } else {
      CompletionsRefineBatch(st, front);
      BatchStep(st, MarkedIds(front), TrackedIds(front), last.id, last.tracked);
    }
  }

  /** Two runs over the same ids agree, however they are ordered or repeated. */
  lemma CompletionOrderIsIrrelevant(st: OffsetState, marks: seq<Mark>, others: seq<Mark>)
    requires st.Valid() && st.safe.Some? && marks != [] && others != []
    requires MarkedIds(marks) == MarkedIds(others) && TrackedIds(marks) == TrackedIds(others)
    ensures CompleteAll(st, marks) == CompleteAll(st, others)
  {
    CompletionsRefineBatch(st, marks);
    CompletionsRefineBatch(st, others);
  }

  // ---------- Whole runs with restarts ----------

  datatype Op =
    | Begin(id: int)
    | Complete(id: int, tracked: bool)
    | ForceCommit(id: int)
    | SyncNextOffset(offset: int)
    | Restart

  /**
   The store, its file and the runtime's mirror, with the history a client remembers: the last
   explicit baseline, the ids begun since the last reset, and every id ever marked completed.
   */
  datatype World = World(
    store: OffsetState, file: Payload, nextOffset: nat,
    baseline: Option<nat>, begun: set<nat>, done: set<nat>)

  const START := World(EMPTY_STATE, Absent, 0, None, {}, {})

  /** `after` follows `before` by `op`. Which image is written is left to the store; a negative id raises. */
  ghost predicate Step(before: World, op: Op, after: World, me: Identity) {
    && after.nextOffset == after.store.NextOffset()
    && (if after.store == before.store then after.file == before.file || IsImage(after.file, after.store, me)
        else IsImage(after.file, after.store, me))
    && match op
       case Begin(id) =>
         if id < 0 then after == before
         else && after.store == AfterBegin(before.store, id)
              && after.baseline == before.baseline && after.done == before.done
              && after.begun == before.begun + {id as nat}
       case Complete(id, tracked) =>
         if id < 0 then after == before
         else && after.store == AfterCompletion(before.store, id, tracked)
              && after.baseline == BaselineAfter(before, id, tracked)
              && after.begun == before.begun && after.done == before.done + {id as nat}
       case ForceCommit(id) =>
         if id < 0 then after == before
         else && after.store == AfterForceCommit(before.store, id)
              && after.baseline == (if before.store.SafeCommitted(id) then before.baseline else Some(id as nat))
              && after.begun == before.begun && after.done == before.done
       case SyncNextOffset(offset) =>
         if offset < 0 then after == before
         else && after.store == AfterSync(before.store, offset)
              && after.done == before.done
              && (if offset == 0 then after.baseline == None && after.begun == {}
                  else && after.begun == before.begun
                       && after.baseline == if before.store.SafeCommitted(offset - 1) then before.baseline else Some((offset - 1) as nat))
       case Restart =>
         && ReadState(before.file, me) == Success(after.store)
         && after.file == before.file
         && after.baseline == before.baseline && after.begun == before.begun && after.done == before.done
  }

  /** A tracked completion without a watermark makes the largest completed id the baseline. */
  ghost function BaselineAfter(w: World, id: nat, tracked: bool): Option<nat> {
    if w.store.safe.Some? then w.baseline
    else if tracked then Some(MaxOf(w.store.completed + {id}))
    else None
  }

  ghost predicate Inv(w: World, me: Identity) {
    && w.store.Valid()
    && ReadState(w.file, me) == Success(w.store)
    && w.nextOffset == w.store.NextOffset()
    && (w.baseline.Some? <==> w.store.safe.Some?)
    && (w.baseline.Some? ==> w.baseline.value <= w.store.safe.value)
    && w.store.completed <= w.done
    && (w.baseline.Some? ==> forall x :: w.baseline.value < x <= w.store.safe.value ==> x in w.done)
    && (forall x :: x in w.begun ==> Covered(w, x))
  }

  /** `x` is at or below the last explicit baseline, done, or still pending. */
  ghost predicate Covered(w: World, x: nat) {
    (w.baseline.Some? && x <= w.baseline.value) || x in w.done || x in w.store.pending
  }

  ghost predicate IsRun(ws: seq<World>, ops: seq<Op>, me: Identity) {
    && |ws| == |ops| + 1
    && ws[0] == START
    && (forall i {:trigger ops[i]} :: 0 <= i < |ops| ==> Step(ws[i], ops[i], ws[i + 1], me))
  }

  lemma FileFollows(before: World, op: Op, after: World, me: Identity)
    requires Inv(before, me) && Step(before, op, after, me) && after.store.Valid()
    ensures ReadState(after.file, me) == Success(after.store)
  {
    if IsImage(after.file, after.store, me) {
      ReadUndoesWrite(after.file, after.store, me);
    }
  }

  lemma CompleteKeepsInv(before: World, id: int, tracked: bool, after: World, me: Identity)
    requires Inv(before, me) && Step(before, Complete(id, tracked), after, me) && id >= 0
    ensures Inv(after, me)
  {
    AfterCompletionIsValid(before.store, id, tracked);
    FileFollows(before, Complete(id, tracked), after, me);
    var noted := Recorded(before.store, id, tracked);
    assert noted.completed <= after.done;
    if after.baseline.Some? {
      var base := BaseFor(noted, tracked).value;
      forall x | after.baseline.value < x <= after.store.safe.value ensures x in after.done {
        if x > base { assert x in noted.completed; }
      }
    }
    forall x | x in after.begun ensures Covered(after, x) {
      assert Covered(before, x);
      if x in before.store.pending && x != id && after.store.safe.Some? {
        assert x in noted.pending;
        if x <= after.store.safe.value && x > after.baseline.value {
          assert x in after.done;
        }
      }
    }
  }

  lemma StepKeepsInv(before: World, op: Op, after: World, me: Identity)
    requires Inv(before, me) && Step(before, op, after, me)
    ensures Inv(after, me)
  {
    if op.Complete? && op.id >= 0 {
      CompleteKeepsInv(before, op.id, op.tracked, after, me);
    } else {
      FileFollows(before, op, after, me);
      forall x | x in after.begun ensures Covered(after, x) {
        if x in before.begun { assert Covered(before, x); }
      }
    }
  }

  lemma {:induction false} RunsKeepInv(ws: seq<World>, ops: seq<Op>, me: Identity)
    requires IsRun(ws, ops, me)
    ensures forall i :: 0 <= i < |ws| ==> Inv(ws[i], me)
  {
    for n := 0 to |ops|
      invariant forall i :: 0 <= i <= n ==> Inv(ws[i], me)
    {
      StepKeepsInv(ws[n], ops[n], ws[n + 1], me);
    }
  }

  /**
   In every reachable state an update begun above the last explicit baseline is done or still
   pending, and if it is not done the poll loop will ask for it again.
   */
  lemma NoUncompletedUpdateIsSkipped(ws: seq<World>, ops: seq<Op>, me: Identity, i: nat, x: nat)
    requires IsRun(ws, ops, me) && i < |ws|
    requires x in ws[i].begun
    requires ws[i].baseline.Some? ==> x > ws[i].baseline.value
    ensures x !in ws[i].done ==> x in ws[i].store.pending && ws[i].nextOffset <= x
  {
    RunsKeepInv(ws, ops, me);
    var w := ws[i];
    assert Inv(w, me) && Covered(w, x);
  }

  /** The watermark passed only ids that were marked completed since the last explicit baseline. */
  lemma WatermarkPassesOnlyDoneIds(ws: seq<World>, ops: seq<Op>, me: Identity, i: nat, x: nat)
    requires IsRun(ws, ops, me) && i < |ws|
    requires ws[i].baseline.Some? && ws[i].baseline.value < x < ws[i].nextOffset
    ensures x in ws[i].done
  {
    RunsKeepInv(ws, ops, me);
    assert Inv(ws[i], me);
  }

  /** A restart in any reachable state is invisible. */
  lemma RestartChangesNothing(ws: seq<World>, ops: seq<Op>, me: Identity, i: nat, after: World)
    requires IsRun(ws, ops, me) && i < |ws|
    requires Step(ws[i], Restart, after, me)
    ensures after == ws[i]
  {
    RunsKeepInv(ws, ops, me);
    assert Inv(ws[i], me);
  }

  // ---------- Where the first baseline falls short ----------

  /**
   The first tracked completion drops a pending update exactly when its id is not above every
   completed id: the first baseline, unlike every later move, may pass uncompleted updates.
   */
  lemma FirstBaselineKeepsPendingIff(st: OffsetState, id: nat, p: nat)
    requires st.Valid() && st.safe.None? && p in st.pending && p != id
    ensures p in AfterCompletion(st, id, true).pending <==> forall c :: c in st.completed + {id} ==> c < p
  {
    var noted := Recorded(st, id, true);
    var base := MaxOf(noted.completed);
    assert noted.completed == st.completed + {id};
    assert RunEnd(base, noted.completed) == base by {
      assert base + 1 !in noted.completed;
      RunEndIsUnique(base, noted.completed, base);
    }
  }

  lemma FirstBaselineCanSkip()
    ensures var st := AfterBegin(AfterBegin(EMPTY_STATE, 5), 7);
            var after := AfterCompletion(st, 7, true);
            5 in st.pending && 5 !in after.completed + after.pending && after.NextOffset() == 8
  {
    var st := AfterBegin(AfterBegin(EMPTY_STATE, 5), 7);
    var noted := Recorded(st, 7, true);
    assert noted.completed == {7};
    RunEndIsUnique(7, {7}, 7);
  }
}
