/**
 The Telegram offset store: a safe watermark plus the completed and pending update ids above it,
 kept in memory and mirrored in one state file, and the runtime object that mirrors the next offset.

 Each method of `OffsetStore` is proved against a specification function on `OffsetState`. The
 specification never steps the watermark: it names the end of the longest run of completed ids.
 */
module TelegramOffsets {
  import opened Wrappers

  datatype OffsetState = OffsetState(
    safe: Option<nat>,
    highest: Option<nat>,
    completed: set<nat>,
    pending: set<nat>)
  {
    function NextOffset(): nat {
      if safe.None? then 0 else safe.value + 1
    }

    predicate SafeCommitted(id: nat) {
      safe.Some? && id <= safe.value
    }

    ghost predicate Valid() {
      && (forall x :: x in completed + pending ==> !SafeCommitted(x))
      && (safe.Some? ==> highest.Some? && safe.value <= highest.value)
      && (safe.None? && completed != {} ==> highest.Some?)
    }
  }

  const EMPTY_STATE := OffsetState(None, None, {}, {})

  // ---------- Sets of update ids ----------

  function Above(ids: set<nat>, floor: nat): set<nat> {
    set x | x in ids && x > floor
  }

  ghost function MaxOf(ids: set<nat>): (m: nat)
    requires ids != {}
    ensures m in ids
    ensures forall x :: x in ids ==> x <= m
  {
    var x :| x in ids;
    if ids == {x} then x
    else
      assert ids == (ids - {x}) + {x};
      var rest := MaxOf(ids - {x});
      if x > rest then x else rest
  }

  lemma AboveShrinks(ids: set<nat>, floor: nat)
    requires floor + 1 in ids
    ensures |Above(ids, floor + 1)| < |Above(ids, floor)|
  {
    assert Above(ids, floor) == Above(ids, floor + 1) + {floor + 1};
  }

  /** The end of the longest contiguous run of `ids` that starts right above `floor`. */
  ghost function RunEnd(floor: nat, ids: set<nat>): (end: nat)
    ensures floor <= end
    ensures forall x :: floor < x <= end ==> x in ids
    ensures end + 1 !in ids
    decreases |Above(ids, floor)|
  {
    if floor + 1 in ids then
      AboveShrinks(ids, floor);
      RunEnd(floor + 1, ids)
    else floor
  }

  /** The three clauses of `RunEnd` leave no freedom. */
  lemma RunEndIsUnique(floor: nat, ids: set<nat>, end: nat)
    requires floor <= end && end + 1 !in ids
    requires forall x :: floor < x <= end ==> x in ids
    ensures end == RunEnd(floor, ids)
  {
    var other := RunEnd(floor, ids);
    assert floor < end + 1 <= other ==> end + 1 in ids;
    assert floor < other + 1 <= end ==> other + 1 in ids;
  }

  // ---------- What each operation means ----------

  ghost function RaiseTo(highest: Option<nat>, floor: nat): Option<nat> {
    if highest.Some? && highest.value < floor then Some(floor) else highest
  }

  ghost function AfterBegin(st: OffsetState, id: nat): OffsetState {
    if st.SafeCommitted(id) then st else st.(pending := st.pending + {id})
  }

  /** A completion is noted in the sets and in the highest id; the watermark has not moved yet. */
  ghost function Recorded(st: OffsetState, id: nat, tracked: bool): OffsetState {
    var left := if tracked then st.pending - {id} else st.pending;
    if st.SafeCommitted(id) then st.(pending := left)
    else st.(pending := left,
             completed := st.completed + {id},
             highest := if st.highest.Some? && st.highest.value >= id then st.highest else Some(id))
  }

  /** The watermark a completion counts from: the present one, or the first explicit baseline. */
  ghost function BaseFor(st: OffsetState, tracked: bool): Option<nat> {
    if st.safe.Some? then st.safe
    else if tracked && st.completed != {} then Some(MaxOf(st.completed))
    else None
  }

  /** The watermark stands at the end of the run of completed ids, and only ids above it are kept. */
  ghost function Settled(st: OffsetState, tracked: bool): OffsetState {
    var base := BaseFor(st, tracked);
    if base.None? then st
    else
      var end := RunEnd(base.value, st.completed);
      OffsetState(Some(end), RaiseTo(st.highest, end), Above(st.completed, end), Above(st.pending, end))
  }

  ghost function AfterCompletion(st: OffsetState, id: nat, tracked: bool): OffsetState {
    Settled(Recorded(st, id, tracked), tracked)
  }

  ghost function AfterForceCommit(st: OffsetState, id: nat): OffsetState {
    if st.SafeCommitted(id) then st
    else OffsetState(Some(id), Some(id), Above(st.completed, id), Above(st.pending, id))
  }

  ghost function AfterSync(st: OffsetState, offset: nat): OffsetState {
    if offset == 0 then EMPTY_STATE else AfterForceCommit(st, offset - 1)
  }

  // ---------- The state file ----------

  const STORE_SCHEMA_VERSION := 3

  /** What the state file holds, after JSON decoding. The two legacy forms are only ever read. */
  datatype Payload =
    | Absent
    | Malformed
    | LegacyInteger(offset: int)
    | LegacyObject(offset: int)
    | Versioned(
        schemaVersion: int, botId: string, tokenFingerprint: string,
        safe: Option<int>, highest: Option<int>,
        completed: seq<int>, pending: seq<int>)

  datatype Identity = Identity(botId: string, tokenFingerprint: string) {
    predicate Matches(p: Payload)
      requires p.Versioned?
    {
      if botId != "" then p.botId == "" || p.botId == botId
      else p.tokenFingerprint == "" || p.tokenFingerprint == tokenFingerprint
    }
  }

  predicate AllNonNegative(ids: seq<int>) {
    forall i :: 0 <= i < |ids| ==> ids[i] >= 0
  }

  predicate OptionalNonNegative(id: Option<int>) {
    id.Some? ==> id.value >= 0
  }

  function IdSet(ids: seq<int>): (r: set<nat>)
    requires AllNonNegative(ids)
    ensures forall x: int :: x in r <==> x in ids
  {
    set x: int | x in ids
  }

  function FromLegacyOffset(offset: nat): OffsetState {
    var safe := if offset > 0 then Some((offset - 1) as nat) else None;
    OffsetState(safe, safe, {}, {})
  }

  function ReadState(p: Payload, me: Identity): Result<OffsetState> {
    match p
    case Absent => Success(EMPTY_STATE)
    case Malformed => Failure("ValueError")
    case LegacyInteger(offset) => Success(FromLegacyOffset(if offset < 0 then 0 else offset))
    case LegacyObject(offset) =>
      if offset < 0 then Failure("ValueError") else Success(FromLegacyOffset(offset))
    case Versioned(version, _, _, safe, highest, completed, pending) =>
      if version != STORE_SCHEMA_VERSION && version != 0 then Failure("ValueError")
      else if !me.Matches(p) then Success(EMPTY_STATE)
      else if !OptionalNonNegative(safe) || !OptionalNonNegative(highest)
              || !AllNonNegative(completed) || !AllNonNegative(pending) then Failure("ValueError")
      else
        var h := if highest.None? then safe else highest;
        var h' := if safe.Some? && h.Some? && h.value < safe.value then safe else h;
        var floor := if safe.Some? then safe.value else -1;
        Success(OffsetState(
                  if safe.Some? then Some(safe.value as nat) else None,
                  if h'.Some? then Some(h'.value as nat) else None,
                  set x | x in IdSet(completed) && x > floor,
                  set x | x in IdSet(pending) && x > floor))
  }

  /** `p` is an image of `st`: the id lists may be in any order, since reading makes sets of them. */
  ghost predicate IsImage(p: Payload, st: OffsetState, me: Identity) {
    && p.Versioned? && p.schemaVersion == STORE_SCHEMA_VERSION
    && p.botId == me.botId && p.tokenFingerprint == me.tokenFingerprint
    && p.safe == st.safe && p.highest == st.highest
    && (forall x: int :: x in p.completed <==> x >= 0 && x in st.completed)
    && (forall x: int :: x in p.pending <==> x >= 0 && x in st.pending)
  }

  /** Reading undoes writing on exactly the states that keep every id above the watermark. */
  lemma ReadUndoesWrite(p: Payload, st: OffsetState, me: Identity)
    requires IsImage(p, st, me)
    ensures ReadState(p, me).Success?
    ensures ReadState(p, me).value == st <==>
            && (forall x :: x in st.completed + st.pending ==> !st.SafeCommitted(x))
            && (st.safe.Some? ==> st.highest.Some? && st.safe.value <= st.highest.value)
  {
    forall i | 0 <= i < |p.completed| ensures p.completed[i] >= 0 { assert p.completed[i] in p.completed; }
    forall i | 0 <= i < |p.pending| ensures p.pending[i] >= 0 { assert p.pending[i] in p.pending; }
    var back := ReadState(p, me).value;
    assert back.completed == set x | x in st.completed && !st.SafeCommitted(x);
    assert back.pending == set x | x in st.pending && !st.SafeCommitted(x);
    if back == st {
      forall x | x in st.completed + st.pending ensures !st.SafeCommitted(x) {
        assert x in back.completed || x in back.pending;
      }
    }
  }

  // ---------- The store itself ----------

  class OffsetStore {
    const me: Identity
    var safe: Option<nat>
    var highest: Option<nat>
    var completed: set<nat>
    var pending: set<nat>
    var file: Payload

    function Snapshot(): OffsetState
      reads this
    {
      OffsetState(safe, highest, completed, pending)
    }

    /** A restart at this point would read back exactly what is in memory. */
    ghost predicate Synced()
      reads this
    {
      ReadState(file, me) == Success(Snapshot())
    }

    constructor (me: Identity)
      ensures this.me == me && file == Absent
      ensures Snapshot() == EMPTY_STATE && Snapshot().Valid() && Synced()
    {
      this.me := me;
      safe, highest, completed, pending, file := None, None, {}, {}, Absent;
    }

    method SortedIds(ids: set<nat>) returns (sorted: seq<int>)
      ensures forall x: int :: x in sorted <==> x >= 0 && x in ids
      ensures forall i, j :: 0 <= i < j < |sorted| ==> sorted[i] < sorted[j]
    {
      sorted := [];
      var rest := ids;
      while rest != {}
        invariant rest <= ids
        invariant forall x: int :: x in sorted <==> x >= 0 && x in ids - rest
        invariant forall i, j :: 0 <= i < j < |sorted| ==> sorted[i] < sorted[j]
        invariant forall i, y :: 0 <= i < |sorted| && y in rest ==> sorted[i] < y
        decreases rest
      {
        var least := Least(rest);
        sorted := sorted + [least];
        rest := rest - {least};
      }
    }

    method Least(ids: set<nat>) returns (m: nat)
      requires ids != {}
      ensures m in ids && forall x :: x in ids ==> m <= x
    {
      m :| m in ids;
      var rest := ids - {m};
      while rest != {}
        invariant rest <= ids && m in ids
        invariant forall y :: y in ids ==> y in rest || m <= y
        decreases rest
      {
        var x :| x in rest;
        if x < m { m := x; }
        rest := rest - {x};
      }
    }

    method Greatest(ids: set<nat>) returns (m: nat)
      requires ids != {}
      ensures m == MaxOf(ids)
    {
      m :| m in ids;
      var rest := ids - {m};
      while rest != {}
        invariant rest <= ids && m in ids
        invariant forall y :: y in ids ==> y in rest || y <= m
        decreases rest
      {
        var x :| x in rest;
        if x > m { m := x; }
        rest := rest - {x};
      }
    }

    method WriteState()
      modifies `file
      ensures IsImage(file, Snapshot(), me)
      ensures Snapshot().Valid() ==> Synced()
    {
      var completedList := SortedIds(completed);
      var pendingList := SortedIds(pending);
      file := Versioned(STORE_SCHEMA_VERSION, me.botId, me.tokenFingerprint, safe, highest, completedList, pendingList);
      ReadUndoesWrite(file, Snapshot(), me);
    }

    method RefreshFromDisk() returns (r: Result<OffsetState>)
      modifies `safe, `highest, `completed, `pending
      ensures r == ReadState(file, me)
      ensures r.Success? ==> Snapshot() == r.value
      ensures r.Failure? ==> Snapshot() == old(Snapshot())
    {
      r := ReadState(file, me);
      if r.Success? {
        safe, highest, completed, pending := r.value.safe, r.value.highest, r.value.completed, r.value.pending;
      }
    }

    method Begin(updateId: int) returns (r: Result<OffsetState>)
      requires Snapshot().Valid() && Synced()
      modifies this
      ensures Snapshot().Valid() && Synced()
      ensures updateId < 0 ==> r.Failure? && Snapshot() == old(Snapshot())
      ensures updateId >= 0 ==> r == Success(Snapshot()) && Snapshot() == AfterBegin(old(Snapshot()), updateId)
      ensures Snapshot() == old(Snapshot()) ==> file == old(file)
    {
      if updateId < 0 { return Failure("ValueError"); }
      if Snapshot().SafeCommitted(updateId) { return Success(Snapshot()); }
      if updateId in pending {
        assert pending + {updateId} == pending;
        return Success(Snapshot());
      }
      pending := pending + {updateId};
      WriteState();
      return Success(Snapshot());
    }

    method AdvanceSafeWatermark(allowNewBaseline: bool) returns (changed: bool)
      modifies `safe
      ensures var base := BaseFor(old(Snapshot()), allowNewBaseline);
              safe == if base.None? then None else Some(RunEnd(base.value, completed))
      ensures changed <==> safe != old(safe)
    {
      changed := false;
      if safe.None? {
        if allowNewBaseline && completed != {} {
          var m := Greatest(completed);
          safe := Some(m);
          changed := true;
        } else {
          return;
        }
      }
      ghost var base := safe.value;
      while safe.Some? && safe.value + 1 in completed
        invariant safe.Some? && base <= safe.value
        invariant forall x :: base < x <= safe.value ==> x in completed
        invariant old(safe).None? ==> changed
        invariant old(safe).Some? ==> base == old(safe).value && (changed <==> safe.value != base)
        decreases |Above(completed, safe.value)|
      {
        AboveShrinks(completed, safe.value);
        safe := Some(safe.value + 1);
        changed := true;
      }
      RunEndIsUnique(base, completed, safe.value);
    }

    method PruneSets() returns (changed: bool)
      modifies `highest, `completed, `pending
      ensures safe.None? ==> Snapshot() == old(Snapshot())
      ensures safe.Some? ==> Snapshot() == OffsetState(safe, RaiseTo(old(highest), safe.value),
                                                       Above(old(completed), safe.value), Above(old(pending), safe.value))
      ensures changed <==> Snapshot() != old(Snapshot())
    {
      changed := false;
      if safe.Some? {
        var completedKept := Above(completed, safe.value);
        if completedKept != completed { completed := completedKept; changed := true; }
        var pendingKept := Above(pending, safe.value);
        if pendingKept != pending { pending := pendingKept; changed := true; }
        if highest.Some? && highest.value < safe.value { highest := safe; changed := true; }
      }
    }

    method RecordCompletion(id: nat, trackedPending: bool) returns (changed: bool)
      modifies `highest, `completed, `pending
      ensures Snapshot() == Recorded(old(Snapshot()), id, trackedPending)
      ensures changed <==> Snapshot() != old(Snapshot())
    {
      changed := false;
      if trackedPending && id in pending {
        pending := pending - {id};
        changed := true;
      }
      assert pending == if trackedPending then old(pending) - {id} else old(pending);
      if safe.None? || id > safe.value {
        if id !in completed {
          completed := completed + {id};
          changed := true;
        }
        assert completed == old(completed) + {id};
        var nextHighest := id;
        if highest.Some? && highest.value > id { nextHighest := highest.value; }
        if Some(nextHighest) != highest {
          highest := Some(nextHighest);
          changed := true;
        }
      }
    }

    /** The state file is rewritten exactly when the state changed: the `changed` flags miss nothing. */
    method MarkCompleted(updateId: int, trackedPending: bool) returns (r: Result<OffsetState>)
      requires Snapshot().Valid() && Synced()
      modifies this
      ensures Snapshot().Valid() && Synced()
      ensures updateId < 0 ==> r.Failure? && Snapshot() == old(Snapshot())
      ensures updateId >= 0 ==>
                r == Success(Snapshot()) && Snapshot() == AfterCompletion(old(Snapshot()), updateId, trackedPending)
      ensures Snapshot() == old(Snapshot()) ==> file == old(file)
      ensures Snapshot() != old(Snapshot()) ==> IsImage(file, Snapshot(), me)
    {
      if updateId < 0 { return Failure("ValueError"); }
      var changed := RecordCompletion(updateId, trackedPending);
      var advanced := AdvanceSafeWatermark(trackedPending);
      var pruned := PruneSets();
      AfterCompletionIsValid(old(Snapshot()), updateId, trackedPending);
      AfterCompletionChanges(old(Snapshot()), updateId, trackedPending);
      if changed || advanced || pruned { WriteState(); }
      return Success(Snapshot());
    }

    method ForceCommit(updateId: int) returns (r: Result<OffsetState>)
      requires Snapshot().Valid() && Synced()
      modifies this
      ensures Snapshot().Valid() && Synced()
      ensures updateId < 0 ==> r.Failure? && Snapshot() == old(Snapshot())
      ensures updateId >= 0 ==> r == Success(Snapshot()) && Snapshot() == AfterForceCommit(old(Snapshot()), updateId)
    {
      if updateId < 0 { return Failure("ValueError"); }
      if safe.Some? && updateId <= safe.value { return Success(Snapshot()); }
      safe := Some(updateId);
      highest := Some(updateId);
      completed := completed + {updateId};
      var _ := PruneSets();
      assert completed == Above(old(completed), updateId);
      WriteState();
      return Success(Snapshot());
    }

    method SyncNextOffset(offset: int) returns (r: Result<OffsetState>)
      requires Snapshot().Valid() && Synced()
      modifies this
      ensures Snapshot().Valid() && Synced()
      ensures offset < 0 ==> r.Failure? && Snapshot() == old(Snapshot())
      ensures offset >= 0 ==> r == Success(Snapshot()) && Snapshot() == AfterSync(old(Snapshot()), offset)
    {
      if offset < 0 { return Failure("ValueError"); }
      if offset <= 0 {
        safe, highest, completed, pending := None, None, {}, {};
        WriteState();
        return Success(Snapshot());
      }
      r := ForceCommit(offset - 1);
    }
  }

  lemma AfterCompletionIsValid(st: OffsetState, id: nat, tracked: bool)
    requires st.Valid()
    ensures AfterCompletion(st, id, tracked).Valid()
  {
  }

  /** Neither part of a completion can undo the other, so no change goes unnoticed. */
  lemma AfterCompletionChanges(st: OffsetState, id: nat, tracked: bool)
    requires st.Valid()
    ensures var noted := Recorded(st, id, tracked);
            AfterCompletion(st, id, tracked) == st <==> noted == st && Settled(noted, tracked) == noted
  {
    var noted, final := Recorded(st, id, tracked), AfterCompletion(st, id, tracked);
    if final == st && noted.safe == final.safe {
      assert final.completed <= noted.completed;
      if st.safe.Some? {
        assert noted.completed == final.completed by {
          forall x | x in noted.completed ensures x in final.completed { assert x > st.safe.value; }
        }
        assert noted.pending == final.pending by {
          forall x | x in noted.pending ensures x in final.pending { assert x in st.pending; }
        }
      }
    }
  }

  // ---------- The runtime mirror of the next offset ----------

  class OffsetRuntime {
    const store: OffsetStore
    var nextOffset: nat

    ghost predicate Tracking()
      reads this, store
    {
      nextOffset == store.Snapshot().NextOffset()
    }

    constructor (store: OffsetStore)
      ensures this.store == store && nextOffset == 0
    {
      this.store := store;
      nextOffset := 0;
    }

    method ApplySnapshot(snapshot: OffsetState) returns (next: nat, advanced: bool)
      modifies `nextOffset
      ensures next == nextOffset == snapshot.NextOffset()
      ensures advanced <==> nextOffset > old(nextOffset)
    {
      next := snapshot.NextOffset();
      advanced := next > nextOffset;
      nextOffset := next;
    }

    method Load() returns (r: Result<nat>)
      modifies this, store
      ensures r.Success? <==> ReadState(store.file, store.me).Success?
      ensures r.Success? ==> Tracking() && r.value == nextOffset && store.Synced()
      ensures store.file == old(store.file)
    {
      var snapshot := store.RefreshFromDisk();
      if snapshot.Failure? { return Failure(snapshot.error); }
      var next, _ := ApplySnapshot(snapshot.value);
      return Success(next);
    }

    method Begin(updateId: int) returns (r: Result<bool>)
      requires store.Snapshot().Valid() && store.Synced() && Tracking()
      modifies this, store
      ensures store.Snapshot().Valid() && store.Synced() && Tracking()
      ensures updateId >= 0 ==> store.Snapshot() == AfterBegin(old(store.Snapshot()), updateId)
      ensures updateId < 0 ==> store.Snapshot() == old(store.Snapshot())
      ensures r.Success? <==> updateId >= 0
      ensures r.Success? ==> !r.value
    {
      var snapshot := store.Begin(updateId);
      if snapshot.Failure? { return Failure(snapshot.error); }
      var _, advanced := ApplySnapshot(snapshot.value);
      return Success(advanced);
    }

    method Complete(updateId: int, trackedPending: bool) returns (r: Result<bool>)
      requires store.Snapshot().Valid() && store.Synced() && Tracking()
      modifies this, store
      ensures store.Snapshot().Valid() && store.Synced() && Tracking()
      ensures updateId >= 0 ==> store.Snapshot() == AfterCompletion(old(store.Snapshot()), updateId, trackedPending)
      ensures updateId < 0 ==> store.Snapshot() == old(store.Snapshot())
      ensures r.Success? <==> updateId >= 0
      ensures r.Success? ==> (r.value <==> store.Snapshot().safe != old(store.Snapshot().safe))
    {
      var snapshot := store.MarkCompleted(updateId, trackedPending);
      if snapshot.Failure? { return Failure(snapshot.error); }
      var _, advanced := ApplySnapshot(snapshot.value);
      return Success(advanced);
    }

    method ForceCommit(updateId: int) returns (r: Result<bool>)
      requires store.Snapshot().Valid() && store.Synced() && Tracking()
      modifies this, store
      ensures store.Snapshot().Valid() && store.Synced() && Tracking()
      ensures updateId >= 0 ==> store.Snapshot() == AfterForceCommit(old(store.Snapshot()), updateId)
      ensures updateId < 0 ==> store.Snapshot() == old(store.Snapshot())
      ensures r.Success? <==> updateId >= 0
      ensures r.Success? ==> nextOffset >= old(nextOffset)
    {
      var snapshot := store.ForceCommit(updateId);
      if snapshot.Failure? { return Failure(snapshot.error); }
      var _, advanced := ApplySnapshot(snapshot.value);
      return Success(advanced);
    }

    method SyncNextOffset(offset: int) returns (r: Result<bool>)
      requires store.Snapshot().Valid() && store.Synced() && Tracking()
      modifies this, store
      ensures store.Snapshot().Valid() && store.Synced() && Tracking()
      ensures offset >= 0 ==> store.Snapshot() == AfterSync(old(store.Snapshot()), offset)
      ensures offset < 0 ==> store.Snapshot() == old(store.Snapshot())
      ensures r.Success? <==> offset >= 0
      ensures r.Success? && offset > 0 ==> nextOffset == if offset > old(nextOffset) then offset else old(nextOffset)
    {
      var snapshot := store.SyncNextOffset(offset);
      if snapshot.Failure? { return Failure(snapshot.error); }
      var _, advanced := ApplySnapshot(snapshot.value);
      return Success(advanced);
    }
  }

  // ---------- When a webhook delivery is tracked ----------

  predicate ShouldBeginWebhookTracking(st: OffsetState, id: nat) {
    id == st.NextOffset() || id in st.pending
  }

  /** Every webhook completion is recorded; it may set the first baseline only when it is tracked. */
  predicate WebhookCompletionTracked(st: OffsetState, id: nat) {
    id in st.pending || id == st.NextOffset()
  }
}
