/**
 The offset store told by its calls alone: which ids are kept as completed and as pending, what the highest id is, and
 where every call leaves the next offset, in every run and over restarts.
 */
module TelegramOffsetHistory {
  import opened Wrappers
  import opened TelegramOffsets
  import opened TelegramOffsetRuns

  /** The ids marked completed since the last reset, and those begun since then and not completed as tracked after that. */
  datatype Noted = Noted(marked: set<nat>, open: set<nat>)

  function Note(seen: Noted, op: Op): Noted {
    match op
    case Begin(id) => if id < 0 then seen else seen.(open := seen.open + {id as nat})
    case Complete(id, tracked) =>
      if id < 0 then seen
      else Noted(seen.marked + {id as nat}, if tracked then seen.open - {id as nat} else seen.open)
    case SyncNextOffset(offset) => if offset == 0 then Noted({}, {}) else seen
    case _ => seen
  }

  function Seen(ops: seq<Op>): Noted {
    if ops == [] then Noted({}, {}) else Note(Seen(ops[..|ops| - 1]), ops[|ops| - 1])
  }

  /** The store keeps exactly the ids at or above the next offset. */
  ghost predicate Keeps(st: OffsetState, seen: Noted) {
    && (forall x :: x in st.completed <==> x in seen.marked && x >= st.NextOffset())
    && (forall x :: x in st.pending <==> x in seen.open && x >= st.NextOffset())
  }

  lemma CompleteKeeps(st: OffsetState, seen: Noted, id: nat, tracked: bool)
    requires st.Valid() && Keeps(st, seen)
    ensures Keeps(AfterCompletion(st, id, tracked), Note(seen, Complete(id, tracked)))
  {
    var noted := Recorded(st, id, tracked);
    var after := AfterCompletion(st, id, tracked);
    assert st.NextOffset() <= after.NextOffset();
  }

  lemma StepKeeps(before: World, op: Op, after: World, seen: Noted, me: Identity)
    requires TelegramOffsetRuns.Inv(before, me) && Step(before, op, after, me) && Keeps(before.store, seen)
    ensures Keeps(after.store, Note(seen, op))
  {
    if op.Complete? && op.id >= 0 { CompleteKeeps(before.store, seen, op.id, op.tracked); }
  }

  /**
   In every reachable state the completed ids are exactly those marked since the last reset, and the pending ids
   exactly those begun and left open, that are not below the next offset: whatever order they came in, and whatever
   was forced in between.
   */
  lemma {:induction false} NothingElseIsForgotten(ws: seq<World>, ops: seq<Op>, me: Identity, n: nat)
    requires IsRun(ws, ops, me) && n < |ws|
    ensures var st, seen := ws[n].store, Seen(ops[..n]);
            && st.completed == (set x | x in seen.marked && x >= ws[n].nextOffset)
            && st.pending == (set x | x in seen.open && x >= ws[n].nextOffset)
  {
    RunsKeepInv(ws, ops, me);
    if n > 0 {
      NothingElseIsForgotten(ws, ops, me, n - 1);
      assert ops[..n][..n - 1] == ops[..n - 1];
      assert TelegramOffsetRuns.Inv(ws[n - 1], me) && TelegramOffsetRuns.Inv(ws[n], me);
      StepKeeps(ws[n - 1], ops[n - 1], ws[n], Seen(ops[..n - 1]), me);
    }
  }

  // ---------- The next offset ----------

  function Max(a: nat, b: nat): nat {
    if a < b then b else a
  }

  lemma CompletionMoves(st: OffsetState, id: nat, tracked: bool, seen: Noted)
    requires st.Valid() && Keeps(st, seen)
    ensures var next, next' := st.NextOffset(), AfterCompletion(st, id, tracked).NextOffset();
            var marked := seen.marked + {id};
            if next > 0 then next <= next' && next' !in marked && forall x :: next <= x < next' ==> x in marked
            else next' == if tracked then MaxOf(marked) + 1 else 0
  {
    var noted := Recorded(st, id, tracked);
    if st.safe.Some? {
      var end := RunEnd(st.safe.value, noted.completed);
      assert end + 1 in seen.marked + {id} ==> end + 1 in noted.completed;
      forall x: nat | st.NextOffset() <= x <= end ensures x in seen.marked + {id} { assert x in noted.completed; }
    } else {
      assert noted.completed == seen.marked + {id};
      RunEndIsUnique(MaxOf(noted.completed), noted.completed, MaxOf(noted.completed));
    }
  }

  /**
   Where each call leaves the next offset. A completion moves it over the ids marked by then and stops at the first one
   that is not; the first tracked one, when there is no offset yet, jumps behind all marked ids.
   */
  lemma NextOffsetMoves(ws: seq<World>, ops: seq<Op>, me: Identity, n: nat)
    requires IsRun(ws, ops, me) && n < |ops|
    ensures var next, next', marked := ws[n].nextOffset, ws[n + 1].nextOffset, Seen(ops[..n + 1]).marked;
            match ops[n]
            case Complete(id, tracked) =>
              if id < 0 then next' == next
              else if next > 0 then next <= next' && next' !in marked && forall x :: next <= x < next' ==> x in marked
              else next' == if tracked then MaxOf(marked) + 1 else 0
            case ForceCommit(id) => next' == if id < 0 then next else Max(next, id + 1)
            case SyncNextOffset(offset) => next' == if offset < 0 then next else if offset == 0 then 0 else Max(next, offset)
            case _ => next' == next
  {
    RunsKeepInv(ws, ops, me);
    assert TelegramOffsetRuns.Inv(ws[n], me) && TelegramOffsetRuns.Inv(ws[n + 1], me);
    NothingElseIsForgotten(ws, ops, me, n);
    assert ops[..n + 1][..n] == ops[..n];
    if ops[n].Complete? && ops[n].id >= 0 {
      CompletionMoves(ws[n].store, ops[n].id, ops[n].tracked, Seen(ops[..n]));
    }
  }

  // ---------- The highest id ----------

  /** Whether the call forces the watermark up. */
  predicate Forces(before: World, op: Op) {
    match op
    case ForceCommit(id) => id >= before.nextOffset
    case SyncNextOffset(offset) => offset > before.nextOffset
    case _ => false
  }

  /** The ids completed since the last reset or forced commit, and the one forced then. */
  function Heights(ws: seq<World>, ops: seq<Op>, n: nat): set<nat>
    requires n < |ws| == |ops| + 1
  {
    if n == 0 then {}
    else
      var heights := Heights(ws, ops, n - 1);
      match ops[n - 1]
      case Complete(id, _) => if id < 0 then heights else heights + {id as nat}
      case ForceCommit(id) => if Forces(ws[n - 1], ops[n - 1]) then {id as nat} else heights
      case SyncNextOffset(offset) =>
        if offset == 0 then {} else if Forces(ws[n - 1], ops[n - 1]) then {(offset - 1) as nat} else heights
      case _ => heights
  }

  ghost predicate Tops(st: OffsetState, heights: set<nat>) {
    && (heights == {} <==> st.highest.None?)
    && (heights != {} ==> st.highest == Some(if st.safe.Some? then Max(MaxOf(heights), st.safe.value) else MaxOf(heights)))
  }

  lemma MaxOfMore(heights: set<nat>, id: nat)
    ensures MaxOf(heights + {id}) == if heights == {} then id else Max(MaxOf(heights), id)
  {
    assert heights == {} ==> heights + {id} == {id};
    var m := MaxOf(heights + {id});
    assert m in heights || m == id;
  }

  lemma CompleteTops(st: OffsetState, heights: set<nat>, id: nat, tracked: bool)
    requires st.Valid() && Tops(st, heights)
    ensures Tops(AfterCompletion(st, id, tracked), heights + {id})
  {
    MaxOfMore(heights, id);
  }

  /** The highest id is the watermark or the largest id completed since the last forced commit, whichever is larger. */
  lemma {:induction false} HighestIs(ws: seq<World>, ops: seq<Op>, me: Identity, n: nat)
    requires IsRun(ws, ops, me) && n < |ws|
    ensures Tops(ws[n].store, Heights(ws, ops, n))
  {
    RunsKeepInv(ws, ops, me);
    if n > 0 {
      HighestIs(ws, ops, me, n - 1);
      assert TelegramOffsetRuns.Inv(ws[n - 1], me) && TelegramOffsetRuns.Inv(ws[n], me);
      var op := ops[n - 1];
      if op.Complete? && op.id >= 0 { CompleteTops(ws[n - 1].store, Heights(ws, ops, n - 1), op.id, op.tracked); }
    }
  }

  // ---------- Other files ----------

  /** A file of the oldest forms gives back the next offset it holds, and nothing else. */
  lemma LegacyFileKeepsOffset(offset: int, me: Identity)
    ensures var r := ReadState(LegacyInteger(offset), me);
            r.Success? && r.value.NextOffset() == (if offset < 0 then 0 else offset) && r.value.completed == r.value.pending == {}
    ensures var r := ReadState(LegacyObject(offset), me);
            if offset < 0 then r.Failure?
            else r.Success? && r.value.NextOffset() == offset && r.value.completed == r.value.pending == {}
  {
  }

  /** What one bot wrote another one reads only if their ids agree, or, for a reader without an id, their tokens; a blank one agrees with all. */
  lemma ForeignFileIsIgnoredIff(p: Payload, st: OffsetState, writer: Identity, reader: Identity)
    requires st.Valid() && st != EMPTY_STATE && IsImage(p, st, writer)
    ensures ReadState(p, reader) ==
            if (if reader.botId != "" then writer.botId in ["", reader.botId]
                else writer.tokenFingerprint in ["", reader.tokenFingerprint])
            then Success(st) else Success(EMPTY_STATE)
  {
    ReadUndoesWrite(p, st, writer);
    assert ReadState(p, writer) == Success(st);
  }
}
