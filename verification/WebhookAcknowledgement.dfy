/**
 Which updates are handled, which are acknowledged, and that every handled one is: the other half of the webhook and
 poll protocol, whose safety alone a tracker that never moves would satisfy.
 */
module WebhookAcknowledgement {
  import opened Wrappers
  import opened PyStrings
  import Dedupe = TelegramDedupe
  import Runs = TelegramOffsetRuns
  import opened WebhookProtocol

  /** The step ends the handling of the update, or meets it at or above the next offset when its key is already known. */
  ghost predicate Acknowledges(w: World, op: Op, after: World, x: nat) {
    match op
    case Finish(worker) => worker in w.workers && w.workers[worker].delivery.updateId == Some(x)
    case PollOk => w.polling.Some? && w.polling.value.updateId == Some(x)
    case Deliver(_, d, _, _) => d.updateId == Some(x) && x >= w.track.nextOffset && UpdateKey(x) in after.order
    case PollDeliver(d) => d.updateId == Some(x) && x >= w.track.nextOffset && UpdateKey(x) in w.order
    case _ => false
  }

  /** The tracker has taken the update in. */
  ghost predicate Settled(w: World, x: nat) {
    && x in w.track.done && x !in w.track.store.pending
    && (x < w.track.nextOffset || x in w.track.store.completed)
  }

  lemma CompletionSettles(w: World, x: nat, tracked: bool, after: World, env: Env)
    requires Runs.Inv(w.track, env.me) && Tracks(w, Runs.Complete(x, tracked), after, env)
    requires x in w.track.store.pending ==> tracked
    ensures Settled(after, x) && after.track.done == w.track.done + {x}
  {
  }

  /** The update a step completes in the tracker, if any. */
  ghost function Completed(w: World, op: Op, after: World): Option<nat> {
    match op
    case Finish(worker) => if worker in w.workers then w.workers[worker].delivery.updateId else None
    case PollOk => if w.polling.Some? then w.polling.value.updateId else None
    case Deliver(_, d, _, _) =>
      if d.updateId.Some? && d.updateId.value >= w.track.nextOffset && UpdateKey(d.updateId.value) in after.order then d.updateId else None
    case PollDeliver(d) =>
      if d.updateId.Some? && d.updateId.value >= w.track.nextOffset && UpdateKey(d.updateId.value) in w.order then d.updateId else None
    case _ => None
  }

  lemma CompletesSettles(w: World, d: Delivery, after: World, env: Env)
    requires Runs.Inv(w.track, env.me) && WebhookCompletes(w, d, after, env)
    ensures d.updateId.Some? ==> Settled(after, d.updateId.value) && after.track.done == w.track.done + {d.updateId.value}
    ensures d.updateId.None? ==> after.track == w.track
  {
    if d.updateId.Some? {
      var x := d.updateId.value;
      CompletionSettles(w, x, Runs.TelegramOffsets.WebhookCompletionTracked(w.track.store, x), after, env);
    }
  }

  lemma DeliverSettles(w: World, op: Op, after: World, env: Env)
    requires Inv(w, env) && op.Deliver? && Step(w, op, after, env)
    ensures var x := Completed(w, op, after);
            if x.Some? then Settled(after, x.value) && after.track.done == w.track.done + {x.value} else after.track.done == w.track.done
  {
    var f := Filtered(w, Dedupe.Refresh(op.fromFile), env);
    assert after.order == f.order;
    if !Stale(f, op.delivery) && Duplicate(f, op.delivery) { CompletesSettles(f, op.delivery, after, env); }
  }

  lemma PollSettles(w: World, op: Op, after: World, env: Env)
    requires Inv(w, env) && (op.PollDeliver? || op.PollOk?) && Step(w, op, after, env)
    ensures var x := Completed(w, op, after);
            if x.Some? then Settled(after, x.value) && after.track.done == w.track.done + {x.value} else after.track.done == w.track.done
  {
    var x := Completed(w, op, after);
    if x.Some? {
      if op.PollDeliver? {
        CompletionSettles(w, x.value, x.value in w.track.store.pending, after, env);
      } else {
        CompletionSettles(Filtered(w, Dedupe.Commit(w.polling.value.Key()), env).(polling := None), x.value, true, after, env);
      }
    }
  }

  lemma StepSettles(w: World, op: Op, after: World, env: Env)
    requires Inv(w, env) && Step(w, op, after, env)
    ensures var x := Completed(w, op, after);
            if x.Some? then Settled(after, x.value) && after.track.done == w.track.done + {x.value} else after.track.done == w.track.done
  {
    match op
    case Deliver(_, _, _, _) => DeliverSettles(w, op, after, env);
    case PollDeliver(_) => PollSettles(w, op, after, env);
    case PollOk => PollSettles(w, op, after, env);
    case Finish(worker) => CompletesSettles(Released(w, worker), w.workers[worker].delivery, after, env);
    case _ =>
  }

  /**
   In every run, an update is acknowledged by exactly the steps that end its successful handling or meet it again as a
   known one: it is then done, no longer pending, and below the next offset or kept as completed.
   */
  lemma AcknowledgedIsDone(ws: seq<World>, ops: seq<Op>, env: Env, n: nat, x: nat)
    requires IsRun(ws, ops, env) && n < |ops|
    ensures Acknowledges(ws[n], ops[n], ws[n + 1], x) ==>
              && x in ws[n + 1].track.done && x !in ws[n + 1].track.store.pending
              && (x < ws[n + 1].track.nextOffset || x in ws[n + 1].track.store.completed)
    ensures x in ws[n + 1].track.done <==> x in ws[n].track.done || Acknowledges(ws[n], ops[n], ws[n + 1], x)
  {
    RunsKeepInv(ws, ops, env, n);
    assert StepAt(ws, ops, env, n);
    StepSettles(ws[n], ops[n], ws[n + 1], env);
  }

  /** While there is no offset yet, a webhook sets one exactly when its update is pending or number 0. */
  lemma WebhookSetsBaselineIff(ws: seq<World>, ops: seq<Op>, env: Env, n: nat, x: nat)
    requires IsRun(ws, ops, env) && n < |ops| && (ops[n].Finish? || ops[n].Deliver?)
    requires Acknowledges(ws[n], ops[n], ws[n + 1], x) && ws[n].track.nextOffset == 0
    ensures ws[n + 1].track.nextOffset > 0 <==> x in ws[n].track.store.pending || x == 0
  {
    RunsKeepInv(ws, ops, env, n);
    assert StepAt(ws, ops, env, n);
    assert ws[n + 1].track.nextOffset == ws[n + 1].track.store.NextOffset();
  }

  // ---------- What is handled ----------

  /** In every run, a webhook delivery is handled exactly if it parses, is not below the next offset, and its key is neither known nor in flight. */
  lemma DeliveredIsHandledIff(ws: seq<World>, ops: seq<Op>, env: Env, n: nat)
    requires IsRun(ws, ops, env) && n < |ops| && ops[n].Deliver?
    ensures var w, after, op, d := ws[n], ws[n + 1], ops[n], ops[n].delivery;
            op.worker in after.workers <==>
            && op.parses && !(d.updateId.Some? && d.updateId.value < w.track.nextOffset)
            && (d.Key() == "" || (d.Key() !in after.order && d.Key() !in w.inflight))
  {
    RunsKeepInv(ws, ops, env, n);
    assert StepAt(ws, ops, env, n);
  }

  /** And a polled one exactly if it is not below the next offset and its key is not known. */
  lemma PolledIsHandledIff(ws: seq<World>, ops: seq<Op>, env: Env, n: nat)
    requires IsRun(ws, ops, env) && n < |ops| && ops[n].PollDeliver?
    ensures var w, after, d := ws[n], ws[n + 1], ops[n].delivery;
            after.polling == Some(d) <==>
              !(d.updateId.Some? && d.updateId.value < w.track.nextOffset) && (d.Key() == "" || d.Key() !in w.order)
  {
    RunsKeepInv(ws, ops, env, n);
    assert StepAt(ws, ops, env, n);
  }

  /** The step starts the handling of the update. */
  ghost predicate Starts(op: Op, after: World, x: nat) {
    match op
    case Deliver(worker, d, _, _) => worker in after.workers && d.updateId == Some(x)
    case PollDeliver(d) => after.polling == Some(d) && d.updateId == Some(x)
    case _ => false
  }

  /** An update that starts to be handled is pending, except one that came by webhook out of turn. */
  lemma StartedIsPendingIff(ws: seq<World>, ops: seq<Op>, env: Env, n: nat, x: nat)
    requires IsRun(ws, ops, env) && n < |ops| && Starts(ops[n], ws[n + 1], x)
    ensures x in ws[n + 1].track.store.pending
            <==> ops[n].PollDeliver? || x == ws[n].track.nextOffset || x in ws[n].track.store.pending
    ensures x in ws[n + 1].track.store.pending ==> x in ws[n + 1].track.begun || x in ws[n].track.store.pending
  {
    RunsKeepInv(ws, ops, env, n);
    assert StepAt(ws, ops, env, n);
  }

  /** Until it is acknowledged, an update once begun above the last explicit baseline is pending, and the poll loop asks for it again. */
  lemma UnacknowledgedIsAskedAgain(ws: seq<World>, ops: seq<Op>, env: Env, n: nat, x: nat)
    requires IsRun(ws, ops, env) && n < |ws| && x in ws[n].track.begun && x !in ws[n].track.done
    requires ws[n].track.baseline.Some? ==> x > ws[n].track.baseline.value
    ensures x in ws[n].track.store.pending && ws[n].track.nextOffset <= x
  {
    RunsKeepInv(ws, ops, env, n);
    assert Runs.Covered(ws[n].track, x);
  }

  /** However a handling ends, the handler is free again, and a webhook's key no longer in flight. */
  lemma EndFreesHandler(ws: seq<World>, ops: seq<Op>, env: Env, n: nat)
    requires IsRun(ws, ops, env) && n < |ops|
    ensures (ops[n].Finish? || ops[n].Abort?) && ops[n].worker in ws[n].workers ==>
              ops[n].worker !in ws[n + 1].workers && ws[n].workers[ops[n].worker].delivery.Key() !in ws[n + 1].inflight
    ensures ops[n].PollOk? || ops[n].PollFail? ==> ws[n + 1].polling == None
    ensures ops[n].PollFail? || ops[n].Abort? ==> ws[n + 1].track == ws[n].track && ws[n + 1].order == ws[n].order
  {
    assert StepAt(ws, ops, env, n);
  }

  // ---------- What is known afterwards ----------

  lemma CommittedIsKnown(order: seq<string>, limit: nat, key: string)
    requires limit >= 1 && Strip(key) != ""
    ensures Strip(key) in Dedupe.AfterCommit(order, limit, key)
  {
    if Strip(key) !in order {
      var longer := order + [Strip(key)];
      assert Dedupe.LastN(longer, limit)[|Dedupe.LastN(longer, limit)| - 1] == Strip(key);
    }
  }

  /** A successful handling leaves its key in the filter; a webhook's is in the saved file at once. */
  lemma HandledIsKnown(ws: seq<World>, ops: seq<Op>, env: Env, n: nat, d: Delivery)
    requires IsRun(ws, ops, env) && n < |ops| && d.Key() != ""
    requires (ops[n].HandledOk? && ops[n].worker in ws[n].workers && ws[n].workers[ops[n].worker].delivery == d)
             || (ops[n].PollOk? && ws[n].polling == Some(d))
    ensures d.Key() in ws[n + 1].order && (ops[n].HandledOk? ==> d.Key() in ws[n + 1].saved)
  {
    assert StepAt(ws, ops, env, n);
    CommittedIsKnown(ws[n].order, env.limit, d.Key());
    assert Stripped(d.Key());
  }
}
