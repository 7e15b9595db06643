/**
 Concurrent webhook deliveries and the polling loop over one shared offset tracker, one duplicate
 filter and one in-flight set. Each step is a stretch of code between two suspension points; a
 webhook delivery is a worker that is handling its update or saving the duplicate filter.
 */
module WebhookProtocol {
  import opened Wrappers
  import opened PyStrings
  import opened Sequences
  import Offsets = TelegramOffsets
  import Runs = TelegramOffsetRuns
  import Dedupe = TelegramDedupe

  /** An update is known by its id, or by another key (a query id, a message id) when it has none. */
  datatype Delivery = Delivery(updateId: Option<nat>, otherKey: string) {
    function Key(): string {
      if updateId.Some? then UpdateKey(updateId.value) else Strip(otherKey)
    }
  }

  function UpdateKey(id: nat): (key: string)
    ensures Stripped(key) && key != ""
  {
    "update:" + Decimal(id)
  }

  datatype Phase = Handling | Saving
  datatype Worker = Worker(delivery: Delivery, phase: Phase)

  datatype Env = Env(limit: nat, me: Offsets.Identity)

  /** `handled` and `log` are history: every key handled somewhere, and the filter's since its last load. */
  datatype World = World(
    track: Runs.World,
    order: seq<string>,
    saved: seq<string>,
    inflight: set<string>,
    workers: map<nat, Worker>,
    polling: Option<Delivery>,
    log: seq<string>,
    handled: set<string>)

  datatype Op =
    | Deliver(worker: nat, delivery: Delivery, fromFile: seq<string>, parses: bool)
    | HandledOk(worker: nat)
    | Finish(worker: nat)
    | Abort(worker: nat)
    | PollDeliver(delivery: Delivery)
    | PollOk
    | PollFail
    | SaveFilter
    | OperatorForceCommit(id: nat)
    | OperatorSync(offset: nat)
    | Restart

  // ---------- Pieces of a step ----------

  /** The duplicate filter after an operation, with its history. */
  function Filtered(w: World, op: Dedupe.Op, env: Env): World {
    var added := Dedupe.Added(w.order, op);
    w.(order := Dedupe.OrderAfter(w.order, env.limit, op), log := w.log + added, handled := w.handled + Dedupe.Elements(added))
  }

  /** `after` differs from `w` in the offset tracker only, which took the step `op`. */
  ghost predicate Tracks(w: World, op: Runs.Op, after: World, env: Env) {
    after == w.(track := after.track) && Runs.Step(w.track, op, after.track, env.me)
  }

  /** A webhook completion is always recorded; it counts as tracked when pending or next in line. */
  ghost predicate WebhookCompletes(w: World, d: Delivery, after: World, env: Env) {
    if d.updateId.None? then after == w
    else Tracks(w, Runs.Complete(d.updateId.value, Offsets.WebhookCompletionTracked(w.track.store, d.updateId.value)), after, env)
  }

  function Released(w: World, worker: nat): World
    requires worker in w.workers
  {
    w.(inflight := w.inflight - {w.workers[worker].delivery.Key()}, workers := w.workers - {worker})
  }

  /** The tests a delivery must pass to be handled, in the order the handler makes them. */
  predicate Stale(w: World, d: Delivery) {
    d.updateId.Some? && w.track.store.SafeCommitted(d.updateId.value)
  }

  predicate Duplicate(w: World, d: Delivery) {
    d.Key() != "" && d.Key() in w.order
  }

  predicate InFlight(w: World, d: Delivery) {
    d.Key() != "" && d.Key() in w.inflight
  }

  ghost predicate DeliverStep(w0: World, op: Op, after: World, env: Env)
    requires op.Deliver?
  {
    var w, d := Filtered(w0, Dedupe.Refresh(op.fromFile), env), op.delivery;
    && op.worker !in w0.workers
    && (if Stale(w, d) then after == w
        else if Duplicate(w, d) then WebhookCompletes(w, d, after, env)
        else if InFlight(w, d) || !op.parses then after == w
        else
          var started := w.(inflight := w.inflight + (if d.Key() == "" then {} else {d.Key()}),
                            workers := w.workers[op.worker := Worker(d, Handling)]);
          if d.updateId.Some? && Offsets.ShouldBeginWebhookTracking(w.track.store, d.updateId.value)
          then Tracks(started, Runs.Begin(d.updateId.value), after, env)
          else after == started)
  }

  ghost predicate PollDeliverStep(w: World, d: Delivery, after: World, env: Env) {
    && w.polling.None?
    && (if Stale(w, d) then after == w
        else if Duplicate(w, d) then
          if d.updateId.None? then after == w
          else Tracks(w, Runs.Complete(d.updateId.value, d.updateId.value in w.track.store.pending), after, env)
        else
          var started := w.(polling := Some(d));
          if d.updateId.Some? then Tracks(started, Runs.Begin(d.updateId.value), after, env) else after == started)
  }

  ghost predicate Step(w: World, op: Op, after: World, env: Env) {
    match op
    case Deliver(_, _, _, _) => DeliverStep(w, op, after, env)
    case HandledOk(worker) =>
      && worker in w.workers && w.workers[worker].phase == Handling
      && var d := w.workers[worker].delivery;
         var committed := Filtered(w, Dedupe.Commit(d.Key()), env);
         after == committed.(saved := if d.Key() == "" then w.saved else committed.order,
                             workers := w.workers[worker := Worker(d, Saving)])
    case Finish(worker) =>
      && worker in w.workers && w.workers[worker].phase == Saving
      && WebhookCompletes(Released(w, worker), w.workers[worker].delivery, after, env)
    case Abort(worker) => worker in w.workers && after == Released(w, worker)
    case PollDeliver(d) => PollDeliverStep(w, d, after, env)
    case PollOk =>
      && w.polling.Some?
      && var d := w.polling.value;
         var committed := Filtered(w, Dedupe.Commit(d.Key()), env).(polling := None);
         if d.updateId.None? then after == committed
         else Tracks(committed, Runs.Complete(d.updateId.value, true), after, env)
    case PollFail => w.polling.Some? && after == w.(polling := None)
    case SaveFilter => after == w.(saved := w.order)
    case OperatorForceCommit(id) => Tracks(w, Runs.ForceCommit(id), after, env)
    case OperatorSync(offset) => Tracks(w, Runs.SyncNextOffset(offset), after, env)
    case Restart =>
      && Runs.Step(w.track, Runs.Restart, after.track, env.me)
      && var loaded := Dedupe.LastN(Dedupe.MergeKeys([], Dedupe.Normalized(w.saved)), env.limit);
         after == World(after.track, loaded, w.saved, {}, map[], None, loaded, w.handled + Dedupe.Elements(loaded))
  }

  // ---------- The invariant ----------

  ghost predicate InflightMatchesWorkers(w: World) {
    && (forall i :: i in w.workers && w.workers[i].delivery.Key() != "" ==> w.workers[i].delivery.Key() in w.inflight)
    && (forall k :: k in w.inflight ==> exists i :: i in w.workers && w.workers[i].delivery.Key() == k)
  }

  ghost predicate OneWorkerPerKey(w: World) {
    forall i, j :: i in w.workers && j in w.workers && i != j && w.workers[i].delivery.Key() != "" ==>
                     w.workers[i].delivery.Key() != w.workers[j].delivery.Key()
  }

  /** Whatever the filter or a saving worker knows, and whatever the tracker calls done, was handled. */
  ghost predicate OnlyHandled(w: World) {
    && Dedupe.Elements(w.order) <= w.handled
    && (forall i :: i in w.workers && w.workers[i].phase == Saving && w.workers[i].delivery.Key() != "" ==>
                      w.workers[i].delivery.Key() in w.handled)
    && (forall id :: id in w.track.done ==> UpdateKey(id) in w.handled)
  }

  ghost predicate Inv(w: World, env: Env) {
    && Runs.Inv(w.track, env.me)
    && Dedupe.Remembers(w.order, w.log, env.limit)
    && InflightMatchesWorkers(w)
    && OneWorkerPerKey(w)
    && OnlyHandled(w)
  }

  lemma FilteredKeepsInv(w: World, op: Dedupe.Op, env: Env)
    requires Inv(w, env)
    ensures var f := Filtered(w, op, env);
            Inv(f, env) && (op.Commit? && Strip(op.key) != "" ==> Strip(op.key) in f.handled)
  {
    Dedupe.OpKeepsHistory(w.order, w.log, env.limit, op);
    var f := Filtered(w, op, env);
    FilterLearnsOnlyAdded(w.order, env.limit, op);
    assert Dedupe.Elements(f.order) <= f.handled;
    if op.Commit? && Strip(op.key) != "" {
      var key := Strip(op.key);
      assert key in w.order ==> key in Dedupe.Elements(w.order);
      assert key !in w.order ==> key in Dedupe.Added(w.order, op);
    }
  }

  lemma FilterLearnsOnlyAdded(order: seq<string>, limit: nat, op: Dedupe.Op)
    ensures forall k :: k in Dedupe.OrderAfter(order, limit, op) ==> k in order || k in Dedupe.Added(order, op)
  {
    if op.Refresh? {
      var merged := Dedupe.MergeKeys(order, op.keys);
      assert merged == order + merged[|order|..];
    }
  }

  lemma TracksKeepsInv(w: World, op: Runs.Op, after: World, env: Env)
    requires Inv(w, env) && Tracks(w, op, after, env)
    requires op.Complete? ==> op.id >= 0 && UpdateKey(op.id) in w.handled
    ensures Inv(after, env)
  {
    Runs.StepKeepsInv(w.track, op, after.track, env.me);
  }

  lemma CompletesKeepsInv(w: World, d: Delivery, after: World, env: Env)
    requires Inv(w, env) && WebhookCompletes(w, d, after, env)
    requires d.Key() != "" ==> d.Key() in w.handled
    ensures Inv(after, env)
  {
    if d.updateId.Some? {
      TracksKeepsInv(w, Runs.Complete(d.updateId.value, Offsets.WebhookCompletionTracked(w.track.store, d.updateId.value)), after, env);
    }
  }

  lemma ReleasedKeepsInv(w: World, worker: nat, env: Env)
    requires Inv(w, env) && worker in w.workers
    ensures Inv(Released(w, worker), env)
  {
    var r := Released(w, worker);
    forall k | k in r.inflight ensures exists i :: i in r.workers && r.workers[i].delivery.Key() == k {
      var i :| i in w.workers && w.workers[i].delivery.Key() == k;
      assert i in r.workers;
    }
  }

  lemma StartedKeepsInv(w: World, worker: nat, d: Delivery, env: Env)
    requires Inv(w, env) && worker !in w.workers && !InFlight(w, d)
    ensures Inv(w.(inflight := w.inflight + (if d.Key() == "" then {} else {d.Key()}),
                   workers := w.workers[worker := Worker(d, Handling)]), env)
  {
    var s := w.(inflight := w.inflight + (if d.Key() == "" then {} else {d.Key()}),
                workers := w.workers[worker := Worker(d, Handling)]);
    forall k | k in s.inflight ensures exists i :: i in s.workers && s.workers[i].delivery.Key() == k {
      if k in w.inflight {
        var i :| i in w.workers && w.workers[i].delivery.Key() == k;
        assert s.workers[i] == w.workers[i];
      } else {
        assert s.workers[worker].delivery.Key() == k;
      }
    }
  }

  lemma DeliverKeepsInv(w0: World, op: Op, after: World, env: Env)
    requires op.Deliver? && Inv(w0, env) && DeliverStep(w0, op, after, env)
    ensures Inv(after, env)
  {
    var w, d := Filtered(w0, Dedupe.Refresh(op.fromFile), env), op.delivery;
    FilteredKeepsInv(w0, Dedupe.Refresh(op.fromFile), env);
    if Stale(w, d) {
    } else if Duplicate(w, d) {
      assert d.Key() in Dedupe.Elements(w.order);
      CompletesKeepsInv(w, d, after, env);
    } else if !InFlight(w, d) && op.parses {
      StartedKeepsInv(w, op.worker, d, env);
      var started := w.(inflight := w.inflight + (if d.Key() == "" then {} else {d.Key()}),
                        workers := w.workers[op.worker := Worker(d, Handling)]);
      if after != started {
        TracksKeepsInv(started, Runs.Begin(d.updateId.value), after, env);
      }
    }
  }

  /** A worker that moves on to saving still holds its key. */
  lemma SavingKeepsWorkers(w: World, worker: nat, after: World)
    requires worker in w.workers && InflightMatchesWorkers(w) && OneWorkerPerKey(w)
    requires after.inflight == w.inflight && after.workers == w.workers[worker := Worker(w.workers[worker].delivery, Saving)]
    ensures InflightMatchesWorkers(after) && OneWorkerPerKey(after)
  {
    assert forall i :: i in after.workers <==> i in w.workers;
    assert forall i :: i in after.workers ==> after.workers[i].delivery == w.workers[i].delivery;
    forall k | k in after.inflight ensures exists i :: i in after.workers && after.workers[i].delivery.Key() == k {
      var i :| i in w.workers && w.workers[i].delivery.Key() == k;
      assert after.workers[i].delivery == w.workers[i].delivery;
    }
  }

  lemma HandledOkKeepsInv(w: World, worker: nat, after: World, env: Env)
    requires Inv(w, env) && Step(w, HandledOk(worker), after, env)
    ensures Inv(after, env)
  {
    var committed := Filtered(w, Dedupe.Commit(w.workers[worker].delivery.Key()), env);
    FilteredKeepsInv(w, Dedupe.Commit(w.workers[worker].delivery.Key()), env);
    SavingKeepsWorkers(committed, worker, after);
  }

  lemma PollKeepsInv(w: World, op: Op, after: World, env: Env)
    requires (op.PollDeliver? || op.PollOk?) && Inv(w, env) && Step(w, op, after, env)
    ensures Inv(after, env)
  {
    match op
    case PollDeliver(d) =>
      if Stale(w, d) {
      } else if Duplicate(w, d) {
        assert d.Key() in Dedupe.Elements(w.order);
        if d.updateId.Some? {
          TracksKeepsInv(w, Runs.Complete(d.updateId.value, d.updateId.value in w.track.store.pending), after, env);
        }
      } else if d.updateId.Some? {
        TracksKeepsInv(w.(polling := Some(d)), Runs.Begin(d.updateId.value), after, env);
      }
    case PollOk =>
      var d := w.polling.value;
      FilteredKeepsInv(w, Dedupe.Commit(d.Key()), env);
      if d.updateId.Some? {
        TracksKeepsInv(Filtered(w, Dedupe.Commit(d.Key()), env).(polling := None),
                       Runs.Complete(d.updateId.value, true), after, env);
      }
  }

  lemma RestartKeepsInv(w: World, after: World, env: Env)
    requires Inv(w, env) && Step(w, Restart, after, env)
    ensures Inv(after, env)
  {
    Runs.StepKeepsInv(w.track, Runs.Restart, after.track, env.me);
    assert Dedupe.NoRepeats(Dedupe.MergeKeys([], Dedupe.Normalized(w.saved)));
  }

  lemma StepKeepsInv(w: World, op: Op, after: World, env: Env)
    requires Inv(w, env) && Step(w, op, after, env)
    ensures Inv(after, env)
  {
    match op
    case Deliver(_, _, _, _) => DeliverKeepsInv(w, op, after, env);
    case HandledOk(worker) => HandledOkKeepsInv(w, worker, after, env);
    case Finish(worker) =>
      ReleasedKeepsInv(w, worker, env);
      CompletesKeepsInv(Released(w, worker), w.workers[worker].delivery, after, env);
    case Abort(worker) => ReleasedKeepsInv(w, worker, env);
    case PollDeliver(_) => PollKeepsInv(w, op, after, env);
    case PollOk => PollKeepsInv(w, op, after, env);
    case PollFail =>
    case SaveFilter =>
    case OperatorForceCommit(id) => TracksKeepsInv(w, Runs.ForceCommit(id), after, env);
    case OperatorSync(offset) => TracksKeepsInv(w, Runs.SyncNextOffset(offset), after, env);
    case Restart => RestartKeepsInv(w, after, env);
  }

  // ---------- Every interleaving ----------

  const START := World(Runs.START, [], [], {}, map[], None, [], {})

  ghost predicate StepAt(ws: seq<World>, ops: seq<Op>, env: Env, i: nat)
    requires i < |ops| < |ws|
  {
    Step(ws[i], ops[i], ws[i + 1], env)
  }

  ghost predicate IsRun(ws: seq<World>, ops: seq<Op>, env: Env) {
    && env.limit >= 1
    && |ws| == |ops| + 1
    && ws[0] == START
    && (forall i :: 0 <= i < |ops| ==> StepAt(ws, ops, env, i))
  }

  lemma StartIsFine(env: Env)
    requires env.limit >= 1
    ensures Inv(START, env)
  {
  }

  lemma RunsKeepInv(ws: seq<World>, ops: seq<Op>, env: Env, n: nat)
    requires IsRun(ws, ops, env) && n < |ws|
    ensures Inv(ws[n], env)
  {
    ghost var step := (w: World, op: Op, after: World) => Step(w, op, after, env);
    ghost var inv := (w: World) => Inv(w, env);
    StartIsFine(env);
    forall i | 0 <= i < |ops| ensures step(ws[i], ops[i], ws[i + 1]) && (inv(ws[i]) ==> inv(ws[i + 1])) {
      assert StepAt(ws, ops, env, i);
      if inv(ws[i]) { StepKeepsInv(ws[i], ops[i], ws[i + 1], env); }
    }
    KeptAlong(ws, ops, step, inv, n);
  }

  /** At most one webhook worker is busy with a given key, and the in-flight set is exactly the busy keys. */
  lemma OneHandlerPerKey(ws: seq<World>, ops: seq<Op>, env: Env, n: nat, a: nat, b: nat)
    requires IsRun(ws, ops, env) && n < |ws|
    requires a in ws[n].workers && b in ws[n].workers
    requires ws[n].workers[a].delivery.Key() == ws[n].workers[b].delivery.Key() != ""
    ensures a == b && ws[n].workers[a].delivery.Key() in ws[n].inflight
  {
    RunsKeepInv(ws, ops, env, n);
  }

  lemma DeliveredIsForgotten(w: World, op: Op, after: World, env: Env)
    requires op.Deliver? && DeliverStep(w, op, after, env) && op.worker in after.workers && op.delivery.Key() != ""
    ensures op.delivery.Key() !in after.order
  {
  }

  /**
   A webhook handles a key again after it entered the filter only once `limit` further keys, all distinct and none
   of them this one, have entered it since; the log starts over with the loaded filter at every restart.
   */
  lemma HandledAgainOnlyAfterLimitKeys(ws: seq<World>, ops: seq<Op>, env: Env, n: nat, i: nat)
    requires IsRun(ws, ops, env) && n < |ops| && ops[n].Deliver?
    requires ops[n].worker in ws[n + 1].workers
    requires ops[n].delivery.Key() != ""
    requires i < |ws[n + 1].log| && ws[n + 1].log[i] == ops[n].delivery.Key()
    ensures var log := ws[n + 1].log;
            && i + env.limit < |log|
            && Dedupe.NoRepeats(log[i + 1..i + 1 + env.limit])
            && ops[n].delivery.Key() !in log[i + 1..i + 1 + env.limit]
  {
    var w, op, after := ws[n], ops[n], ws[n + 1];
    assert StepAt(ws, ops, env, n);
    DeliveredIsForgotten(w, op, after, env);
    RunsKeepInv(ws, ops, env, n + 1);
    Dedupe.ForgottenOnlyAfterLimitKeys(after.order, after.log, env.limit, i);
  }

  /** A failed or cancelled handling frees its key: unless something else settled it, a redelivery is handled. */
  lemma FailureAllowsRetry(ws: seq<World>, ops: seq<Op>, env: Env, n: nat, retry: nat, fromFile: seq<string>, after: World)
    requires IsRun(ws, ops, env) && n < |ops| && ops[n].Abort? && ops[n].worker in ws[n].workers
    requires retry !in ws[n + 1].workers
    requires Step(ws[n + 1], Deliver(retry, ws[n].workers[ops[n].worker].delivery, fromFile, true), after, env)
    ensures var d := ws[n].workers[ops[n].worker].delivery;
            retry in after.workers <==>
            && !Stale(ws[n + 1], d)
            && !(d.Key() != "" && d.Key() in Filtered(ws[n + 1], Dedupe.Refresh(fromFile), env).order)
  {
    assert StepAt(ws, ops, env, n);
  }

  /** The watermark passes an update above the last explicit baseline only if it was handled successfully. */
  lemma WatermarkPassesOnlyHandled(ws: seq<World>, ops: seq<Op>, env: Env, n: nat, id: nat)
    requires IsRun(ws, ops, env) && n < |ws|
    requires ws[n].track.baseline.Some? && ws[n].track.baseline.value < id < ws[n].track.nextOffset
    ensures UpdateKey(id) in ws[n].handled
  {
    RunsKeepInv(ws, ops, env, n);
    assert id in ws[n].track.done;
  }

  // ---------- Polling beside webhooks ----------

  /** A webhook worker and the poll loop are busy with one key. */
  ghost predicate BothHandle(w: World) {
    && w.polling.Some? && w.polling.value.Key() != ""
    && exists i :: i in w.workers && w.workers[i].delivery.Key() == w.polling.value.Key()
  }

  /** The step starts the poll loop on a key that is in flight, or a webhook worker on the key being polled. */
  ghost predicate Ignores(w: World, op: Op, after: World) {
    match op
    case PollDeliver(d) => after.polling == Some(d) && d.Key() != "" && d.Key() in w.inflight
    case Deliver(worker, d, _, _) => worker in after.workers && d.Key() != "" && w.polling.Some? && w.polling.value.Key() == d.Key()
    case _ => false
  }

  /** The poll loop does not look at the in-flight set: what it starts on is handled twice exactly when it is in flight. */
  lemma PollingCollidesIff(w: World, d: Delivery, after: World, env: Env)
    requires Inv(w, env) && Step(w, PollDeliver(d), after, env) && after.polling == Some(d) && d.Key() != ""
    ensures BothHandle(after) <==> d.Key() in w.inflight
  {
    assert after.workers == w.workers;
  }

  /** Nor does a webhook look at the update being polled. */
  lemma DeliveryCollidesIff(w: World, op: Op, after: World, env: Env)
    requires Inv(w, env) && op.Deliver? && Step(w, op, after, env) && op.worker in after.workers && op.delivery.Key() != ""
    ensures BothHandle(after) <==> BothHandle(w) || (w.polling.Some? && w.polling.value.Key() == op.delivery.Key())
  {
    assert after.polling == w.polling && after.workers == w.workers[op.worker := Worker(op.delivery, Handling)];
    assert op.worker !in w.workers;
    if w.polling.Some? && w.polling.value.Key() == op.delivery.Key() {
      assert after.workers[op.worker].delivery.Key() == after.polling.value.Key();
    }
    if BothHandle(w) {
      var i :| i in w.workers && w.workers[i].delivery.Key() == w.polling.value.Key();
      assert after.workers[i] == w.workers[i];
    }
  }

  /** All other steps leave the poll loop and every worker with what they had, or end them. */
  lemma OthersStartNothing(w: World, op: Op, after: World, env: Env)
    requires Step(w, op, after, env)
    requires !(op.PollDeliver? && after.polling == Some(op.delivery)) && !(op.Deliver? && op.worker in after.workers)
    ensures after.polling == w.polling || after.polling == None
    ensures forall i :: i in after.workers ==> i in w.workers && after.workers[i].delivery == w.workers[i].delivery
  {
  }

  /** In every reachable state two handlers share a key after a step exactly when they did before, or the step ignored one of them. */
  lemma CollisionStartsIff(w: World, op: Op, after: World, env: Env)
    requires Inv(w, env) && Step(w, op, after, env) && !BothHandle(w)
    ensures BothHandle(after) <==> Ignores(w, op, after)
  {
    if op.PollDeliver? && after.polling == Some(op.delivery) {
      if op.delivery.Key() != "" { PollingCollidesIff(w, op.delivery, after, env); }
    } else if op.Deliver? && op.worker in after.workers {
      DeliveryStartsIff(w, op, after, env);
    } else {
      OthersStartNothing(w, op, after, env);
    }
  }

  lemma DeliveryStartsIff(w: World, op: Op, after: World, env: Env)
    requires Inv(w, env) && op.Deliver? && Step(w, op, after, env) && op.worker in after.workers && !BothHandle(w)
    ensures BothHandle(after) <==> Ignores(w, op, after)
  {
    if op.delivery.Key() != "" {
      DeliveryCollidesIff(w, op, after, env);
    } else {
      assert after.polling == w.polling && after.workers == w.workers[op.worker := Worker(op.delivery, Handling)];
    }
  }

  /** A run handles no key from both sides at once exactly when none of its steps starts one side on what the other is busy with. */
  lemma NeverBothIff(ws: seq<World>, ops: seq<Op>, env: Env)
    requires IsRun(ws, ops, env)
    ensures (forall n :: 0 <= n < |ws| ==> !BothHandle(ws[n]))
            <==> (forall i {:trigger ops[i]} :: 0 <= i < |ops| ==> !Ignores(ws[i], ops[i], ws[i + 1]))
  {
    if forall n :: 0 <= n < |ws| ==> !BothHandle(ws[n]) {
      forall i {:trigger ops[i]} | 0 <= i < |ops| ensures !Ignores(ws[i], ops[i], ws[i + 1]) {
        RunsKeepInv(ws, ops, env, i);
        assert StepAt(ws, ops, env, i);
        assert !BothHandle(ws[i]) && !BothHandle(ws[i + 1]);
        CollisionStartsIff(ws[i], ops[i], ws[i + 1], env);
      }
    }
    if forall i {:trigger ops[i]} :: 0 <= i < |ops| ==> !Ignores(ws[i], ops[i], ws[i + 1]) {
      forall n | 0 <= n < |ws| ensures !BothHandle(ws[n]) { NoneUpTo(ws, ops, env, n); }
    }
  }

  lemma NoneUpTo(ws: seq<World>, ops: seq<Op>, env: Env, n: nat)
    requires IsRun(ws, ops, env) && n < |ws|
    requires forall i {:trigger ops[i]} :: 0 <= i < |ops| ==> !Ignores(ws[i], ops[i], ws[i + 1])
    ensures !BothHandle(ws[n])
  {
    ghost var step := (w: World, op: Op, after: World) => Step(w, op, after, env) && !Ignores(w, op, after);
    ghost var inv := (w: World) => Inv(w, env) && !BothHandle(w);
    StartIsFine(env);
    forall i | 0 <= i < |ops| ensures step(ws[i], ops[i], ws[i + 1]) && (inv(ws[i]) ==> inv(ws[i + 1])) {
      assert StepAt(ws, ops, env, i);
      if inv(ws[i]) {
        StepKeepsInv(ws[i], ops[i], ws[i + 1], env);
        CollisionStartsIff(ws[i], ops[i], ws[i + 1], env);
      }
    }
    KeptAlong(ws, ops, step, inv, n);
  }

  const UPDATE := Delivery(Some(5), "")

  lemma UpdateBegins(env: Env) returns (after: Runs.World)
    ensures Runs.Step(Runs.START, Runs.Begin(5), after, env.me)
  {
    var file := Offsets.Versioned(Offsets.STORE_SCHEMA_VERSION, env.me.botId, env.me.tokenFingerprint, None, None, [], [5]);
    after := Runs.START.(store := Offsets.AfterBegin(Offsets.EMPTY_STATE, 5), file := file, begun := {5});
  }

  lemma WebhookStarts(env: Env, key: string) returns (after: World)
    requires env.limit >= 1 && key == UPDATE.Key()
    ensures Step(START, Deliver(0, UPDATE, [], true), after, env)
    ensures after == START.(inflight := {key}, workers := map[0 := Worker(UPDATE, Handling)])
  {
    after := START.(inflight := {key}, workers := map[0 := Worker(UPDATE, Handling)]);
    assert Filtered(START, Dedupe.Refresh([]), env) == START;
    assert START.inflight + {key} == {key};
  }

  lemma PollingStarts(w: World, env: Env) returns (after: World)
    requires w.order == [] && w.polling == None && w.track == Runs.START
    ensures Step(w, PollDeliver(UPDATE), after, env)
    ensures after.polling == Some(UPDATE) && after.workers == w.workers
  {
    var track := UpdateBegins(env);
    after := w.(polling := Some(UPDATE), track := track);
  }

  /** An update that a webhook worker is handling comes in by polling as well, and both handle it. */
  lemma PollingIgnoresInflight(env: Env) returns (ws: seq<World>, ops: seq<Op>)
    requires env.limit >= 1
    ensures IsRun(ws, ops, env) && |ops| == 2 && ops[0] == Deliver(0, UPDATE, [], true) && ops[1] == PollDeliver(UPDATE)
    ensures BothHandle(ws[2])
  {
    var key := UPDATE.Key();
    var w1 := WebhookStarts(env, key);
    var w2 := PollingStarts(w1, env);
    ws, ops := [START, w1, w2], [Deliver(0, UPDATE, [], true), PollDeliver(UPDATE)];
    assert StepAt(ws, ops, env, 0) && StepAt(ws, ops, env, 1);
    assert w2.workers[0].delivery.Key() == key;
  }
}
