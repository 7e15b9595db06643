/** Webhook commits across restarts: a committed key is in the saved filter at once, and a restart loads it back. */
module WebhookRestarts {
  import opened Wrappers
  import opened PyStrings
  import opened Sets
  import opened Sequences
  import Dedupe = TelegramDedupe
  import opened WebhookProtocol

  /** A key that a load leaves alone; all keys the channel builds are of this kind, an update's among them. */
  predicate Canonical(key: string) {
    key != "" && Dedupe.NormalizeKey(key) == key
  }

  predicate AllCanonical(keys: seq<string>) {
    forall i :: 0 <= i < |keys| ==> Canonical(keys[i])
  }

  lemma UpdateKeysAreCanonical(id: nat)
    ensures Canonical(UpdateKey(id))
  {
    var key := UpdateKey(id);
    assert key[0] == 'u' && "polling:"[0] == 'p' && "webhook:"[0] == 'w';
  }

  /** The keys a step may bring into the filter. */
  ghost predicate BringsCanonical(op: Op) {
    && (op.Deliver? ==> AllCanonical(op.fromFile))
    && (op.Deliver? || op.PollDeliver? ==> op.delivery.Key() == "" || Canonical(op.delivery.Key()))
  }

  /** What the filter and its file hold, and what workers and poll loop may commit. */
  ghost predicate Clean(w: World, env: Env) {
    && AllCanonical(w.order) && Dedupe.NoRepeats(w.order) && |w.order| <= env.limit
    && AllCanonical(w.saved) && Dedupe.NoRepeats(w.saved) && |w.saved| <= env.limit
    && (forall i :: i in w.workers && w.workers[i].delivery.Key() != "" ==> Canonical(w.workers[i].delivery.Key()))
    && (w.polling.Some? && w.polling.value.Key() != "" ==> Canonical(w.polling.value.Key()))
  }

  // ---------- One step ----------

  /** What a step does to the filter, if anything. */
  function FilterOp(w: World, op: Op): Option<Dedupe.Op> {
    match op
    case Deliver(_, _, fromFile, _) => Some(Dedupe.Refresh(fromFile))
    case HandledOk(worker) => if worker in w.workers then Some(Dedupe.Commit(w.workers[worker].delivery.Key())) else None
    case PollOk => if w.polling.Some? then Some(Dedupe.Commit(w.polling.value.Key())) else None
    case _ => None
  }

  lemma StepFilters(w: World, op: Op, after: World, env: Env)
    requires Step(w, op, after, env) && !op.Restart?
    ensures after.order == match FilterOp(w, op) case Some(f) => Dedupe.OrderAfter(w.order, env.limit, f) case None => w.order
    ensures after.saved == w.saved || after.saved == after.order
  {
  }

  lemma {:induction false} MergeBringsOnly(order: seq<string>, keys: seq<string>)
    requires AllCanonical(order) && AllCanonical(keys)
    ensures AllCanonical(Dedupe.MergeKeys(order, keys))
    decreases |keys|
  {
    if keys != [] { MergeBringsOnly(order, keys[..|keys| - 1]); }
  }

  ghost predicate CommitsCanonical(f: Dedupe.Op) {
    match f
    case Commit(key) => Strip(key) == "" || Canonical(Strip(key))
    case Refresh(keys) => AllCanonical(keys)
  }

  /** The filter gains its new keys at the end, and loses the oldest beyond the limit. */
  lemma FilterGrows(order: seq<string>, limit: nat, f: Dedupe.Op)
    requires AllCanonical(order) && Dedupe.NoRepeats(order) && |order| <= limit && CommitsCanonical(f)
    ensures var more := Dedupe.Added(order, f);
            && Dedupe.NoRepeats(order + more) && AllCanonical(more)
            && Dedupe.OrderAfter(order, limit, f) == Dedupe.LastN(order + more, limit)
  {
    var more := Dedupe.Added(order, f);
    if f.Refresh? {
      var merged := Dedupe.MergeKeys(order, f.keys);
      MergeBringsOnly(order, f.keys);
      assert merged == order + more;
    } else if more == [] {
      assert order + [] == order;
    }
  }

  lemma LastNIsClean(s: seq<string>, n: nat)
    requires AllCanonical(s) && Dedupe.NoRepeats(s)
    ensures AllCanonical(Dedupe.LastN(s, n)) && Dedupe.NoRepeats(Dedupe.LastN(s, n))
  {
  }

  lemma StepCommitsCanonical(w: World, op: Op, env: Env)
    requires Clean(w, env) && BringsCanonical(op) && FilterOp(w, op).Some?
    ensures CommitsCanonical(FilterOp(w, op).value)
  {
  }

  lemma FilterStaysClean(w: World, op: Op, after: World, env: Env)
    requires Clean(w, env) && Step(w, op, after, env) && BringsCanonical(op) && !op.Restart?
    ensures AllCanonical(after.order) && Dedupe.NoRepeats(after.order) && |after.order| <= env.limit
  {
    StepFilters(w, op, after, env);
    if FilterOp(w, op).Some? {
      var f := FilterOp(w, op).value;
      StepCommitsCanonical(w, op, env);
      FilterGrows(w.order, env.limit, f);
      LastNIsClean(w.order + Dedupe.Added(w.order, f), env.limit);
    }
  }

  lemma RestartLoadsSaved(w: World, after: World, env: Env)
    requires Clean(w, env) && Step(w, Restart, after, env)
    ensures after.order == w.saved && after.saved == w.saved
  {
    assert Dedupe.Normalized(w.saved) == w.saved;
    Dedupe.SaveThenLoad(w.saved, env.limit);
  }

  lemma HandlersStayClean(w: World, op: Op, after: World, env: Env)
    requires Clean(w, env) && Step(w, op, after, env) && BringsCanonical(op)
    ensures forall i :: i in after.workers && after.workers[i].delivery.Key() != "" ==> Canonical(after.workers[i].delivery.Key())
    ensures after.polling.Some? && after.polling.value.Key() != "" ==> Canonical(after.polling.value.Key())
  {
    if op.PollDeliver? && after.polling == Some(op.delivery) {
      assert after.workers == w.workers;
    } else if op.Deliver? && op.worker in after.workers {
      assert after.polling == w.polling && after.workers == w.workers[op.worker := Worker(op.delivery, Handling)];
    } else {
      OthersStartNothing(w, op, after, env);
    }
  }

  lemma StepKeepsClean(w: World, op: Op, after: World, env: Env)
    requires Clean(w, env) && Step(w, op, after, env) && BringsCanonical(op)
    ensures Clean(after, env)
  {
    HandlersStayClean(w, op, after, env);
    if op.Restart? {
      RestartLoadsSaved(w, after, env);
    } else {
      StepFilters(w, op, after, env);
      FilterStaysClean(w, op, after, env);
    }
  }

  // ---------- A saved key ----------

  /** The key is there, and what came after it is among `others`. */
  ghost predicate KeptWith(s: seq<string>, k: string, others: set<string>) {
    exists i :: 0 <= i < |s| && KeptAt(s, i, k, others)
  }

  ghost predicate KeptAt(s: seq<string>, i: nat, k: string, others: set<string>)
    requires i < |s|
  {
    s[i] == k && forall j :: i < j < |s| ==> s[j] in others
  }

  /** In the filter and in the file, unless as many others as the filter holds have come since. */
  ghost predicate Guarded(w: World, k: string, others: set<string>, env: Env) {
    |others| >= env.limit || (KeptWith(w.order, k, others) && KeptWith(w.saved, k, others))
  }

  /** The keys a step brings into the filter; a restart only puts back what was saved. */
  ghost function Entering(w: World, op: Op, after: World, k: string): set<string> {
    if op.Restart? then {} else Dedupe.Elements(after.order) - Dedupe.Elements(w.order) - {k}
  }

  lemma {:induction false} SizeOfDistinct(s: seq<string>)
    requires Dedupe.NoRepeats(s)
    ensures |Dedupe.Elements(s)| == |s|
    decreases |s|
  {
    if s != [] {
      var front, last := s[..|s| - 1], s[|s| - 1];
      assert s == front + [last];
      SizeOfDistinct(front);
      Dedupe.ElementsPush(front, last);
    }
  }

  lemma NewIsNotOld(order: seq<string>, more: seq<string>, j: nat)
    requires Dedupe.NoRepeats(order + more) && |order| <= j < |order + more|
    ensures (order + more)[j] !in order
  {
    forall i | 0 <= i < |order| ensures order[i] != (order + more)[j] { assert order[i] == (order + more)[i]; }
  }

  lemma TailIsWithin(grown: seq<string>, after: seq<string>, cut: nat, all: set<string>)
    requires Dedupe.NoRepeats(grown) && cut <= |grown| && after == grown[cut..]
    requires forall j :: cut <= j < |grown| ==> grown[j] in all
    ensures |all| >= |after|
  {
    forall x | x in Dedupe.Elements(after) ensures x in all {
      var j :| 0 <= j < |after| && after[j] == x;
      assert grown[cut + j] == x;
    }
    forall a, b | 0 <= a < b < |after| ensures after[a] != after[b] {
      assert after[a] == grown[cut + a] && after[b] == grown[cut + b];
    }
    SizeOfDistinct(after);
    SubsetSize(Dedupe.Elements(after), all);
  }

  lemma LaterIsIn(order: seq<string>, more: seq<string>, i: nat, j: nat, cut: nat, k: string, others: set<string>, all: set<string>)
    requires Dedupe.NoRepeats(order + more) && i < |order| && KeptAt(order, i, k, others) && others <= all
    requires i < j < |order + more| && cut <= j
    requires Dedupe.Elements((order + more)[cut..]) - Dedupe.Elements(order) <= all
    ensures (order + more)[j] in all
  {
    if j < |order| {
      assert (order + more)[j] == order[j];
    } else {
      NewIsNotOld(order, more, j);
      assert (order + more)[cut..][j - cut] == (order + more)[j];
    }
  }

  /** A key is pushed out of the filter only by `limit` others. */
  lemma PushKeeps(order: seq<string>, more: seq<string>, limit: nat, k: string, others: set<string>, all: set<string>)
    requires Dedupe.NoRepeats(order + more) && KeptWith(order, k, others) && others <= all
    requires Dedupe.Elements(Dedupe.LastN(order + more, limit)) - Dedupe.Elements(order) <= all
    ensures |all| >= limit || KeptWith(Dedupe.LastN(order + more, limit), k, all)
  {
    var i :| 0 <= i < |order| && KeptAt(order, i, k, others);
    var grown, after := order + more, Dedupe.LastN(order + more, limit);
    var cut := |grown| - |after|;
    assert after == grown[cut..];
    forall j | cut <= j < |grown| && i < j ensures grown[j] in all { LaterIsIn(order, more, i, j, cut, k, others, all); }
    if i >= cut {
      assert KeptAt(after, i - cut, k, all);
    } else {
      TailIsWithin(grown, after, cut, all);
    }
  }

  lemma MoreKeepsWith(s: seq<string>, k: string, others: set<string>, all: set<string>)
    requires KeptWith(s, k, others) && others <= all
    ensures KeptWith(s, k, all)
  {
    var i :| 0 <= i < |s| && KeptAt(s, i, k, others);
    assert KeptAt(s, i, k, all);
  }

  lemma FilterKeepsWith(w: World, op: Op, after: World, env: Env, k: string, others: set<string>)
    requires Clean(w, env) && Step(w, op, after, env) && BringsCanonical(op) && !op.Restart? && KeptWith(w.order, k, others)
    ensures var all := others + Entering(w, op, after, k); |all| >= env.limit || KeptWith(after.order, k, all)
  {
    var all := others + Entering(w, op, after, k);
    StepFilters(w, op, after, env);
    if FilterOp(w, op).Some? {
      var f := FilterOp(w, op).value;
      StepCommitsCanonical(w, op, env);
      FilterGrows(w.order, env.limit, f);
      assert k in Dedupe.Elements(w.order);
      PushKeeps(w.order, Dedupe.Added(w.order, f), env.limit, k, others, all);
    } else {
      MoreKeepsWith(w.order, k, others, all);
    }
  }

  lemma StepKeepsGuarded(w: World, op: Op, after: World, env: Env, k: string, others: set<string>)
    requires Clean(w, env) && Step(w, op, after, env) && BringsCanonical(op) && Guarded(w, k, others, env)
    ensures Guarded(after, k, others + Entering(w, op, after, k), env)
  {
    var all := others + Entering(w, op, after, k);
    SubsetSize(others, all);
    if |others| < env.limit {
      if op.Restart? {
        RestartLoadsSaved(w, after, env);
        assert all == others;
      } else {
        FilterKeepsWith(w, op, after, env, k, others);
        StepFilters(w, op, after, env);
        MoreKeepsWith(w.saved, k, others, all);
      }
    }
  }

  // ---------- Whole runs ----------

  ghost predicate IsCleanRun(ws: seq<World>, ops: seq<Op>, env: Env) {
    IsRun(ws, ops, env) && forall i :: 0 <= i < |ops| ==> BringsCanonical(ops[i])
  }

  ghost function EnteringOf(k: string): (World, Op, World) -> set<string> {
    (w, op, after) => Entering(w, op, after, k)
  }

  /** The other keys that came into the filter after state `m` and up to state `n`. */
  ghost function EnteredSince(ws: seq<World>, ops: seq<Op>, k: string, m: nat, n: nat): set<string>
    requires m <= n < |ws| == |ops| + 1
  {
    Gathered(ws, ops, EnteringOf(k), m, n)
  }

  lemma CleanAlong(ws: seq<World>, ops: seq<Op>, env: Env, n: nat)
    requires IsCleanRun(ws, ops, env) && n < |ws|
    ensures Clean(ws[n], env)
  {
    ghost var step := (w: World, op: Op, after: World) => Step(w, op, after, env) && BringsCanonical(op);
    ghost var inv := (w: World) => Clean(w, env);
    forall i | 0 <= i < |ops| ensures step(ws[i], ops[i], ws[i + 1]) && (inv(ws[i]) ==> inv(ws[i + 1])) {
      assert StepAt(ws, ops, env, i);
      if inv(ws[i]) { StepKeepsClean(ws[i], ops[i], ws[i + 1], env); }
    }
    KeptAlong(ws, ops, step, inv, n);
  }

  lemma NewestIsKept(order: seq<string>, k: string, limit: nat)
    requires limit >= 1
    ensures KeptWith(Dedupe.LastN(order + [k], limit), k, {})
  {
    var after := Dedupe.LastN(order + [k], limit);
    assert KeptAt(after, |after| - 1, k, {});
  }

  /** A webhook that adds its key to the filter saves it in the same step. */
  lemma CommitIsGuarded(w: World, worker: nat, after: World, env: Env)
    requires Clean(w, env) && env.limit >= 1 && Step(w, HandledOk(worker), after, env)
    requires w.workers[worker].delivery.Key() != "" && w.workers[worker].delivery.Key() !in w.order
    ensures Guarded(after, w.workers[worker].delivery.Key(), {}, env)
  {
    var k := w.workers[worker].delivery.Key();
    assert after.order == Dedupe.LastN(w.order + [k], env.limit) && after.saved == after.order;
    NewestIsKept(w.order, k, env.limit);
  }

  lemma GuardedNext(ws: seq<World>, ops: seq<Op>, env: Env, k: string, i: nat, others: set<string>)
    requires IsCleanRun(ws, ops, env) && i < |ops| && Clean(ws[i], env) && Guarded(ws[i], k, others, env)
    ensures Clean(ws[i + 1], env) && Guarded(ws[i + 1], k, others + EnteringOf(k)(ws[i], ops[i], ws[i + 1]), env)
  {
    assert StepAt(ws, ops, env, i);
    StepKeepsClean(ws[i], ops[i], ws[i + 1], env);
    StepKeepsGuarded(ws[i], ops[i], ws[i + 1], env, k, others);
  }

  lemma GuardedAlong(ws: seq<World>, ops: seq<Op>, env: Env, k: string, base: set<string>, m: nat, n: nat)
    requires IsCleanRun(ws, ops, env) && m <= n < |ws| && Guarded(ws[m], k, base, env)
    ensures Guarded(ws[n], k, base + EnteredSince(ws, ops, k, m, n), env)
  {
    ghost var inv := (w: World, others: set<string>) => Clean(w, env) && Guarded(w, k, base + others, env);
    assert inv(ws[m], {}) by {
      CleanAlong(ws, ops, env, m);
      assert base + {} == base;
    }
    forall i, others {:trigger ops[i], inv(ws[i], others)} | m <= i < |ops| && inv(ws[i], others)
      ensures inv(ws[i + 1], others + EnteringOf(k)(ws[i], ops[i], ws[i + 1]))
    {
      GuardedNext(ws, ops, env, k, i, base + others);
      assert base + others + EnteringOf(k)(ws[i], ops[i], ws[i + 1]) == base + (others + EnteringOf(k)(ws[i], ops[i], ws[i + 1]));
    }
    KeptWithGathered(ws, ops, EnteringOf(k), inv, m, n);
  }

  /** The step commits a key that a webhook handled and the filter did not know. */
  ghost predicate CommitsKey(w: World, op: Op, k: string) {
    op.HandledOk? && op.worker in w.workers && w.workers[op.worker].delivery.Key() == k && k != "" && k !in w.order
  }

  lemma GuardedIsKnown(w: World, k: string, others: set<string>, env: Env)
    requires Guarded(w, k, others, env)
    ensures k in w.order || |others| >= env.limit
  {
  }

  lemma CommitInRunIsGuarded(ws: seq<World>, ops: seq<Op>, env: Env, k: string, m: nat)
    requires IsCleanRun(ws, ops, env) && m < |ops| && CommitsKey(ws[m], ops[m], k)
    ensures Guarded(ws[m + 1], k, {}, env)
  {
    CleanAlong(ws, ops, env, m);
    assert StepAt(ws, ops, env, m);
    CommitIsGuarded(ws[m], ops[m].worker, ws[m + 1], env);
  }

  lemma CommitStaysGuarded(ws: seq<World>, ops: seq<Op>, env: Env, k: string, m: nat, n: nat)
    requires IsCleanRun(ws, ops, env) && m < n < |ws| && CommitsKey(ws[m], ops[m], k)
    ensures Guarded(ws[n], k, EnteredSince(ws, ops, k, m + 1, n), env)
  {
    assert Guarded(ws[m + 1], k, {}, env) by { CommitInRunIsGuarded(ws, ops, env, k, m); }
    GuardedAlong(ws, ops, env, k, {}, m + 1, n);
    assert {} + EnteredSince(ws, ops, k, m + 1, n) == EnteredSince(ws, ops, k, m + 1, n);
  }

  /**
   A key that a webhook committed is known from then on, through any number of restarts, until `limit` others have
   come into the filter.
   */
  lemma CommitSurvivesRestarts(ws: seq<World>, ops: seq<Op>, env: Env, k: string, m: nat, n: nat)
    requires IsCleanRun(ws, ops, env) && m < n < |ws| && CommitsKey(ws[m], ops[m], k)
    ensures k in ws[n].order || |EnteredSince(ws, ops, k, m + 1, n)| >= env.limit
  {
    CommitStaysGuarded(ws, ops, env, k, m, n);
    GuardedIsKnown(ws[n], k, EnteredSince(ws, ops, k, m + 1, n), env);
  }

  /** The keys of the filter that came in after this one. */
  ghost function Behind(order: seq<string>, i: nat): set<string>
    requires i < |order|
  {
    Dedupe.Elements(order[i + 1..])
  }

  lemma SaveGuards(w: World, after: World, env: Env, i: nat)
    requires Clean(w, env) && Step(w, SaveFilter, after, env) && i < |w.order|
    ensures Guarded(after, w.order[i], Behind(w.order, i), env)
  {
    forall j | i < j < |w.order| ensures w.order[j] in Behind(w.order, i) { assert w.order[i + 1..][j - i - 1] == w.order[j]; }
    assert KeptAt(after.order, i, w.order[i], Behind(w.order, i));
  }

  /**
   Once the filter is saved, every key in it is known from then on, through any number of restarts, until together with
   the keys behind it `limit` others have come into the filter.
   */
  lemma SavedSurvivesRestarts(ws: seq<World>, ops: seq<Op>, env: Env, i: nat, m: nat, n: nat)
    requires IsCleanRun(ws, ops, env) && m < n < |ws| && ops[m].SaveFilter? && i < |ws[m].order|
    ensures var k := ws[m].order[i];
            k in ws[n].order || |Behind(ws[m].order, i) + EnteredSince(ws, ops, k, m + 1, n)| >= env.limit
  {
    var k, behind := ws[m].order[i], Behind(ws[m].order, i);
    assert Guarded(ws[m + 1], k, behind, env) by {
      CleanAlong(ws, ops, env, m);
      assert StepAt(ws, ops, env, m);
      SaveGuards(ws[m], ws[m + 1], env, i);
    }
    GuardedAlong(ws, ops, env, k, behind, m + 1, n);
    GuardedIsKnown(ws[n], k, behind + EnteredSince(ws, ops, k, m + 1, n), env);
  }

  /** The step starts to handle a delivery with this key. */
  ghost predicate Starts(op: Op, after: World, k: string) {
    || (op.Deliver? && op.delivery.Key() == k && op.worker in after.workers)
    || (op.PollDeliver? && op.delivery.Key() == k && after.polling == Some(op.delivery))
  }

  lemma StartedIsUnknown(w: World, op: Op, after: World, env: Env, k: string)
    requires Step(w, op, after, env) && Starts(op, after, k) && k != ""
    ensures k !in after.order
  {
  }

  lemma StartedInRunIsUnknown(ws: seq<World>, ops: seq<Op>, env: Env, k: string, n: nat)
    requires IsRun(ws, ops, env) && n < |ops| && Starts(ops[n], ws[n + 1], k) && k != ""
    ensures k !in ws[n + 1].order
  {
    assert StepAt(ws, ops, env, n);
    StartedIsUnknown(ws[n], ops[n], ws[n + 1], env, k);
  }

  /** So neither a webhook nor the poll loop handles it again before that. */
  lemma HandledAgainAcrossRestarts(ws: seq<World>, ops: seq<Op>, env: Env, k: string, m: nat, n: nat)
    requires IsCleanRun(ws, ops, env) && m < n < |ops| && CommitsKey(ws[m], ops[m], k) && Starts(ops[n], ws[n + 1], k)
    ensures |EnteredSince(ws, ops, k, m + 1, n + 1)| >= env.limit
  {
    assert k in ws[n + 1].order || |EnteredSince(ws, ops, k, m + 1, n + 1)| >= env.limit by {
      CommitSurvivesRestarts(ws, ops, env, k, m, n + 1);
    }
    assert k !in ws[n + 1].order by { StartedInRunIsUnknown(ws, ops, env, k, n); }
  }
}
