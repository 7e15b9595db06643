/**
 The Telegram duplicate filter: a bounded first-in-first-out set of update keys, kept as a set and a
 queue, merged with and saved to a file shared by live instances.
 */
module TelegramDedupe {
  import opened Wrappers
  import opened PyStrings

  predicate NoRepeats(s: seq<string>) {
    forall i, j :: 0 <= i < j < |s| ==> s[i] != s[j]
  }

  function Elements(s: seq<string>): set<string> {
    set x | x in s
  }

  function LastN(s: seq<string>, n: nat): (r: seq<string>)
    ensures |r| <= n && |r| <= |s|
  {
    if |s| <= n then s else s[|s| - n..]
  }

  function NormalizeKey(raw: string): string {
    var key := Strip(raw);
    if StartsWith(key, "polling:") || StartsWith(key, "webhook:") then Strip(Partition(key, ":").tail) else key
  }

  /** A key that was saved with the mark of its source is the key without it; any other saved key is only stripped. */
  lemma SourceMarkIsDropped(source: string, key: string)
    requires Stripped(source + ":" + key) && Free(source, ':')
    ensures source == "polling" || source == "webhook" ==> NormalizeKey(source + ":" + key) == Strip(key)
    ensures source != "polling" && source != "webhook" ==> NormalizeKey(source + ":" + key) == source + ":" + key
  {
    PartitionAt(source, ":", key);
    assert StartsWith(source + ":" + key, "polling:") <==> source == "polling" by {
      MarkIs(source, "polling", key);
      assert "polling" + ":" == "polling:";
    }
    assert StartsWith(source + ":" + key, "webhook:") <==> source == "webhook" by {
      MarkIs(source, "webhook", key);
      assert "webhook" + ":" == "webhook:";
    }
  }

  lemma MarkIs(source: string, mark: string, key: string)
    requires Free(source, ':') && Free(mark, ':')
    ensures StartsWith(source + ":" + key, mark + ":") <==> source == mark
  {
    var raw := source + ":" + key;
    if StartsWith(raw, mark + ":") {
      var rest := raw[|mark| + 1..];
      assert raw == mark + ":" + rest;
      PartitionAt(source, ":", key);
      PartitionAt(mark, ":", rest);
    }
    if source == mark { assert raw[..|mark| + 1] == mark + ":"; }
  }

  lemma ElementsPush(s: seq<string>, x: string)
    ensures Elements(s + [x]) == Elements(s) + {x}
  {
  }

  function Normalized(items: seq<string>): seq<string> {
    seq(|items|, i requires 0 <= i < |items| => NormalizeKey(items[i]))
  }

  /** Append the `keys` that are neither blank nor already there. */
  function MergeKeys(order: seq<string>, keys: seq<string>): (r: seq<string>)
    ensures |order| <= |r| && r[..|order|] == order
    ensures NoRepeats(order) ==> NoRepeats(r)
  {
    if keys == [] then order
    else
      var front, key := MergeKeys(order, keys[..|keys| - 1]), keys[|keys| - 1];
      if key == "" || key in front then front else front + [key]
  }

  lemma MergeStep(order: seq<string>, keys: seq<string>, i: nat)
    requires i < |keys|
    ensures var front := MergeKeys(order, keys[..i]);
            MergeKeys(order, keys[..i + 1]) == if keys[i] == "" || keys[i] in front then front else front + [keys[i]]
  {
    assert keys[..i + 1][..i] == keys[..i];
  }

  /** Pushing onto a queue of bounded length drops at most its oldest element. */
  lemma LastNPush(s: seq<string>, x: string, n: nat)
    requires n >= 1
    ensures LastN(s + [x], n) == (var t := LastN(s, n) + [x]; if |t| > n then t[1..] else t)
  {
  }

  function AfterCommit(order: seq<string>, limit: nat, rawKey: string): seq<string> {
    var key := Strip(rawKey);
    if key == "" || key in order then order else LastN(order + [key], limit)
  }

  class DedupeState {
    const limit: nat
    var keys: set<string>
    var order: seq<string>
    var file: Option<seq<string>>

    ghost predicate Valid()
      reads this
    {
      limit >= 1 && keys == Elements(order) && NoRepeats(order) && |order| <= limit
    }

    constructor (limit: int, file: Option<seq<string>>)
      ensures Valid() && order == [] && this.file == file
      ensures this.limit == if limit < 1 then 1 else limit
    {
      this.limit := if limit < 1 then 1 else limit;
      keys, order, this.file := {}, [], file;
    }

    method Trim()
      requires keys == Elements(order) && NoRepeats(order) && limit >= 1
      modifies `keys, `order
      ensures Valid() && order == LastN(old(order), limit)
    {
      while |order| > limit
        invariant |order| <= |old(order)| && order == old(order)[|old(order)| - |order|..]
        invariant |old(order)| > limit ==> |order| >= limit
        invariant |old(order)| <= limit ==> order == old(order)
        invariant keys == Elements(order) && NoRepeats(order)
      {
        var oldest := order[0];
        order := order[1..];
        keys := keys - {oldest};
      }
    }

    method Commit(dedupeKey: string) returns (added: bool)
      requires Valid()
      modifies `keys, `order
      ensures Valid() && order == AfterCommit(old(order), limit, dedupeKey)
      ensures added <==> Strip(dedupeKey) != "" && Strip(dedupeKey) !in old(order)
    {
      var key := Strip(dedupeKey);
      if key == "" || key in keys { return false; }
      keys := keys + {key};
      order := order + [key];
      Trim();
      return true;
    }

    method Contains(dedupeKey: string) returns (known: bool)
      requires Valid()
      ensures known <==> Strip(dedupeKey) != "" && Strip(dedupeKey) in order
    {
      var key := Strip(dedupeKey);
      known := key != "" && key in keys;
    }

    method Add(key: string) returns (added: bool)
      requires keys == Elements(order) && NoRepeats(order)
      modifies `keys, `order
      ensures keys == Elements(order) && NoRepeats(order)
      ensures added <==> key != "" && key !in old(order)
      ensures order == if added then old(order) + [key] else old(order)
    {
      if key == "" || key in keys { return false; }
      ElementsPush(order, key);
      keys := keys + {key};
      order := order + [key];
      return true;
    }

    /** Merge what another live instance saved; the limit applies once, after the whole merge. */
    method Refresh() returns (changed: bool)
      requires Valid()
      modifies `keys, `order
      ensures Valid()
      ensures file.None? ==> !changed && order == old(order)
      ensures file.Some? ==> order == LastN(MergeKeys(old(order), Normalized(file.value)), limit)
      ensures file.Some? ==> (changed <==> MergeKeys(old(order), Normalized(file.value)) != old(order))
    {
      if file.None? { return false; }
      var items := Normalized(file.value);
      changed := false;
      for i := 0 to |items|
        invariant order == MergeKeys(old(order), items[..i])
        invariant keys == Elements(order) && NoRepeats(order)
        invariant changed <==> |order| > |old(order)|
      {
        MergeStep(old(order), items, i);
        var added := Add(items[i]);
        if added { changed := true; }
      }
      assert items[..|items|] == items;
      if changed { Trim(); }
    }

    /** The bounded queue of the load drops from the left; its seen-set never forgets. */
    method Load()
      requires Valid()
      modifies `keys, `order
      ensures Valid()
      ensures file.None? ==> order == old(order)
      ensures file.Some? ==> order == LastN(MergeKeys([], Normalized(file.value)), limit)
    {
      if file.None? { return; }
      var items := Normalized(file.value);
      var normalized: seq<string> := [];
      var seen: set<string> := {};
      ghost var merged: seq<string> := [];
      for i := 0 to |items|
        invariant merged == MergeKeys([], items[..i]) && NoRepeats(merged)
        invariant seen == Elements(merged) && normalized == LastN(merged, limit)
      {
        MergeStep([], items, i);
        var key := items[i];
        if key == "" || key in seen { continue; }
        LastNPush(merged, key, limit);
        ElementsPush(merged, key);
        merged := merged + [key];
        seen := seen + {key};
        normalized := normalized + [key];
        if |normalized| > limit { normalized := normalized[1..]; }
      }
      assert items[..|items|] == items;
      order := normalized;
      keys := Elements(order);
    }

    method Persist()
      modifies `file
      ensures file == Some(order)
    {
      file := Some(order);
    }
  }

  // ---------- Saving and loading ----------

  lemma {:induction false} MergeOfDistinctKeys(keys: seq<string>)
    requires NoRepeats(keys) && "" !in keys
    ensures MergeKeys([], keys) == keys
    decreases |keys|
  {
    if keys != [] {
      var front, last := keys[..|keys| - 1], keys[|keys| - 1];
      assert keys == front + [last];
      MergeOfDistinctKeys(front);
    }
  }

  lemma {:induction false} MergeOnlySkips(keys: seq<string>)
    ensures |MergeKeys([], keys)| <= |keys|
    ensures |MergeKeys([], keys)| == |keys| ==> MergeKeys([], keys) == keys
    decreases |keys|
  {
    if keys != [] {
      var front, last := keys[..|keys| - 1], keys[|keys| - 1];
      assert keys == front + [last];
      MergeOnlySkips(front);
    }
  }

  /** What one instance saves, the next one loads unchanged, exactly when its keys carry no legacy prefix. */
  lemma SaveThenLoad(order: seq<string>, limit: nat)
    requires NoRepeats(order) && "" !in order && |order| <= limit
    ensures LastN(MergeKeys([], Normalized(order)), limit) == order <==> Normalized(order) == order
  {
    if Normalized(order) == order {
      MergeOfDistinctKeys(order);
    } else {
      MergeOnlySkips(Normalized(order));
    }
  }

  // ---------- The history behind the bounded queue ----------

  /** A refresh merges the keys another live instance saved, already normalized. */
  datatype Op = Commit(key: string) | Refresh(keys: seq<string>)

  function OrderAfter(order: seq<string>, limit: nat, op: Op): seq<string> {
    match op
    case Commit(key) => AfterCommit(order, limit, key)
    case Refresh(keys) => LastN(MergeKeys(order, keys), limit)
  }

  /** The keys an operation adds, in order: the history never forgets them. */
  function Added(order: seq<string>, op: Op): seq<string> {
    match op
    case Commit(rawKey) => (var key := Strip(rawKey); if key == "" || key in order then [] else [key])
    case Refresh(keys) => MergeKeys(order, keys)[|order|..]
  }

  /** Two entries of the history at distance at most `limit` differ. */
  ghost predicate Spaced(log: seq<string>, limit: nat) {
    forall i, j :: 0 <= i < j < |log| && j - i <= limit ==> log[i] != log[j]
  }

  /** The queue is the tail of the history, and the history repeats a key only after forgetting it. */
  ghost predicate Remembers(order: seq<string>, log: seq<string>, limit: nat) {
    limit >= 1 && order == LastN(log, limit) && NoRepeats(order) && Spaced(log, limit)
  }

  lemma AppendKeepsHistory(order: seq<string>, log: seq<string>, limit: nat, more: seq<string>)
    requires Remembers(order, log, limit) && NoRepeats(order + more)
    ensures Remembers(LastN(order + more, limit), log + more, limit)
  {
    var log' := log + more;
    assert LastN(order + more, limit) == LastN(log', limit);
    forall i, j | 0 <= i < j < |log'| && j - i <= limit ensures log'[i] != log'[j] {
      var cut := |log| - |order|;
      if i >= cut {
        assert log'[i] == (order + more)[i - cut] && log'[j] == (order + more)[j - cut];
      } else {
        assert j < |log|;
      }
    }
  }

  lemma OpKeepsHistory(order: seq<string>, log: seq<string>, limit: nat, op: Op)
    requires Remembers(order, log, limit)
    ensures Remembers(OrderAfter(order, limit, op), log + Added(order, op), limit)
  {
    match op
    case Commit(rawKey) =>
      if Added(order, op) == [] {
        assert log + [] == log;
      } else {
        AppendKeepsHistory(order, log, limit, Added(order, op));
      }
    case Refresh(keys) =>
      var merged := MergeKeys(order, keys);
      assert merged == order + merged[|order|..];
      AppendKeepsHistory(order, log, limit, merged[|order|..]);
  }

  /** A key leaves the queue only after `limit` further keys, all distinct and none of them this one. */
  lemma ForgottenOnlyAfterLimitKeys(order: seq<string>, log: seq<string>, limit: nat, i: nat)
    requires Remembers(order, log, limit) && i < |log|
    ensures log[i] in order || i + limit < |log|
    ensures log[i] !in order ==>
              NoRepeats(log[i + 1..i + 1 + limit]) && log[i] !in log[i + 1..i + 1 + limit]
  {
    if i + limit >= |log| {
      var cut := |log| - |order|;
      assert order[i - cut] == log[i];
    } else {
      var next := log[i + 1..i + 1 + limit];
      forall a, b | 0 <= a < b < |next| ensures next[a] != next[b] {
        assert next[a] == log[i + 1 + a] && next[b] == log[i + 1 + b];
      }
      forall a | 0 <= a < |next| ensures next[a] != log[i] {
        assert next[a] == log[i + 1 + a];
      }
    }
  }
}
