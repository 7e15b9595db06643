/**
 The in-process message bus: the outbound queue and the dead-letter queue with their mirror deques, the
 journal rows behind the lanes, and the filtered drain and replay of dead letters.
 */
module BusQueue {
  import opened Wrappers
  import opened PyStrings
  import opened Events
  import opened BusLanes

  // ---------- Taking the first matches out of a queue ----------

  function Selected<T>(q: seq<T>, p: T -> bool, n: nat): seq<T> {
    if q == [] || n == 0 then []
    else if p(q[0]) then [q[0]] + Selected(q[1..], p, n - 1)
    else Selected(q[1..], p, n)
  }

  function Kept<T>(q: seq<T>, p: T -> bool, n: nat): seq<T> {
    if q == [] || n == 0 then q
    else if p(q[0]) then Kept(q[1..], p, n - 1)
    else [q[0]] + Kept(q[1..], p, n)
  }

  function Matching<T>(q: seq<T>, p: T -> bool): seq<T> {
    if q == [] then [] else (if p(q[0]) then [q[0]] else []) + Matching(q[1..], p)
  }

  function Not<T>(p: T -> bool): T -> bool {
    x => !p(x)
  }

  function Min(a: nat, b: nat): nat {
    if a < b then a else b
  }

  /** The selection is the first `n` matches, in order. */
  lemma {:induction false} SelectedIsPrefix<T>(q: seq<T>, p: T -> bool, n: nat)
    ensures Selected(q, p, n) == Matching(q, p)[..Min(n, |Matching(q, p)|)]
  {
    if q != [] && n != 0 {
      if p(q[0]) {
        SelectedIsPrefix(q[1..], p, n - 1);
      } else {
        SelectedIsPrefix(q[1..], p, n);
      }
    }
  }

  /** Up to some cut the misses stay, and after it everything stays, each in the old order. */
  lemma {:induction false} KeptKeepsOrder<T>(q: seq<T>, p: T -> bool, n: nat) returns (cut: nat)
    ensures cut <= |q|
    ensures Selected(q, p, n) == Matching(q[..cut], p)
    ensures Kept(q, p, n) == Matching(q[..cut], Not(p)) + q[cut..]
    ensures cut < |q| ==> |Selected(q, p, n)| == n
  {
    if q == [] || n == 0 {
      cut := 0;
    } else {
      cut := KeptKeepsOrder(q[1..], p, if p(q[0]) then n - 1 else n);
      assert q[..cut + 1][1..] == q[1..][..cut];
      cut := cut + 1;
      assert q[cut..] == q[1..][cut - 1..];
    }
  }

  lemma {:induction false} NothingIsLost<T>(q: seq<T>, p: T -> bool, n: nat)
    ensures multiset(Selected(q, p, n)) + multiset(Kept(q, p, n)) == multiset(q)
    ensures |Selected(q, p, n)| + |Kept(q, p, n)| == |q|
  {
    if q != [] && n != 0 {
      var x, rest := q[0], q[1..];
      assert q == [x] + rest;
      assert multiset(q) == multiset{x} + multiset(rest);
      if p(x) {
        NothingIsLost(rest, p, n - 1);
        assert multiset(Selected(q, p, n)) == multiset{x} + multiset(Selected(rest, p, n - 1));
      } else {
        NothingIsLost(rest, p, n);
        assert multiset(Kept(q, p, n)) == multiset{x} + multiset(Kept(rest, p, n));
      }
    }
  }

  /** A scan in progress: what it took and kept so far, and what is left of the queue. */
  ghost predicate Scanning<T>(q: seq<T>, p: T -> bool, n: nat, taken: seq<T>, kept: seq<T>, rest: seq<T>) {
    && |taken| <= n
    && taken + Selected(rest, p, n - |taken|) == Selected(q, p, n)
    && kept + Kept(rest, p, n - |taken|) == Kept(q, p, n)
    && |taken| + |kept| + |rest| == |q|
  }

  lemma ScanStep<T>(q: seq<T>, p: T -> bool, n: nat, taken: seq<T>, kept: seq<T>, rest: seq<T>)
    requires Scanning(q, p, n, taken, kept, rest) && rest != []
    ensures if |taken| < n && p(rest[0]) then Scanning(q, p, n, taken + [rest[0]], kept, rest[1..])
            else Scanning(q, p, n, taken, kept + [rest[0]], rest[1..])
  {
    var x := rest[0];
    if |taken| < n && p(x) {
      assert taken + ([x] + Selected(rest[1..], p, n - |taken| - 1)) == taken + [x] + Selected(rest[1..], p, n - |taken| - 1);
    } else {
      assert kept + ([x] + Kept(rest[1..], p, n - |taken|)) == kept + [x] + Kept(rest[1..], p, n - |taken|);
    }
  }

  // ---------- Filters ----------

  datatype Filter = Filter(channel: string, reason: string, sessionId: string, key: string) {
    predicate Matches(e: OutboundEvent, sha: Digest) {
      && (channel == "" || e.channel == channel)
      && (reason == "" || e.deadLetterReason == reason)
      && (sessionId == "" || e.sessionId == sessionId)
      && (key == "" || BusKey(e, sha) == key)
    }

    /** A drain strips all four texts; a replay leaves the key as it is. */
    function ForDrain(): Filter {
      Filter(Strip(channel), Strip(reason), Strip(sessionId), Strip(key))
    }

    function ForReplay(): Filter {
      Filter(Strip(channel), Strip(reason), Strip(sessionId), key)
    }

    function Predicate(sha: Digest): OutboundEvent -> bool {
      e => Matches(e, sha)
    }
  }

  // ---------- Replayed events ----------

  /** What a new event gets from the clock and the id generator. */
  datatype Stamp = Stamp(createdAt: string, correlationId: string)

  function Rewritten(e: OutboundEvent, stamp: Stamp): OutboundEvent {
    OutboundEvent(e.channel, e.sessionId, e.target, e.text, e.metadata[REPLAYED_FIELD := Flag(true)],
                  1, e.maxAttempts, e.retryable, false, "", "",
                  stamp.createdAt, 1, stamp.correlationId)
  }

  function ItemOf(e: OutboundEvent): Item<OutboundEvent> {
    Item(Id(e.correlationId), e)
  }

  function RewrittenItems(es: seq<OutboundEvent>, stamps: nat -> Stamp): seq<Item<OutboundEvent>> {
    seq(|es|, i requires 0 <= i < |es| => ItemOf(Rewritten(es[i], stamps(i))))
  }

  lemma PayloadKeepsTime(e: OutboundEvent, stamp: Stamp)
    ensures KeyPayload(Rewritten(e, stamp)) == KeyPayload(e) <==> stamp.createdAt == e.createdAt
  {
    var head := e.channel + "\n" + e.sessionId + "\n" + e.target + "\n" + e.text + "\n";
    assert KeyPayload(e)[|head|..] == e.createdAt;
    assert KeyPayload(Rewritten(e, stamp))[|head|..] == stamp.createdAt;
  }

  /**
   A replay through the bus gives the event a new creation time, and so a new key: the key survives exactly when
   it is explicit or the time is the same.
   */
  lemma BusReplayKeepsKeyIff(e: OutboundEvent, stamp: Stamp, sha: Digest)
    requires Injective(sha)
    ensures BusKey(Rewritten(e, stamp), sha) == BusKey(e, sha)
            <==> ExplicitForBus(e.metadata) != "" || stamp.createdAt == e.createdAt
  {
    var replayed := Rewritten(e, stamp);
    assert KEY_FIELD[1] != REPLAYED_FIELD[1];
    PayloadKeepsTime(e, stamp);
    if ExplicitForBus(e.metadata) == "" && BusKey(replayed, sha) == BusKey(e, sha) {
      assert BusKey(e, sha)[4..] == Hex(sha(KeyPayload(e)));
      assert BusKey(replayed, sha)[4..] == Hex(sha(KeyPayload(replayed)));
      HexInjective(sha(KeyPayload(replayed)), sha(KeyPayload(e)));
    }
  }

  /** What goes out again is the dead letter, marked, under a new time and id, and as a first attempt. */
  lemma ReplayKeepsContent(e: OutboundEvent, stamp: Stamp)
    ensures var x := Rewritten(e, stamp);
            && (x.channel, x.sessionId, x.target, x.text) == (e.channel, e.sessionId, e.target, e.text)
            && x.metadata - {REPLAYED_FIELD} == e.metadata - {REPLAYED_FIELD} && REPLAYED_FIELD in x.metadata
            && x.metadata[REPLAYED_FIELD] == Flag(true)
            && x.attempt == 1 && !x.deadLettered && x.deadLetterReason == x.lastError == ""
            && (x.maxAttempts, x.retryable) == (e.maxAttempts, e.retryable) && Stamp(x.createdAt, x.correlationId) == stamp
  {
  }

  lemma BusKeyIsStripped(e: OutboundEvent, sha: Digest)
    ensures BusKey(e, sha) != "" && Stripped(BusKey(e, sha))
  {
  }

  /** A replay, unlike a drain, compares the wanted key as it is: a padded one finds no event at all, and the drain finds those of the stripped key. */
  lemma PaddedKeyFindsNothing(key: string, e: OutboundEvent, sha: Digest)
    requires !Stripped(key)
    ensures !Filter("", "", "", key).ForReplay().Matches(e, sha)
    ensures Filter("", "", "", key).ForDrain().Matches(e, sha) <==> Strip(key) == "" || BusKey(e, sha) == Strip(key)
  {
    BusKeyIsStripped(e, sha);
  }

  /** A filter asks for channel, reason, session and key one by one, and for nothing that is blank. */
  lemma FilterFinds(channel: string, reason: string, sessionId: string, key: string, e: OutboundEvent, sha: Digest)
    requires Stripped(channel) && Stripped(reason) && Stripped(sessionId) && Stripped(key)
    ensures var f := Filter(channel, reason, sessionId, key);
            && f.ForDrain() == f.ForReplay() == f
            && (f.Matches(e, sha) <==>
                  (channel in ["", e.channel]) && (reason in ["", e.deadLetterReason]) && (sessionId in ["", e.sessionId]) && (key in ["", BusKey(e, sha)]))
  {
  }

  function Enqueued<E>(lane: Lane<E>, item: Item<E>, journaled: bool): Lane<E> {
    if journaled then Published(lane, item) else lane.(queue := lane.queue + [item])
  }

  function EnqueuedAll<E>(lane: Lane<E>, items: seq<Item<E>>, journaled: bool): (r: Lane<E>)
    ensures r.queue == lane.queue + items
  {
    if items == [] then lane
    else Enqueued(EnqueuedAll(lane, items[..|items| - 1], journaled), items[|items| - 1], journaled)
  }

  function CreatedAts(items: seq<Item<OutboundEvent>>): seq<string> {
    seq(|items|, i requires 0 <= i < |items| => items[i].event.createdAt)
  }

  /** A publish that waits for room has done nothing yet. */
  datatype PublishOutcome = Queued | Raised | Waiting

  datatype ReplaySummary = ReplaySummary(scanned: nat, matched: nat, replayed: nat, kept: nat, dropped: nat)

  class MessageQueue {
    const maxsize: nat
    const journaled: bool
    const sha: Digest
    var inbound: Lane<InboundEvent>
    var outbound: Lane<OutboundEvent>
    var outboundCreatedAt: seq<string>
    var deadLetter: seq<OutboundEvent>
    var deadLetterEvents: seq<OutboundEvent>
    var outboundDropped: nat
    var replayAttempts: nat
    var replaySkipped: nat
    var replayDropped: nat

    /** Both mirror deques equal their queues, and the outbound queue respects its capacity. */
    ghost predicate Valid()
      reads this
    {
      && outboundCreatedAt == CreatedAts(outbound.queue)
      && deadLetterEvents == deadLetter
      && (maxsize > 0 ==> |outbound.queue| <= maxsize)
    }

    /** How many more events a queue of this length takes, up to `wanted`. */
    function RoomBeside(queued: nat, wanted: nat): nat {
      if maxsize == 0 then wanted
      else if queued >= maxsize then 0
      else Min(wanted, maxsize - queued)
    }

    function Room(wanted: nat): nat
      reads this
    {
      RoomBeside(|outbound.queue|, wanted)
    }

    constructor (maxsize: nat, journaled: bool, sha: Digest)
      ensures Valid() && this.maxsize == maxsize && this.journaled == journaled && this.sha == sha
      ensures outbound == Lane([], [], map[]) && inbound == Lane([], [], map[]) && deadLetter == []
    {
      this.maxsize, this.journaled, this.sha := maxsize, journaled, sha;
      inbound, outbound := Lane([], [], map[]), Lane([], [], map[]);
      outboundCreatedAt, deadLetter, deadLetterEvents := [], [], [];
      outboundDropped, replayAttempts, replaySkipped, replayDropped := 0, 0, 0, 0;
    }

    /** On a full queue a publish raises with `nowait`, and otherwise waits. */
    method PublishInbound(e: InboundEvent, nowait: bool) returns (outcome: PublishOutcome)
      modifies `inbound
      ensures outcome == if maxsize == 0 || |old(inbound.queue)| < maxsize then Queued else if nowait then Raised else Waiting
      ensures inbound == if outcome.Queued? then Enqueued(old(inbound), Item(Id(e.correlationId), e), journaled) else old(inbound)
    {
      if maxsize > 0 && |inbound.queue| >= maxsize { return if nowait then Raised else Waiting; }
      inbound := Enqueued(inbound, Item(Id(e.correlationId), e), journaled);
      return Queued;
    }

    method NextInbound() returns (e: InboundEvent)
      requires inbound.queue != []
      modifies `inbound
      ensures e == old(inbound.queue)[0].event
      ensures inbound == if journaled then Consumed(old(inbound)) else old(inbound).(queue := old(inbound.queue)[1..])
      ensures inbound.queue == old(inbound.queue)[1..]
    {
      e := inbound.queue[0].event;
      inbound := if journaled then Consumed(inbound) else inbound.(queue := inbound.queue[1..]);
    }

    method PublishOutbound(e: OutboundEvent) returns (taken: bool)
      requires Valid()
      modifies `outbound, `outboundCreatedAt, `outboundDropped
      ensures Valid()
      ensures taken <==> maxsize == 0 || |old(outbound.queue)| < maxsize
      ensures outbound == if taken then Enqueued(old(outbound), ItemOf(e), journaled) else old(outbound)
      ensures outboundDropped == old(outboundDropped) + if taken then 0 else 1
    {
      if maxsize > 0 && |outbound.queue| >= maxsize {
        outboundDropped := outboundDropped + 1;
        return false;
      }
      outbound := Enqueued(outbound, ItemOf(e), journaled);
      outboundCreatedAt := outboundCreatedAt + [e.createdAt];
      return true;
    }

    method NextOutbound() returns (e: OutboundEvent)
      requires Valid() && outbound.queue != []
      modifies `outbound, `outboundCreatedAt
      ensures Valid() && e == old(outbound.queue)[0].event
      ensures outbound == if journaled then Consumed(old(outbound)) else old(outbound).(queue := old(outbound.queue)[1..])
      ensures outbound.queue == old(outbound.queue)[1..]
    {
      e := outbound.queue[0].event;
      if outboundCreatedAt != [] { outboundCreatedAt := outboundCreatedAt[1..]; }
      outbound := if journaled then Consumed(outbound) else outbound.(queue := outbound.queue[1..]);
    }

    method EnqueueDeadLetter(e: OutboundEvent)
      requires Valid()
      modifies `deadLetter, `deadLetterEvents
      ensures Valid() && deadLetter == old(deadLetter) + [e]
    {
      deadLetter := deadLetter + [e];
      deadLetterEvents := deadLetterEvents + [e];
    }

    method RestoreDeadLetters(es: seq<OutboundEvent>) returns (restored: nat)
      requires Valid()
      modifies `deadLetter, `deadLetterEvents
      ensures Valid() && deadLetter == old(deadLetter) + es && restored == |es|
    {
      restored := 0;
      while restored < |es|
        invariant restored <= |es|
        invariant Valid() && deadLetter == old(deadLetter) + es[..restored]
      {
        EnqueueDeadLetter(es[restored]);
        restored := restored + 1;
      }
    }

    method DequeueDeadLetter() returns (e: OutboundEvent)
      requires Valid() && deadLetter != []
      modifies `deadLetter, `deadLetterEvents
      ensures Valid() && e == old(deadLetter)[0] && deadLetter == old(deadLetter)[1..]
    {
      e := deadLetter[0];
      deadLetter := deadLetter[1..];
      if deadLetterEvents != [] { deadLetterEvents := deadLetterEvents[1..]; }
    }

    method DrainDeadLetters(limit: int, f: Filter) returns (selected: seq<OutboundEvent>)
      requires Valid()
      modifies `deadLetter, `deadLetterEvents
      ensures Valid()
      ensures var n := if limit < 0 then 0 else limit;
              && selected == Selected(old(deadLetter), f.ForDrain().Predicate(sha), n)
              && deadLetter == Kept(old(deadLetter), f.ForDrain().Predicate(sha), n)
    {
      if limit <= 0 { return []; }
      var filter := f.ForDrain();
      var p := filter.Predicate(sha);
      selected := [];
      var toKeep: seq<OutboundEvent> := [];
      for i := 0 to |deadLetter|
        invariant Valid() && |deadLetter| == |old(deadLetter)| - i
        invariant Scanning(old(deadLetter), p, limit, selected, toKeep, deadLetter)
      {
        ScanStep(old(deadLetter), p, limit, selected, toKeep, deadLetter);
        var dead := DequeueDeadLetter();
        if |selected| < limit && p(dead) {
          selected := selected + [dead];
        } else {
          toKeep := toKeep + [dead];
        }
      }
      var _ := RestoreDeadLetters(toKeep);
    }

    /** How many dead letters a replay may move. */
    function ReplayCount(limit: int, dryRun: bool): nat
      reads this
    {
      if dryRun || limit <= 0 then 0 else Room(limit)
    }

    method ReplayOne(dead: OutboundEvent, stamp: Stamp, matches: bool, allowed: bool) returns (moved: bool)
      requires Valid() && (allowed ==> matches)
      modifies `outbound, `outboundCreatedAt, `outboundDropped, `replayAttempts, `replaySkipped, `replayDropped
      ensures Valid()
      ensures moved <==> allowed && (maxsize == 0 || |old(outbound.queue)| < maxsize)
      ensures outbound == if moved then Enqueued(old(outbound), ItemOf(Rewritten(dead, stamp)), journaled) else old(outbound)
      ensures replaySkipped == old(replaySkipped) + if matches && !allowed then 1 else 0
      ensures replayAttempts == old(replayAttempts) + if allowed then 1 else 0
      ensures replayDropped == old(replayDropped) + if allowed && !moved then 1 else 0
    {
      if !matches { return false; }
      if !allowed {
        replaySkipped := replaySkipped + 1;
        return false;
      }
      replayAttempts := replayAttempts + 1;
      moved := PublishOutbound(Rewritten(dead, stamp));
      if !moved { replayDropped := replayDropped + 1; }
    }

    /** The next dead letter, moved or not; `refused` says that it may move and there is no room. */
    method ReplayNext(may: bool, p: OutboundEvent -> bool, stamp: Stamp)
      returns (dead: OutboundEvent, matches: bool, moved: bool, refused: bool)
      requires Valid() && deadLetter != []
      modifies this
      ensures Valid() && dead == old(deadLetter)[0] && deadLetter == old(deadLetter)[1..]
      ensures matches == p(dead) && moved == (matches && may && old(Room(1)) == 1) && refused == (matches && may && !moved)
      ensures outbound == if moved then Enqueued(old(outbound), ItemOf(Rewritten(dead, stamp)), journaled) else old(outbound)
    {
      dead := DequeueDeadLetter();
      matches := p(dead);
      moved := ReplayOne(dead, stamp, matches, matches && may);
      refused := matches && may && !moved;
    }

    /** One pass over the dead letters: move what may be moved, and hand back the rest in order. */
    method ReplayScan(limit: nat, p: OutboundEvent -> bool, dryRun: bool, stamps: nat -> Stamp)
      returns (replayed: seq<OutboundEvent>, toKeep: seq<OutboundEvent>, matched: nat, dropped: nat)
      requires Valid()
      modifies this
      ensures Valid() && deadLetter == []
      ensures var n := old(ReplayCount(limit, dryRun));
              && replayed == Selected(old(deadLetter), p, n) && toKeep == Kept(old(deadLetter), p, n)
              && outbound == EnqueuedAll(old(outbound), RewrittenItems(replayed, stamps), journaled)
              && |replayed| + |toKeep| == |old(deadLetter)|
              && matched == |Matching(old(deadLetter), p)| && |replayed| <= matched
              && dropped == (if dryRun || n == limit then 0 else matched - |replayed|)
    {
      ghost var n := ReplayCount(limit, dryRun);
      replayed, toKeep, matched, dropped := [], [], 0, 0;
      for i := 0 to |deadLetter|
        invariant Valid() && |deadLetter| == |old(deadLetter)| - i
        invariant Scanning(old(deadLetter), p, n, replayed, toKeep, deadLetter)
        invariant outbound == EnqueuedAll(old(outbound), RewrittenItems(replayed, stamps), journaled)
        invariant matched + |Matching(deadLetter, p)| == |Matching(old(deadLetter), p)| && |replayed| <= matched
        invariant dropped == if dryRun || n == limit then 0 else matched - |replayed|
      {
        ScanStep(old(deadLetter), p, n, replayed, toKeep, deadLetter);
        assert |Matching(deadLetter, p)| == |Matching(deadLetter[1..], p)| + if p(deadLetter[0]) then 1 else 0;
        var dead, matches, moved, refused := ReplayNext(!dryRun && |replayed| < limit, p, stamps(|replayed|));
        if moved {
          EnqueueOneMore(old(outbound), replayed, dead, stamps, journaled);
          replayed := replayed + [dead];
        } else {
          toKeep := toKeep + [dead];
        }
        matched := matched + if matches then 1 else 0;
        dropped := dropped + if refused then 1 else 0;
      }
    }

    /** Replay moves the first matches, as many as the limit and the room allow, and keeps everything else in order. */
    method ReplayDeadLetters(limit: int, f: Filter, dryRun: bool, stamps: nat -> Stamp) returns (s: ReplaySummary)
      requires Valid()
      modifies this
      ensures Valid()
      ensures var p, n := f.ForReplay().Predicate(sha), old(ReplayCount(limit, dryRun));
              && outbound == EnqueuedAll(old(outbound), RewrittenItems(Selected(old(deadLetter), p, n), stamps), journaled)
              && deadLetter == Kept(old(deadLetter), p, n)
              && s.scanned == |old(deadLetter)| && s.matched == |Matching(old(deadLetter), p)|
              && s.replayed == |Selected(old(deadLetter), p, n)| && s.kept == |deadLetter|
              && s.dropped == (if dryRun || limit <= 0 || n == limit then 0 else s.matched - s.replayed)
              && s.scanned == s.replayed + s.kept
      ensures s.replayed == if dryRun || limit <= 0 then 0
                            else if maxsize == 0 then Min(limit, s.matched) else Min(Min(limit, maxsize - |old(outbound.queue)|), s.matched)
    {
      var size := |deadLetter|;
      SelectedIsPrefix(deadLetter, f.ForReplay().Predicate(sha), ReplayCount(limit, dryRun));
      var replayed, toKeep, matched, dropped := ReplayScan(if limit < 0 then 0 else limit, f.ForReplay().Predicate(sha), dryRun, stamps);
      var _ := RestoreDeadLetters(toKeep);
      s := ReplaySummary(size, matched, |replayed|, |toKeep|, dropped);
    }

    method NextDeadLetter() returns (e: OutboundEvent)
      requires Valid() && deadLetter != []
      modifies `deadLetter, `deadLetterEvents
      ensures Valid() && e == old(deadLetter)[0] && deadLetter == old(deadLetter)[1..]
    {
      e := DequeueDeadLetter();
    }
  }

  lemma EnqueueOneMore(lane: Lane<OutboundEvent>, es: seq<OutboundEvent>, e: OutboundEvent, stamps: nat -> Stamp, journaled: bool)
    ensures EnqueuedAll(lane, RewrittenItems(es + [e], stamps), journaled)
            == Enqueued(EnqueuedAll(lane, RewrittenItems(es, stamps), journaled), ItemOf(Rewritten(e, stamps(|es|))), journaled)
  {
    var items := RewrittenItems(es + [e], stamps);
    assert items[..|items| - 1] == RewrittenItems(es, stamps);
  }

  /** Drain and replay agree: both take a prefix of the matches, and never more than asked for. */
  lemma ReplayIsBoundedDrain(q: seq<OutboundEvent>, p: OutboundEvent -> bool, limit: nat, room: nat)
    ensures |Selected(q, p, Min(limit, room))| <= limit
    ensures Selected(q, p, Min(limit, room)) <= Selected(q, p, limit)
  {
    SelectedIsPrefix(q, p, limit);
    SelectedIsPrefix(q, p, Min(limit, room));
  }
}
