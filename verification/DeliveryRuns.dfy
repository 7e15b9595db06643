/** Every sequence of deliveries, replays, reloads, restarts and kills: the policy is obeyed, and nothing is made up or altered. */
module DeliveryRuns {
  import opened Wrappers
  import opened PyStrings
  import opened Events
  import opened BusQueue
  import IC = IdempotencyCache
  import opened AtMostOnce
  import opened Delivery
  import opened DeadLetterReplay
  import opened DeliveryProvenance

  // ---------- The policy ----------

  /** `_delivery_allowed`: progress messages and tool hints go out only if they are switched on and the channel shows them. */
  datatype Policy = Policy(sendProgress: bool, sendToolHints: bool, showsProgress: set<string>, showsToolHints: set<string>) {
    predicate Allows(e: OutboundEvent) {
      if !Marked(e, "_progress") then true
      else if Marked(e, "_tool_hint") then sendToolHints && e.channel in showsToolHints
      else sendProgress && e.channel in showsProgress
    }
  }

  predicate Marked(e: OutboundEvent, field: string) {
    field in e.metadata && e.metadata[field].Truthy()
  }

  /** Only a progress message is ever dropped: a tool hint where hints are off, any other where progress is off. */
  lemma DroppedIff(o: Office, e: OutboundEvent, u: Setup, policy: Policy)
    requires forall x :: u.allowed(x) == policy.Allows(x)
    ensures AfterPublish(o, e, u).1.Dropped? <==>
              && e.channel in u.channels && Marked(e, "_progress")
              && (Marked(e, "_tool_hint") ==> !policy.sendToolHints || e.channel !in policy.showsToolHints)
              && (!Marked(e, "_tool_hint") ==> !policy.sendProgress || e.channel !in policy.showsProgress)
  {
    DeliveryTells(o, e, u);
  }

  // ---------- What every run keeps ----------

  /** The event went out for one that the policy allowed and whose channel was there. */
  ghost predicate Permitted(x: OutboundEvent, u: Setup) {
    exists e: OutboundEvent :: e.channel in u.channels && u.allowed(e) && GoesOutAs(e, x, u.sha)
  }

  /** Some offered event has the key of the send. */
  ghost predicate WasOffered(s: Sent, offered: seq<OutboundEvent>, keyOf: OutboundEvent -> IC.Key) {
    exists j :: 0 <= j < |offered| && keyOf(offered[j]) == s.key
  }

  function KeyOf(sha: Digest): OutboundEvent -> IC.Key {
    (e: OutboundEvent) => IC.Key(SenderKey(e, sha))
  }

  /** One call for each offered event, each for a permitted one, and no send that was not offered. */
  ghost predicate Obeys(o: Office, u: Setup) {
    && o.calls == |o.offered|
    && (forall i :: 0 <= i < |o.offered| ==> Permitted(o.offered[i], u))
    && (forall i :: 0 <= i < |o.sent| ==> WasOffered(o.sent[i], o.offered, KeyOf(u.sha)))
  }

  lemma OffersArePermitted(e: OutboundEvent, from: nat, more: seq<OutboundEvent>, u: Setup)
    requires Offers(e, from, more, u) && (more != [] ==> e.channel in u.channels && u.allowed(e))
    ensures forall i :: 0 <= i < |more| ==> Permitted(more[i], u) && SenderKey(more[i], u.sha) == SenderKey(e, u.sha)
  {
    forall i | 0 <= i < |more| ensures Permitted(more[i], u) && SenderKey(more[i], u.sha) == SenderKey(e, u.sha) {
      OffersAre(e, from, more, i, u);
    }
  }

  lemma StillOffered(s: Sent, offered: seq<OutboundEvent>, more: seq<OutboundEvent>, keyOf: OutboundEvent -> IC.Key)
    requires WasOffered(s, offered, keyOf)
    ensures WasOffered(s, offered + more, keyOf)
  {
    var j :| 0 <= j < |offered| && keyOf(offered[j]) == s.key;
    assert (offered + more)[j] == offered[j];
  }

  lemma SentWasOffered(s: Sent, offered: seq<OutboundEvent>, more: seq<OutboundEvent>, keyOf: OutboundEvent -> IC.Key)
    requires more != [] && keyOf(more[0]) == s.key
    ensures WasOffered(s, offered + more, keyOf)
  {
    assert (offered + more)[|offered|] == more[0];
  }

  /** The log is the old one, or has one more send, under this event's key. */
  ghost predicate LogGrows(before: seq<Sent>, after: seq<Sent>, key: IC.Key) {
    after == before || (|after| == |before| + 1 && after[..|before|] == before && after[|before|].key == key)
  }

  lemma LogWasOffered(before: seq<Sent>, after: seq<Sent>, key: IC.Key, offered: seq<OutboundEvent>, more: seq<OutboundEvent>, keyOf: OutboundEvent -> IC.Key)
    requires forall i :: 0 <= i < |before| ==> WasOffered(before[i], offered, keyOf)
    requires LogGrows(before, after, key) && (after != before ==> more != [] && keyOf(more[0]) == key)
    ensures forall i :: 0 <= i < |after| ==> WasOffered(after[i], offered + more, keyOf)
  {
    forall i | 0 <= i < |after| ensures WasOffered(after[i], offered + more, keyOf) {
      if i < |before| {
        assert after[i] == before[i];
        StillOffered(before[i], offered, more, keyOf);
      } else {
        SentWasOffered(after[i], offered, more, keyOf);
      }
    }
  }

  /** What a delivery adds to a state keeps it obedient. */
  lemma AddingObeys(o: Office, e: OutboundEvent, more: seq<OutboundEvent>, after: Office, u: Setup)
    requires Obeys(o, u) && after.offered == o.offered + more && after.calls == o.calls + |more|
    requires Offers(e, o.calls, more, u) && (more != [] ==> e.channel in u.channels && u.allowed(e))
    requires LogGrows(o.sent, after.sent, KeyOf(u.sha)(e)) && (after.sent != o.sent ==> more != [])
    ensures Obeys(after, u)
  {
    OffersArePermitted(e, o.calls, more, u);
    LogWasOffered(o.sent, after.sent, KeyOf(u.sha)(e), o.offered, more, KeyOf(u.sha));
    PermittedExtends(o.offered, more, u);
  }

  lemma PermittedExtends(offered: seq<OutboundEvent>, more: seq<OutboundEvent>, u: Setup)
    requires forall i :: 0 <= i < |offered| ==> Permitted(offered[i], u)
    requires forall i :: 0 <= i < |more| ==> Permitted(more[i], u)
    ensures forall i :: 0 <= i < |offered + more| ==> Permitted((offered + more)[i], u)
  {
  }

  lemma PublishAdds(o: Office, e: OutboundEvent, u: Setup)
    ensures var after := AfterPublish(o, e, u).0; LogGrows(o.sent, after.sent, KeyOf(u.sha)(e)) && (after.sent != o.sent ==> after.calls > o.calls)
  {
    DeliveryTells(o, e, u);
  }

  lemma PublishObeys(o: Office, e: OutboundEvent, u: Setup)
    requires Obeys(o, u)
    ensures Obeys(AfterPublish(o, e, u).0, u)
  {
    var more := DeliveryOffers(o, e, u);
    PublishAdds(o, e, u);
    AddingObeys(o, e, more, AfterPublish(o, e, u).0, u);
  }

  /** A kill changes of a delivery's traces only that the key was not saved. */
  lemma KillObeys(o: Office, e: OutboundEvent, dead: seq<OutboundEvent>, u: Setup)
    requires Obeys(o, u)
    ensures Obeys(AfterKill(o, e, dead, u), u)
  {
    var after := AfterPublish(o, e, u).0;
    var more := DeliveryOffers(o, e, u);
    PublishAdds(o, e, u);
    var cut := Unsaved(o, after);
    AddingObeys(o, e, more, cut, u);
    assert AfterKill(o, e, dead, u).offered == cut.offered && AfterKill(o, e, dead, u).sent == cut.sent;
  }

  /** What every turn keeps, any number of turns keeps. */
  lemma {:induction false} TurnsKeepInv(o: Office, matched: seq<OutboundEvent>, n: nat, turn: Turn, inv: (Office, seq<Fate>) -> bool)
    requires n <= |matched| && inv(o, [])
    requires forall o, fates, letter :: inv(o, fates) ==> inv(turn(o, letter).0, fates + [turn(o, letter).1])
    ensures inv(Turns(o, matched, n, turn).0, Turns(o, matched, n, turn).1)
  {
    if n > 0 { TurnsKeepInv(o, matched, n - 1, turn, inv); }
  }

  lemma ReplayObeys(o: Office, matched: seq<OutboundEvent>, n: nat, find: Finder, u: Setup)
    requires n <= |matched| && Obeys(o, u)
    ensures Obeys(ReplayFirst(o, matched, n, find, Publishes(u), u).0, u)
  {
    ghost var inv := (o: Office, fates: seq<Fate>) => Obeys(o, u);
    var turn := TurnOf(find, Publishes(u), u);
    forall o, fates, letter | inv(o, fates) ensures inv(turn(o, letter).0, fates + [turn(o, letter).1]) {
      var drained := Selected(o.dead, find(letter), 1);
      if drained != [] { PublishObeys(o.(dead := Kept(o.dead, find(letter), 1)), Revived(drained[0]), u); }
    }
    TurnsKeepInv(o, matched, n, turn, inv);
  }

  /**
   In every run there is one call for each offered event, each offered event is one that the policy allowed, as it stood
   when it was sent or revived, for a channel that was there, and nothing is sent that was not offered.
   */
  lemma {:induction false} PolicyIsObeyed(jobs: seq<Job>, u: Setup)
    ensures Obeys(AfterJobs(jobs, u), u)
  {
    if jobs != [] {
      var o := AfterJobs(jobs[..|jobs| - 1], u);
      PolicyIsObeyed(jobs[..|jobs| - 1], u);
      match jobs[|jobs| - 1]
      case Send(e) => PublishObeys(o, e, u);
      case Replay(wanted, limit) =>
        var matched := Matching(o.dead, wanted);
        ReplayObeys(o, matched, Min(limit, |matched|), Letters(u.sha), u);
      case Reload =>
      case Restart(dead) =>
      case Kill(e, dead) => KillObeys(o, e, dead, u);
    }
  }

  // ---------- Nothing is made up ----------

  /** Whatever is offered or dead, or set aside in a replay, has a content of this kind. */
  ghost predicate AllAre(o: Office, fates: seq<Fate>, kind: Content -> bool) {
    && (forall i :: 0 <= i < |o.offered| ==> kind(ContentOf(o.offered[i])))
    && (forall i :: 0 <= i < |o.dead| ==> kind(ContentOf(o.dead[i])))
    && (forall i :: 0 <= i < |fates| ==> fates[i].Missing? || kind(ContentOf(fates[i].event)))
  }

  ghost predicate LettersAre(dead: seq<OutboundEvent>, kind: Content -> bool) {
    forall i :: 0 <= i < |dead| ==> kind(ContentOf(dead[i]))
  }

  /** The events a job brings in have a content of this kind. */
  ghost predicate Brings(job: Job, kind: Content -> bool) {
    match job
    case Send(e) => kind(ContentOf(e))
    case Replay(_, _) => true
    case Reload => true
    case Restart(dead) => LettersAre(dead, kind)
    case Kill(e, dead) => kind(ContentOf(e)) && LettersAre(dead, kind)
  }

  lemma PublishIs(o: Office, e: OutboundEvent, fates: seq<Fate>, kind: Content -> bool, u: Setup)
    requires AllAre(o, fates, kind) && kind(ContentOf(e))
    ensures AllAre(AfterPublish(o, e, u).0, fates, kind)
  {
    var (after, v) := AfterPublish(o, e, u);
    var more := DeliveryOffers(o, e, u);
    forall i | 0 <= i < |after.offered| ensures kind(ContentOf(after.offered[i])) {
      if i >= |o.offered| { OffersAre(e, o.calls, more, i - |o.offered|, u); }
    }
    if v.Lost? {
      var d := LostIsKept(o, e, u);
    } else {
      DeliveryTells(o, e, u);
    }
  }

  lemma {:induction false} DrainIsWithin(q: seq<OutboundEvent>, p: OutboundEvent -> bool, kind: Content -> bool)
    requires LettersAre(q, kind)
    ensures LettersAre(Selected(q, p, 1), kind) && LettersAre(Kept(q, p, 1), kind)
  {
    if q != [] && !p(q[0]) {
      assert forall i :: 0 <= i < |q| - 1 ==> q[1..][i] == q[i + 1];
      DrainIsWithin(q[1..], p, kind);
    }
  }

  lemma {:induction false} AsideIs(o: Office, fates: seq<Fate>, kind: Content -> bool)
    requires AllAre(o, fates, kind)
    ensures LettersAre(Aside(fates), kind)
  {
    if fates != [] {
      assert AllAre(o, fates[..|fates| - 1], kind);
      AsideIs(o, fates[..|fates| - 1], kind);
    }
  }

  lemma TurnIs(o: Office, fates: seq<Fate>, same: OutboundEvent -> bool, kind: Content -> bool, u: Setup)
    requires AllAre(o, fates, kind)
    ensures var (after, fate) := ReplayNext(o, same, Publishes(u), u); AllAre(after, fates + [fate], kind)
  {
    var drained := Selected(o.dead, same, 1);
    DrainIsWithin(o.dead, same, kind);
    if drained != [] {
      RevivingKeepsContent(drained[0]);
      PublishIs(o.(dead := Kept(o.dead, same, 1)), Revived(drained[0]), fates, kind, u);
    }
  }

  lemma ReplayIs(o: Office, matched: seq<OutboundEvent>, n: nat, find: Finder, kind: Content -> bool, u: Setup)
    requires n <= |matched| && AllAre(o, [], kind)
    ensures var (after, fates) := ReplayFirst(o, matched, n, find, Publishes(u), u); AllAre(after, fates, kind)
  {
    ghost var inv := (o: Office, fates: seq<Fate>) => AllAre(o, fates, kind);
    var turn := TurnOf(find, Publishes(u), u);
    forall o, fates, letter | inv(o, fates) ensures inv(turn(o, letter).0, fates + [turn(o, letter).1]) {
      TurnIs(o, fates, find(letter), kind, u);
    }
    TurnsKeepInv(o, matched, n, turn, inv);
  }

  lemma ReplayJobIs(o: Office, job: Job, kind: Content -> bool, u: Setup)
    requires AllAre(o, [], kind) && job.Replay?
    ensures AllAre(AfterJob(o, job, u), [], kind)
  {
    var matched := Matching(o.dead, job.wanted);
    var n := Min(job.limit, |matched|);
    ReplayIs(o, matched, n, Letters(u.sha), kind, u);
    var (after, fates) := ReplayFirst(o, matched, n, Letters(u.sha), Publishes(u), u);
    AsideIs(after, fates, kind);
    LettersJoin(after, fates, kind);
  }

  lemma LettersJoin(o: Office, fates: seq<Fate>, kind: Content -> bool)
    requires AllAre(o, fates, kind) && LettersAre(Aside(fates), kind)
    ensures AllAre(o.(dead := o.dead + Aside(fates)), [], kind)
  {
  }

  lemma KillIs(o: Office, e: OutboundEvent, dead: seq<OutboundEvent>, kind: Content -> bool, u: Setup)
    requires AllAre(o, [], kind) && kind(ContentOf(e)) && LettersAre(dead, kind)
    ensures AllAre(AfterKill(o, e, dead, u), [], kind)
  {
    PublishIs(o, e, [], kind, u);
    assert AfterKill(o, e, dead, u).offered == AfterPublish(o, e, u).0.offered;
  }

  lemma JobIs(o: Office, job: Job, kind: Content -> bool, u: Setup)
    requires AllAre(o, [], kind) && Brings(job, kind)
    ensures AllAre(AfterJob(o, job, u), [], kind)
  {
    match job
    case Send(e) => PublishIs(o, e, [], kind, u);
    case Replay(_, _) => ReplayJobIs(o, job, kind, u);
    case Reload => assert AfterReload(o, u).offered == o.offered;
    case Restart(dead) => assert AfterReboot(o, dead, u).offered == o.offered;
    case Kill(e, dead) => KillIs(o, e, dead, kind, u);
  }

  /**
   Whatever is true of the contents that a run brings in, sends and letters restored at a restart, is true of all it
   offers to a channel and all it keeps as dead letters: however often an event is retried, dead-lettered, revived, set
   aside or restored, its channel, session, target, text, time and other metadata stay what they were.
   */
  lemma {:induction false} NothingIsMadeUp(jobs: seq<Job>, kind: Content -> bool, u: Setup)
    requires forall i :: 0 <= i < |jobs| ==> Brings(jobs[i], kind)
    ensures var o := AfterJobs(jobs, u);
            forall x :: x in o.offered + o.dead ==> kind(ContentOf(x))
    ensures AllAre(AfterJobs(jobs, u), [], kind)
  {
    if jobs != [] {
      NothingIsMadeUp(jobs[..|jobs| - 1], kind, u);
      JobIs(AfterJobs(jobs[..|jobs| - 1], u), jobs[|jobs| - 1], kind, u);
    }
  }

  // ---------- What a replay reports ----------

  /** Everything offered from place `n` on is marked as replayed. */
  ghost predicate MarkedFrom(o: Office, n: nat) {
    forall i :: n <= i < |o.offered| ==> IsMarked(o.offered[i])
  }

  predicate IsMarked(e: OutboundEvent) {
    REPLAYED_FIELD in e.metadata && e.metadata[REPLAYED_FIELD] == Flag(true)
  }

  lemma MarkGoesOut(e: OutboundEvent, x: OutboundEvent)
    requires IsMarked(e) && x.metadata - {KEY_FIELD} == e.metadata - {KEY_FIELD}
    ensures IsMarked(x)
  {
    assert KEY_FIELD[1] != REPLAYED_FIELD[1];
    assert REPLAYED_FIELD in (x.metadata - {KEY_FIELD});
  }

  lemma RevivedGoesOutMarked(o: Office, d: OutboundEvent, n: nat, u: Setup)
    requires MarkedFrom(o, n) && n <= |o.offered|
    ensures MarkedFrom(AfterPublish(o, Revived(d), u).0, n) && n <= |AfterPublish(o, Revived(d), u).0.offered|
  {
    var more := DeliveryOffers(o, Revived(d), u);
    RevivingKeepsContent(d);
    forall i | 0 <= i < |more| ensures IsMarked(more[i]) {
      OffersAre(Revived(d), o.calls, more, i, u);
      MarkGoesOut(Revived(d), more[i]);
    }
    MarkedExtends(o, more, AfterPublish(o, Revived(d), u).0, n);
  }

  lemma MarkedExtends(o: Office, more: seq<OutboundEvent>, after: Office, n: nat)
    requires MarkedFrom(o, n) && n <= |o.offered| && after.offered == o.offered + more
    requires forall i :: 0 <= i < |more| ==> IsMarked(more[i])
    ensures MarkedFrom(after, n)
  {
  }

  /** Whatever a replay sends is marked as replayed. */
  lemma ReplayMarks(o: Office, matched: seq<OutboundEvent>, n: nat, find: Finder, u: Setup)
    requires n <= |matched|
    ensures MarkedFrom(ReplayFirst(o, matched, n, find, Publishes(u), u).0, |o.offered|)
  {
    ghost var inv := (x: Office, fates: seq<Fate>) => |o.offered| <= |x.offered| && MarkedFrom(x, |o.offered|);
    var turn := TurnOf(find, Publishes(u), u);
    forall x, fates, letter | inv(x, fates) ensures inv(turn(x, letter).0, fates + [turn(x, letter).1]) {
      var drained := Selected(x.dead, find(letter), 1);
      if drained != [] { RevivedGoesOutMarked(x.(dead := Kept(x.dead, find(letter), 1)), drained[0], |o.offered|, u); }
    }
    TurnsKeepInv(o, matched, n, turn, inv);
  }

  /** The letters that the policy dropped when they were published again; they count as replayed. */
  function Forbidden(fates: seq<Fate>, u: Setup): nat {
    if fates == [] then 0
    else
      var last := fates[|fates| - 1];
      Forbidden(fates[..|fates| - 1], u) + if last.Resent? && !u.allowed(Revived(last.event)) then 1 else 0
  }

  /** How far the report is from what was sent and suppressed. */
  function Gap(o: Office, fates: seq<Fate>, u: Setup): (int, int) {
    (|o.sent| + Forbidden(fates, u) - Tallied(fates).replayed, o.suppressed - Tallied(fates).suppressed)
  }

  /** What the fate of a letter says of the sends and the suppressions. */
  ghost predicate FateTells(o: Office, after: Office, fate: Fate, u: Setup) {
    && |after.sent| == |o.sent| + (if fate.Resent? && u.allowed(Revived(fate.event)) then 1 else 0)
    && after.suppressed == o.suppressed + if fate.Hushed? then 1 else 0
  }

  lemma VerdictTells(o: Office, d: OutboundEvent, u: Setup)
    ensures var (after, v) := AfterPublish(o, Revived(d), u); FateTells(o, after, FateOf(v, d), u)
  {
    DeliveryTells(o, Revived(d), u);
  }

  lemma TurnTells(o: Office, same: OutboundEvent -> bool, u: Setup)
    ensures var (after, fate) := ReplayNext(o, same, Publishes(u), u); FateTells(o, after, fate, u)
  {
    var drained := Selected(o.dead, same, 1);
    if drained != [] && drained[0].channel in u.channels { VerdictTells(o.(dead := Kept(o.dead, same, 1)), drained[0], u); }
  }

  lemma TurnKeepsGap(o: Office, after: Office, fates: seq<Fate>, fate: Fate, u: Setup)
    requires FateTells(o, after, fate, u)
    ensures Gap(after, fates + [fate], u) == Gap(o, fates, u)
  {
    assert (fates + [fate])[..|fates|] == fates;
  }

  /** The report tells the truth: as many letters were sent as it calls replayed, but for those the policy forbids, and as many suppressed as it says. */
  lemma ReportIsTrue(o: Office, matched: seq<OutboundEvent>, n: nat, find: Finder, u: Setup)
    requires n <= |matched|
    ensures var (after, fates) := ReplayFirst(o, matched, n, find, Publishes(u), u);
            && Tallied(fates).replayed == |after.sent| - |o.sent| + Forbidden(fates, u)
            && Tallied(fates).suppressed == after.suppressed - o.suppressed
  {
    var turn := TurnOf(find, Publishes(u), u);
    var gap := (o: Office, fates: seq<Fate>) => Gap(o, fates, u);
    forall o, fates, letter ensures gap(turn(o, letter).0, fates + [turn(o, letter).1]) == gap(o, fates) {
      TurnTells(o, find(letter), u);
      TurnKeepsGap(o, turn(o, letter).0, fates, turn(o, letter).1, u);
    }
    TurnsKeep(o, matched, n, turn, gap);
  }
}
