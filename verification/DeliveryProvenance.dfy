/**
 Where everything that is sent comes from: the policy is obeyed, nothing is made up or altered on the way, and every
 delivery ends in exactly one of four ways, each with its reason.
 */
module DeliveryProvenance {
  import opened Wrappers
  import opened PyStrings
  import opened Events
  import opened BusQueue
  import IC = IdempotencyCache
  import opened AtMostOnce
  import opened Delivery
  import opened DeadLetterReplay

  // ---------- The content of an event ----------

  /** What a recipient gets, and what tells one message from another; the rest is bookkeeping of the delivery. */
  datatype Content = Content(
    channel: string, sessionId: string, target: string, text: string, createdAt: string, correlationId: string, notes: Metadata)

  function ContentOf(e: OutboundEvent): Content {
    Content(e.channel, e.sessionId, e.target, e.text, e.createdAt, e.correlationId, e.metadata - {KEY_FIELD, REPLAYED_FIELD})
  }

  /** `x` is `e` on its way out: only the key, the counters and the last error may differ. */
  predicate GoesOutAs(e: OutboundEvent, x: OutboundEvent, sha: Digest) {
    && ContentOf(x) == ContentOf(e) && x.metadata - {KEY_FIELD} == e.metadata - {KEY_FIELD}
    && SenderKey(x, sha) == SenderKey(e, sha) && !x.deadLettered && x.deadLetterReason == ""
  }

  lemma EnsuringKeepsContent(e: OutboundEvent, sha: Digest)
    ensures var x := Ensured(e, sha).0;
            ContentOf(x) == ContentOf(e) && x.metadata - {KEY_FIELD} == e.metadata - {KEY_FIELD} && x.channel == e.channel
  {
    var x := Ensured(e, sha).0;
    assert x.metadata - {KEY_FIELD} == e.metadata - {KEY_FIELD};
    assert x.metadata - {KEY_FIELD, REPLAYED_FIELD} == e.metadata - {KEY_FIELD, REPLAYED_FIELD};
  }

  lemma RevivingKeepsContent(d: OutboundEvent)
    ensures ContentOf(Revived(d)) == ContentOf(d)
    ensures REPLAYED_FIELD in Revived(d).metadata && Revived(d).metadata[REPLAYED_FIELD] == Flag(true)
  {
    assert Revived(d).metadata - {KEY_FIELD, REPLAYED_FIELD} == d.metadata - {KEY_FIELD, REPLAYED_FIELD};
  }

  lemma DyingKeepsContent(e: OutboundEvent, sha: Digest, attempts: nat, retryable: bool, reason: string, error: string)
    ensures ContentOf(Dead(Ensured(e, sha).0, attempts, retryable, reason, error)) == ContentOf(e)
  {
    EnsuringKeepsContent(e, sha);
  }

  lemma AttemptGoesOut(e: OutboundEvent, failures: nat, from: nat, u: Setup)
    requires e.channel in u.channels
    ensures GoesOutAs(e, Attempt(Ensured(e, u.sha).0, failures, from, u), u.sha)
  {
    EnsuringKeepsContent(e, u.sha);
    EnsuringKeepsKeys(e, u.sha);
  }

  // ---------- One delivery ----------

  /** How often a channel may be tried, in numbers. */
  function MayTry(u: Setup, channel: string): nat
    requires channel in u.channels
  {
    if u.channels[channel] && u.sendMaxAttempts >= 1 then u.sendMaxAttempts else 1
  }

  /** The cache suppresses the event's key at the next reading of the clock. */
  predicate IsKnown(o: Office, e: OutboundEvent, u: Setup) {
    IC.Checked(o.cache, IC.Key(SenderKey(e, u.sha)), u.clock(o.ticks), u.idem).1
  }

  /** Exactly `f` calls failed, and then one succeeded unless no try was left. */
  ghost predicate Called(from: nat, to: nat, tries: nat, f: nat, u: Setup) {
    && f <= tries && AllFail(u.answer, from, f) && to == from + (if f < tries then f + 1 else f)
    && (f < tries ==> u.answer(from + f).Success?)
  }

  /** A delivery whose key is known. */
  lemma KnownTells(o: Office, e: OutboundEvent, k: IC.Key, u: Setup)
    requires e.channel in u.channels && IC.Checked(o.cache, k, u.clock(o.ticks), u.idem).1
    ensures var (after, v) := AfterKeyed(o, e, k, u);
            && v.Suppressed? && after.calls == o.calls && after.sent == o.sent && after.dead == o.dead && after.saved == o.saved
            && after.offered == o.offered && after.suppressed == o.suppressed + 1
  {
  }

  lemma TriedIs(o: Office, e: OutboundEvent, k: IC.Key, u: Setup) returns (f: nat)
    requires e.channel in u.channels && !IC.Checked(o.cache, k, u.clock(o.ticks), u.idem).1
    ensures AfterKeyed(o, e, k, u) == AfterOutcome(Tried(o, e, k, f, u), e, k, u.clock(o.ticks), f, o.calls, u)
    ensures Called(o.calls, Tried(o, e, k, f, u).calls, MayTry(u, e.channel), f, u)
  {
    KeyedIsTried(o, e, k, u);
    f := Failures(u.answer, o.calls, u.Tries(e.channel));
  }

  lemma OutcomeTells(t: Office, e: OutboundEvent, k: IC.Key, checkedAt: int, f: nat, from: nat, u: Setup)
    requires e.channel in u.channels
    ensures var (after, v) := AfterOutcome(t, e, k, checkedAt, f, from, u);
            && after.calls == t.calls && after.offered == t.offered && after.suppressed == t.suppressed
            && if f < MayTry(u, e.channel)
               then v.Confirmed? && after.dead == t.dead && after.sent == t.sent + [Sent(k, checkedAt, u.clock(t.ticks), true)]
               else v.Lost? && after.sent == t.sent && after.saved == t.saved && after.dead == t.dead + [FailedEvent(e, from, f, u)]
  {
  }

  /** A delivery whose key is not known: `f` calls failed. */
  lemma UnknownTells(o: Office, e: OutboundEvent, k: IC.Key, u: Setup) returns (f: nat)
    requires e.channel in u.channels && !IC.Checked(o.cache, k, u.clock(o.ticks), u.idem).1
    ensures var (after, v) := AfterKeyed(o, e, k, u);
            && Called(o.calls, after.calls, MayTry(u, e.channel), f, u) && after.suppressed == o.suppressed
            && after.offered == o.offered + AttemptEvents(e, after.calls - o.calls, o.calls, u)
            && if f < MayTry(u, e.channel)
               then v.Confirmed? && after.dead == o.dead && after.sent == o.sent + [Sent(k, u.clock(o.ticks), u.clock(o.ticks + 1), true)]
               else v.Lost? && after.sent == o.sent && after.saved == o.saved && after.dead == o.dead + [FailedEvent(e, o.calls, f, u)]
  {
    f := TriedIs(o, e, k, u);
    OutcomeTells(Tried(o, e, k, f, u), e, k, u.clock(o.ticks), f, o.calls, u);
  }

  /** What a verdict says of the event, of the calls made, and of what changed. */
  ghost predicate Tells(o: Office, e: OutboundEvent, after: Office, v: Verdict, u: Setup) {
    match v
    case Dropped => e.channel in u.channels && !u.allowed(e) && after == o
    case Suppressed(_) =>
      && e.channel in u.channels && u.allowed(e) && IsKnown(o, e, u) && after.calls == o.calls
      && after.sent == o.sent && after.dead == o.dead && after.saved == o.saved && after.suppressed == o.suppressed + 1
    case Confirmed(_) =>
      && e.channel in u.channels && u.allowed(e) && !IsKnown(o, e, u)
      && o.calls < after.calls <= o.calls + MayTry(u, e.channel)
      && AllFail(u.answer, o.calls, after.calls - o.calls - 1) && u.answer(after.calls - 1).Success?
      && after.sent == o.sent + [Sent(IC.Key(SenderKey(e, u.sha)), u.clock(o.ticks), u.clock(o.ticks + 1), true)]
      && after.dead == o.dead && after.suppressed == o.suppressed
    case Lost =>
      && after.sent == o.sent && after.saved == o.saved && after.suppressed == o.suppressed && o.calls <= after.calls
      && if e.channel in u.channels
         then u.allowed(e) && !IsKnown(o, e, u) && after.calls == o.calls + MayTry(u, e.channel)
              && AllFail(u.answer, o.calls, after.calls - o.calls)
         else after.calls == o.calls
  }

  lemma AllowedIsKeyed(o: Office, e: OutboundEvent, u: Setup)
    requires e.channel in u.channels && u.allowed(e)
    ensures Ensured(e, u.sha).0.channel == e.channel
    ensures AfterPublish(o, e, u) == AfterKeyed(o, Ensured(e, u.sha).0, IC.Key(SenderKey(e, u.sha)), u)
  {
  }

  lemma KnownDeliveryTells(o: Office, e: OutboundEvent, u: Setup)
    requires e.channel in u.channels && u.allowed(e) && IsKnown(o, e, u)
    ensures Tells(o, e, AfterPublish(o, e, u).0, AfterPublish(o, e, u).1, u)
  {
    AllowedIsKeyed(o, e, u);
    KnownTells(o, Ensured(e, u.sha).0, IC.Key(SenderKey(e, u.sha)), u);
  }

  lemma CallsTell(o: Office, e: OutboundEvent, after: Office, v: Verdict, f: nat, u: Setup)
    requires e.channel in u.channels && u.allowed(e) && !IsKnown(o, e, u)
    requires Called(o.calls, after.calls, MayTry(u, e.channel), f, u) && after.suppressed == o.suppressed
    requires if f < MayTry(u, e.channel)
             then v.Confirmed? && after.dead == o.dead
                  && after.sent == o.sent + [Sent(IC.Key(SenderKey(e, u.sha)), u.clock(o.ticks), u.clock(o.ticks + 1), true)]
             else v.Lost? && after.sent == o.sent && after.saved == o.saved
    ensures Tells(o, e, after, v, u)
  {
  }

  lemma UnknownDeliveryTells(o: Office, e: OutboundEvent, u: Setup)
    requires e.channel in u.channels && u.allowed(e) && !IsKnown(o, e, u)
    ensures Tells(o, e, AfterPublish(o, e, u).0, AfterPublish(o, e, u).1, u)
  {
    AllowedIsKeyed(o, e, u);
    var f := UnknownTells(o, Ensured(e, u.sha).0, IC.Key(SenderKey(e, u.sha)), u);
    CallsTell(o, e, AfterPublish(o, e, u).0, AfterPublish(o, e, u).1, f, u);
  }

  /**
   Every delivery ends in one of four ways, and each tells why: the policy forbids it and nothing happens; its key is
   known and nothing is sent; a call succeeded after others failed; or there is no channel, or every permitted call failed.
   */
  lemma DeliveryTells(o: Office, e: OutboundEvent, u: Setup)
    ensures Tells(o, e, AfterPublish(o, e, u).0, AfterPublish(o, e, u).1, u)
    ensures e.channel in u.channels && !u.allowed(e) ==> AfterPublish(o, e, u) == (o, Dropped)
  {
    if e.channel in u.channels && u.allowed(e) {
      if IsKnown(o, e, u) { KnownDeliveryTells(o, e, u); } else { UnknownDeliveryTells(o, e, u); }
    }
  }

  /** The dead letter a lost event leaves: the event, with the reason and the last error. */
  ghost predicate Mourns(e: OutboundEvent, d: OutboundEvent, calls: nat, u: Setup) {
    && ContentOf(d) == ContentOf(e) && d.deadLettered
    && if e.channel in u.channels
       then d.deadLetterReason == "send_failed" && d.attempt == (if u.sendMaxAttempts < 1 then 1 else u.sendMaxAttempts)
            && calls > 0 && u.answer(calls - 1) == Failure(d.lastError)
       else d.deadLetterReason == "channel_unavailable" && d.attempt == 1
  }

  lemma FailedEventMourns(e: OutboundEvent, from: nat, u: Setup)
    requires e.channel in u.channels && AllFail(u.answer, from, MayTry(u, e.channel))
    ensures Mourns(e, FailedEvent(Ensured(e, u.sha).0, from, MayTry(u, e.channel), u), from + MayTry(u, e.channel), u)
  {
    var f := MayTry(u, e.channel);
    assert u.answer(from + f - 1).Failure?;
    DyingKeepsContent(e, u.sha, u.MaxAttempts(), u.channels[e.channel], "send_failed", LastError(u, from, f));
  }

  /** A lost event is the last dead letter, and no other letter changes. */
  lemma LostIsKept(o: Office, e: OutboundEvent, u: Setup) returns (d: OutboundEvent)
    requires AfterPublish(o, e, u).1.Lost?
    ensures var after := AfterPublish(o, e, u).0; after.dead == o.dead + [d] && Mourns(e, d, after.calls, u)
  {
    DeliveryTells(o, e, u);
    if e.channel in u.channels {
      AllowedIsKeyed(o, e, u);
      var f := UnknownTells(o, Ensured(e, u.sha).0, IC.Key(SenderKey(e, u.sha)), u);
      d := FailedEvent(Ensured(e, u.sha).0, o.calls, f, u);
      FailedEventMourns(e, o.calls, u);
    } else {
      d := Dead(Ensured(e, u.sha).0, 1, false, "channel_unavailable", "channel unavailable");
      DyingKeepsContent(e, u.sha, 1, false, "channel_unavailable", "channel unavailable");
    }
  }

  /** The event as it is offered for the call after `n` failed ones. */
  predicate IsOffer(e: OutboundEvent, from: nat, n: nat, x: OutboundEvent, u: Setup) {
    && GoesOutAs(e, x, u.sha) && x.attempt == n + 1
    && (if n == 0 then x.lastError == "" else u.answer(from + n - 1) == Failure(x.lastError))
  }

  function OfferOf(e: OutboundEvent, from: nat, u: Setup): (nat, OutboundEvent) -> bool {
    (n: nat, x: OutboundEvent) => IsOffer(e, from, n, x, u)
  }

  /** Each event is so at its place. */
  ghost predicate Each(xs: seq<OutboundEvent>, are: (nat, OutboundEvent) -> bool) {
    xs != [] ==> Each(xs[..|xs| - 1], are) && are(|xs| - 1, xs[|xs| - 1])
  }

  lemma {:induction false} EachAt(xs: seq<OutboundEvent>, are: (nat, OutboundEvent) -> bool, i: nat)
    requires Each(xs, are) && i < |xs|
    ensures are(i, xs[i])
    decreases |xs|
  {
    if i < |xs| - 1 { EachAt(xs[..|xs| - 1], are, i); }
  }

  lemma EachPush(xs: seq<OutboundEvent>, x: OutboundEvent, are: (nat, OutboundEvent) -> bool)
    requires Each(xs, are) && are(|xs|, x)
    ensures Each(xs + [x], are)
  {
    assert (xs + [x])[..|xs|] == xs;
  }

  /** The events offered for one delivery: one for each call, each with its number and the error of the call before. */
  ghost predicate Offers(e: OutboundEvent, from: nat, more: seq<OutboundEvent>, u: Setup) {
    Each(more, OfferOf(e, from, u))
  }

  lemma OffersAre(e: OutboundEvent, from: nat, more: seq<OutboundEvent>, i: nat, u: Setup)
    requires Offers(e, from, more, u) && i < |more|
    ensures GoesOutAs(e, more[i], u.sha)
  {
    EachAt(more, OfferOf(e, from, u), i);
  }

  lemma {:induction false} AttemptsAre(e: OutboundEvent, n: nat, from: nat, u: Setup, are: (nat, OutboundEvent) -> bool)
    requires e.channel in u.channels && forall i :: 0 <= i < n ==> are(i, Attempt(e, i, from, u))
    ensures Each(AttemptEvents(e, n, from, u), are)
  {
    if n > 0 {
      AttemptsAre(e, n - 1, from, u, are);
      EachPush(AttemptEvents(e, n - 1, from, u), Attempt(e, n - 1, from, u), are);
    }
  }

  /** What a delivery offers is the event, and only if the policy allows it and its channel is there. */
  lemma DeliveryOffers(o: Office, e: OutboundEvent, u: Setup) returns (more: seq<OutboundEvent>)
    ensures var after := AfterPublish(o, e, u).0;
            && after.offered == o.offered + more && after.calls == o.calls + |more|
            && (more != [] ==> e.channel in u.channels && u.allowed(e)) && Offers(e, o.calls, more, u)
  {
    more := [];
    if e.channel in u.channels && u.allowed(e) {
      AllowedIsKeyed(o, e, u);
      more := KeyedOffers(o, e, IC.Key(SenderKey(e, u.sha)), u);
    }
  }

  lemma KeyedOffers(o: Office, e: OutboundEvent, k: IC.Key, u: Setup) returns (more: seq<OutboundEvent>)
    requires e.channel in u.channels && Ensured(e, u.sha).0.channel == e.channel
    ensures var after := AfterKeyed(o, Ensured(e, u.sha).0, k, u).0;
            after.offered == o.offered + more && after.calls == o.calls + |more| && Offers(e, o.calls, more, u)
  {
    var x := Ensured(e, u.sha).0;
    if IC.Checked(o.cache, k, u.clock(o.ticks), u.idem).1 {
      more := [];
      KnownTells(o, x, k, u);
    } else {
      var f := UnknownTells(o, x, k, u);
      var to := AfterKeyed(o, x, k, u).0.calls;
      CallsAre(o.calls, to, MayTry(u, e.channel), f, u);
      more := AttemptEvents(x, to - o.calls, o.calls, u);
      AttemptsAreOffers(e, to - o.calls, o.calls, f, u);
    }
  }

  lemma CallsAre(from: nat, to: nat, tries: nat, f: nat, u: Setup)
    requires Called(from, to, tries, f, u)
    ensures from <= to <= from + f + 1 && AllFail(u.answer, from, f)
  {
  }

  lemma AttemptIsOffer(e: OutboundEvent, n: nat, from: nat, f: nat, u: Setup)
    requires e.channel in u.channels && Ensured(e, u.sha).0.channel == e.channel && AllFail(u.answer, from, f) && n <= f
    ensures IsOffer(e, from, n, Attempt(Ensured(e, u.sha).0, n, from, u), u)
  {
    AttemptGoesOut(e, n, from, u);
    if n > 0 { assert u.answer(from + n - 1).Failure?; }
  }

  lemma AttemptsAreOffers(e: OutboundEvent, n: nat, from: nat, f: nat, u: Setup)
    requires e.channel in u.channels && Ensured(e, u.sha).0.channel == e.channel && AllFail(u.answer, from, f) && n <= f + 1
    ensures Offers(e, from, AttemptEvents(Ensured(e, u.sha).0, n, from, u), u)
  {
    var are := OfferOf(e, from, u);
    forall i | 0 <= i < n ensures are(i, Attempt(Ensured(e, u.sha).0, i, from, u)) { AttemptIsOffer(e, i, from, f, u); }
    AttemptsAre(Ensured(e, u.sha).0, n, from, u, are);
  }
}
