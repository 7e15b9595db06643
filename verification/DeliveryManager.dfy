/** The manager's sending side: the retry loop, dead-lettering, and the replay of dead letters. */
module DeliveryManager {
  import opened Wrappers
  import opened PyStrings
  import opened Events
  import opened BusLanes
  import opened BusQueue
  import IC = IdempotencyCache
  import opened AtMostOnce
  import opened Delivery
  import opened DeadLetterReplay

  /** The dead letters an operator asks for. */
  datatype Wanted = Wanted(channel: string, reason: string, sessionId: string, reasons: set<string>) {
    predicate Matches(e: OutboundEvent) {
      && (Strip(channel) == "" || e.channel == Strip(channel))
      && (Strip(sessionId) == "" || e.sessionId == Strip(sessionId))
      && (Strip(reason) == "" || e.deadLetterReason == Strip(reason))
      && (reasons == {} || e.deadLetterReason in reasons)
    }

    function Predicate(): OutboundEvent -> bool {
      e => Matches(e)
    }
  }

  lemma MatchingTaken(matched: seq<OutboundEvent>, q: seq<OutboundEvent>, i: nat, p: OutboundEvent -> bool)
    requires i < |q|
    ensures matched + Matching(q[i..], p) == (if p(q[i]) then matched + [q[i]] else matched) + Matching(q[i + 1..], p)
  {
    assert q[i..][1..] == q[i + 1..];
  }

  method MatchingLetters(snapshot: seq<OutboundEvent>, p: OutboundEvent -> bool) returns (matched: seq<OutboundEvent>)
    ensures matched == Matching(snapshot, p)
  {
    matched := [];
    for i := 0 to |snapshot|
      invariant matched + Matching(snapshot[i..], p) == Matching(snapshot, p)
    {
      MatchingTaken(matched, snapshot, i, p);
      if p(snapshot[i]) { matched := matched + [snapshot[i]]; }
    }
  }

  datatype ReplayReport = ReplayReport(
    scanned: nat, matched: nat, replayed: nat, failed: nat, skipped: nat, suppressed: nat, remaining: nat)

  class ChannelManager {
    const u: Setup
    const bus: MessageQueue
    const idem: IC.DeliveryIdempotency
    var calls: nat
    var ticks: nat
    var suppressed: nat
    var sent: seq<Sent>
    ghost var offered: seq<OutboundEvent>

    /** The parts agree on how they are set up. */
    ghost predicate Wired() {
      bus.maxsize == u.maxsize && bus.journaled == u.journaled && bus.sha == u.sha && idem.s == u.idem
    }

    ghost predicate Valid()
      reads bus, idem
    {
      Wired() && bus.Valid() && idem.Valid()
    }

    ghost function View(): Office
      requires Valid()
      reads this, bus, idem
    {
      Office(idem.View(), idem.saved, offered, bus.deadLetter, calls, ticks, suppressed, sent)
    }

    constructor (u: Setup)
      ensures Valid() && this.u == u && fresh(bus) && fresh(idem)
      ensures View() == FRESH
    {
      this.u := u;
      bus := new MessageQueue(u.maxsize, u.journaled, u.sha);
      idem := new IC.DeliveryIdempotency(u.idem, []);
      calls, ticks, suppressed, sent, offered := 0, 0, 0, [], [];
    }

    method Offer(e: OutboundEvent)
      requires Valid()
      modifies `offered, bus`outbound, bus`outboundCreatedAt, bus`outboundDropped
      ensures Valid() && bus.outbound == Offered(old(bus.outbound), e, u) && offered == old(offered) + [e]
    {
      var _ := bus.PublishOutbound(e);
      offered := offered + [e];
    }

    /** The attempts of one delivery, up to the first success or the last permitted failure, after `f` failures. */
    method TryUntilConfirmed(e: OutboundEvent)
      returns (confirmed: Option<OutboundEvent>, lastError: string, ghost f: nat, ghost tried: seq<OutboundEvent>)
      requires Valid() && e.channel in u.channels
      modifies `calls, `offered, bus`outbound, bus`outboundCreatedAt, bus`outboundDropped
      ensures Valid() && Ended(u, e, old(calls), f, calls, tried, confirmed, lastError)
      ensures offered == old(offered) + tried
    {
      ghost var from, limit := calls, u.Tries(e.channel);
      lastError, confirmed, f, tried := "", None, 0, [];
      var attempt := 1;
      while true
        invariant f == attempt - 1 && Failing(u, e, from, f, calls, tried, lastError) && Valid()
        invariant confirmed == None && offered == old(offered) + tried
        decreases limit - attempt
      {
        var event, answer;
        event, answer, tried := TryNext(e, attempt, lastError, from, tried);
        assert offered == old(offered) + tried;
        if answer.Success? {
          confirmed := Some(event);
          break;
        }
        lastError, f := answer.error, attempt;
        if attempt >= u.MaxAttempts() || !u.channels[e.channel] { break; }
        attempt := attempt + 1;
      }
    }

    /** One more attempt after `attempt - 1` failures, and what follows from its answer. */
    method TryNext(e: OutboundEvent, attempt: nat, lastError: string, ghost from: nat, ghost before: seq<OutboundEvent>)
      returns (event: OutboundEvent, answer: Result<string>, ghost tried: seq<OutboundEvent>)
      requires Valid() && e.channel in u.channels && attempt >= 1
      requires Failing(u, e, from, attempt - 1, calls, before, lastError)
      modifies `calls, `offered, bus`outbound, bus`outboundCreatedAt, bus`outboundDropped
      ensures Valid() && tried == before + [event] && offered == old(offered) + [event]
      ensures answer.Success? ==> Ended(u, e, from, attempt - 1, calls, tried, Some(event), lastError)
      ensures answer.Failure? && attempt < u.Tries(e.channel) ==> Failing(u, e, from, attempt, calls, tried, answer.error)
      ensures answer.Failure? && attempt >= u.Tries(e.channel) ==> Ended(u, e, from, attempt, calls, tried, None, answer.error)
    {
      event, answer := TryOnce(e, attempt, lastError, from);
      tried := before + [event];
      if answer.Success? {
        SuccessEnds(u, e, from, attempt - 1, before, lastError);
      } else {
        FailureGoesOn(u, e, from, attempt - 1, before, lastError);
      }
    }

    method Attempts(e: OutboundEvent) returns (confirmed: Option<OutboundEvent>, lastError: string, ghost f: nat)
      requires Valid() && e.channel in u.channels
      modifies `calls, `offered, bus`outbound, bus`outboundCreatedAt, bus`outboundDropped
      ensures Valid() && f == Failures(u.answer, old(calls), u.Tries(e.channel))
      ensures calls == old(calls) + u.CallsMade(e.channel, f) && View() == old(View()).(offered := offered, calls := calls)
      ensures offered == old(offered) + AttemptEvents(e, u.CallsMade(e.channel, f), old(calls), u)
      ensures confirmed == if f < u.Tries(e.channel) then Some(Attempt(e, f, old(calls), u)) else None
      ensures confirmed.None? ==> lastError == LastError(u, old(calls), f)
    {
      ghost var from, limit := calls, u.Tries(e.channel);
      ghost var tried;
      confirmed, lastError, f, tried := TryUntilConfirmed(e);
      assert f == Failures(u.answer, from, limit) by { FailuresIs(u.answer, from, limit, f); }
    }

    /** One attempt: its event goes on the outbound queue, and the channel is called. */
    method TryOnce(e: OutboundEvent, attempt: nat, lastError: string, ghost from: nat)
      returns (event: OutboundEvent, answer: Result<string>)
      requires Valid() && e.channel in u.channels && attempt >= 1 && lastError == LastError(u, from, attempt - 1)
      modifies `calls, `offered, bus`outbound, bus`outboundCreatedAt, bus`outboundDropped
      ensures Valid() && event == Attempt(e, attempt - 1, from, u)
      ensures bus.outbound == Offered(old(bus.outbound), event, u) && offered == old(offered) + [event]
      ensures answer == u.answer(old(calls)) && calls == old(calls) + 1
    {
      event := e.(attempt := attempt, maxAttempts := u.MaxAttempts(), retryable := u.channels[e.channel],
                  deadLettered := false, deadLetterReason := "", lastError := lastError);
      Offer(event);
      answer := u.answer(calls);
      calls := calls + 1;
    }

    /** What follows a confirmed send. */
    method KeepConfirmed(key: IC.Key, checkedAt: int)
      requires Valid()
      modifies `ticks, `sent, idem
      ensures Valid() && View() == AfterKeeping(old(View()), key, checkedAt, u)
    {
      var now := u.clock(ticks);
      ticks := ticks + 1;
      idem.Remember(key, now);
      sent := sent + [Sent(key, checkedAt, now, true)];
    }

    /** What follows the last permitted failure. */
    method KeepLost(dead: OutboundEvent)
      requires Valid()
      modifies bus`deadLetter, bus`deadLetterEvents
      ensures Valid() && View() == AfterLosing(old(View()), dead)
    {
      bus.EnqueueDeadLetter(dead);
    }

    /** Remembers what was confirmed, or dead-letters what was not. */
    method Conclude(e: OutboundEvent, key: IC.Key, checkedAt: int, confirmed: Option<OutboundEvent>, lastError: string, ghost f: nat, ghost from: nat)
      returns (v: Verdict)
      requires Valid() && e.channel in u.channels
      requires confirmed == if f < u.Tries(e.channel) then Some(Attempt(e, f, from, u)) else None
      requires confirmed.None? ==> lastError == LastError(u, from, f)
      modifies this, bus, idem
      ensures Valid() && (View(), v) == AfterOutcome(old(View()), e, key, checkedAt, f, from, u)
    {
      if confirmed.Some? {
        KeepConfirmed(key, checkedAt);
        v := Confirmed(confirmed.value);
      } else {
        KeepLost(Dead(e, u.MaxAttempts(), u.channels[e.channel], "send_failed", lastError));
        v := Lost;
      }
    }

    /** Everything after the duplicate check. */
    method SendUnsuppressed(e: OutboundEvent, key: IC.Key, checkedAt: int) returns (v: Verdict)
      requires Valid() && e.channel in u.channels
      modifies this, bus, idem
      ensures Valid() && (View(), v) == AfterTries(old(View()), e, key, checkedAt, u)
    {
      ghost var o := View();
      var confirmed, lastError, f := Attempts(e);
      ghost var tried, events := View(), offered;
      assert tried == o.(offered := events, calls := o.calls + u.CallsMade(e.channel, f));
      TriesAreFailures(o, e, key, checkedAt, f, events, u);
      v := Conclude(e, key, checkedAt, confirmed, lastError, f, o.calls);
      OutcomeOfFailures(o, tried, e, key, checkedAt, f, events, u);
    }

    method CheckKey(key: IC.Key) returns (checkedAt: int, isSuppressed: bool)
      requires Valid()
      modifies `ticks, idem`live, idem`slots, idem`order
      ensures Valid()
      ensures var o := old(View());
              var (checked, hit) := IC.Checked(o.cache, key, checkedAt, u.idem);
              && checkedAt == u.clock(o.ticks) && isSuppressed == hit && View() == o.(cache := checked, ticks := o.ticks + 1)
    {
      checkedAt := u.clock(ticks);
      ticks := ticks + 1;
      isSuppressed := idem.IsSuppressed(key, checkedAt);
    }

    method SendKeyed(e: OutboundEvent, key: IC.Key) returns (v: Verdict)
      requires Valid() && e.channel in u.channels
      modifies this, bus, idem
      ensures Valid() && (View(), v) == AfterKeyed(old(View()), e, key, u)
    {
      var checkedAt, isSuppressed := CheckKey(key);
      if isSuppressed {
        suppressed := suppressed + 1;
        return Suppressed(SuppressedCopy(e, u));
      }
      v := SendUnsuppressed(e, key, checkedAt);
    }

    method RetrySend(e0: OutboundEvent) returns (v: Verdict)
      requires Valid() && e0.channel in u.channels
      modifies this, bus, idem
      ensures Valid() && (View(), v) == AfterRetry(old(View()), e0, u)
    {
      var (e, key) := Ensured(e0, u.sha);
      v := SendKeyed(e, IC.Key(key));
    }

    method PublishAndSend(e: OutboundEvent) returns (v: Verdict)
      requires Valid()
      modifies this, bus, idem
      ensures Valid() && (View(), v) == AfterPublish(old(View()), e, u)
    {
      if e.channel !in u.channels {
        bus.EnqueueDeadLetter(Dead(Ensured(e, u.sha).0, 1, false, "channel_unavailable", "channel unavailable"));
        return Lost;
      }
      if !u.allowed(e) { return Dropped; }
      v := RetrySend(e);
    }

    method DrainLike(letter: OutboundEvent) returns (drained: seq<OutboundEvent>)
      requires Valid()
      modifies bus`deadLetter, bus`deadLetterEvents
      ensures Valid()
      ensures var same := Letters(u.sha)(letter);
              drained == Selected(old(bus.deadLetter), same, 1) && bus.deadLetter == Kept(old(bus.deadLetter), same, 1)
    {
      var (e, key) := Ensured(letter, u.sha);
      drained := bus.DrainDeadLetters(1, Filter(e.channel, e.deadLetterReason, e.sessionId, key));
    }

    /** Publishes a drained letter again; a suppressed one is told by the counter. */
    method Republish(pending: OutboundEvent) returns (fate: Fate)
      requires Valid()
      modifies this, bus, idem
      ensures Valid()
      ensures var (after, v) := Publishes(u)(old(View()), Revived(pending));
              View() == after && fate == FateOf(v, pending)
    {
      var before := suppressed;
      SuppressionIsCounted(View(), Revived(pending), u);
      var v := PublishAndSend(Revived(pending));
      if suppressed > before { return Hushed(pending); }
      fate := if v.Lost? then FailedAgain(pending) else Resent(pending);
    }

    /** Drains the letter, or one like it, and publishes it again if its channel is there. */
    method ReplayOne(letter: OutboundEvent) returns (fate: Fate)
      requires Valid()
      modifies this, bus, idem
      ensures Valid() && (View(), fate) == ReplayNext(old(View()), Letters(u.sha)(letter), Publishes(u), u)
    {
      ghost var o := View();
      var drained := DrainLike(letter);
      assert View() == o.(dead := bus.deadLetter);
      if drained == [] { return Missing; }
      if drained[0].channel !in u.channels { return Skipped(drained[0]); }
      fate := Republish(drained[0]);
    }

    /** The loop over the matched letters, and the return of those set aside. */
    method ReplayMatched(matched: seq<OutboundEvent>, limit: nat) returns (fates: seq<Fate>)
      requires Valid() && limit <= |matched|
      modifies this, bus, idem
      ensures Valid()
      ensures var (after, fs) := ReplayFirst(old(View()), matched, limit, Letters(u.sha), Publishes(u), u);
              fates == fs && View() == after.(dead := after.dead + Aside(fs))
    {
      fates := [];
      ghost var o := View();
      for i := 0 to limit
        invariant Valid() && (View(), fates) == ReplayFirst(o, matched, i, Letters(u.sha), Publishes(u), u)
      {
        var fate := ReplayOne(matched[i]);
        fates := fates + [fate];
      }
      var _ := bus.RestoreDeadLetters(Aside(fates));
    }

    method ReplayDeadLetters(w: Wanted, limit: int, dryRun: bool) returns (report: ReplayReport, ghost fates: seq<Fate>)
      requires Valid()
      modifies this, bus, idem
      ensures Valid()
      ensures var matched := Matching(old(bus.deadLetter), w.Predicate());
              var n := if dryRun || limit <= 0 then 0 else Min(limit, |matched|);
              var (after, fs) := ReplayFirst(old(View()), matched, n, Letters(u.sha), Publishes(u), u);
              && fates == fs && View() == after.(dead := after.dead + Aside(fs))
              && report == ReportOf(|old(bus.deadLetter)|, |matched|, Tallied(fs), |bus.deadLetter|)
      ensures report.remaining == report.scanned - report.replayed - report.suppressed
      ensures forall k :: Count(bus.deadLetter, WithKey(k, u.sha)) + Count(Gone(fates), WithKey(k, u.sha))
                          == Count(old(bus.deadLetter), WithKey(k, u.sha))
    {
      var scanned := |bus.deadLetter|;
      var matched := MatchingLetters(bus.deadLetter, w.Predicate());
      if dryRun || limit <= 0 {
        NothingReplayed(View(), matched, u);
        EveryKeyIsAccountedFor(View(), matched, 0, u);
        return ReportOf(scanned, |matched|, Tallied([]), |bus.deadLetter|), [];
      }
      EveryKeyIsAccountedFor(View(), matched, Min(limit, |matched|), u);
      var done := ReplayMatched(matched, Min(limit, |matched|));
      fates := done;
      report := ReportOf(scanned, |matched|, Tallied(done), |bus.deadLetter|);
    }
  }

  lemma OutcomeOfFailures(
      o: Office, tried: Office, e: OutboundEvent, k: IC.Key, checkedAt: int, f: nat, offered: seq<OutboundEvent>, u: Setup)
    requires e.channel in u.channels && tried == o.(offered := offered, calls := o.calls + u.CallsMade(e.channel, f))
    ensures AfterFailures(o, e, k, checkedAt, f, offered, u) == AfterOutcome(tried, e, k, checkedAt, f, o.calls, u)
  {
  }

  lemma NothingReplayed(o: Office, matched: seq<OutboundEvent>, u: Setup)
    ensures ReplayFirst(o, matched, 0, Letters(u.sha), Publishes(u), u) == (o, [])
    ensures o.(dead := o.dead + Aside([])) == o
  {
  }

  lemma EveryKeyIsAccountedFor(o: Office, matched: seq<OutboundEvent>, n: nat, u: Setup)
    requires n <= |matched|
    ensures var (after, fates) := ReplayFirst(o, matched, n, Letters(u.sha), Publishes(u), u);
            var dead := after.dead + Aside(fates);
            && |dead| == |o.dead| - Tallied(fates).replayed - Tallied(fates).suppressed
            && forall k :: Count(dead, WithKey(k, u.sha)) + Count(Gone(fates), WithKey(k, u.sha)) == Count(o.dead, WithKey(k, u.sha))
  {
    ReplayAccounts(o, matched, n, IC.Key(""), u);
    forall k
      ensures var (after, fates) := ReplayFirst(o, matched, n, Letters(u.sha), Publishes(u), u);
              Count(after.dead + Aside(fates), WithKey(k, u.sha)) + Count(Gone(fates), WithKey(k, u.sha)) == Count(o.dead, WithKey(k, u.sha))
    {
      ReplayAccounts(o, matched, n, k, u);
    }
  }

  function ReportOf(scanned: nat, matched: nat, t: Tally, remaining: nat): ReplayReport {
    ReplayReport(scanned, matched, t.replayed, t.failed, t.skipped, t.suppressed, remaining)
  }

  lemma SuppressionIsCounted(o: Office, e: OutboundEvent, u: Setup)
    ensures var (after, v) := AfterPublish(o, e, u);
            after.suppressed == o.suppressed + if v.Suppressed? then 1 else 0
  {
  }
}
