/**
 What users and operators of the pairing store can rely on, in names, seconds and numbers: which codes work, what an
 approval grants, which request has to make way, and where every request and entry comes from.
 */
module PairingGuarantees {
  import opened Wrappers
  import opened Sequences
  import opened StableSort
  import opened PairingStore

  const HOUR := 3_600_000_000

  /** Requests in a store that is not over its limit: a prune drops exactly those older than an hour. */
  lemma PrunedIsUnexpired(rs: seq<Request>, now: int)
    requires |rs| <= 256
    ensures Pruned(rs, now) == PairingStore.Unexpired(rs, now)
    ensures forall r :: r in Pruned(rs, now) <==> r in rs && now - r.createdAt <= HOUR
  {
  }

  // ---------- Which codes work ----------

  ghost predicate Works(s: Store, code: Key, r: Request, now: nat) {
    r in s.pending && r.code == code && now - r.createdAt <= HOUR
  }

  lemma CodeIsFoundIff(s: Store, code: Key, since: nat, now: nat)
    requires PairingStore.Inv(s, since) && since <= now && code != BLANK
    ensures var rs := Pruned(s.pending, now);
            && (IndexOfCode(rs, code) < |rs| <==> exists r :: Works(s, code, r, now))
            && (IndexOfCode(rs, code) < |rs| ==> Works(s, code, rs[IndexOfCode(rs, code)], now))
  {
    var rs := Pruned(s.pending, now);
    var i := IndexOfCode(rs, code);
    PrunedIsUnexpired(s.pending, now);
    if i < |rs| { assert rs[i] in rs && Works(s, code, rs[i], now); }
    if exists r :: Works(s, code, r, now) {
      var r :| Works(s, code, r, now);
      var k :| 0 <= k < |rs| && rs[k] == r;
      assert IndexOfCode(rs, code) <= k;
    }
  }

  /** A code is accepted, for approval or rejection, exactly if a request issued at most an hour ago and still pending has it. */
  lemma CodeWorksIff(s: Store, op: Op, since: nat, now: nat)
    requires PairingStore.Inv(s, since) && since <= now && (op.Approve? || op.Reject?)
    ensures var answer := After(s, op, now).1;
            && (answer.Found? <==> op.code != BLANK && exists r :: Works(s, op.code, r, now))
            && (answer.Found? ==> Works(s, op.code, answer.request, now))
            && (!answer.Found? ==> answer == Nothing)
  {
    if op.code != BLANK { CodeIsFoundIff(s, op.code, since, now); }
  }

  /** What is listed is what can be approved: a listed request is found by its code, and every code that works is listed. */
  lemma ListedIffApprovable(s: Store, r: Request, since: nat, now: nat)
    requires PairingStore.Inv(s, since) && since <= now
    ensures var listed := After(s, ListPending, now).1;
            listed.Requests? && (r in listed.requests <==> After(s, Approve(r.code), now).1 == Found(r))
  {
    CodeWorksIff(s, Approve(r.code), since, now);
    PrunedIsUnexpired(s.pending, now);
    if r in Pruned(s.pending, now) { ApproveGrants(s, r, since, now); }
  }

  // ---------- What calls change ----------

  /** An approval adds the user, and the user name with and without its sign if there is one; nothing else. */
  lemma ApprovalAdds(s: Store, code: Key, since: nat, now: nat)
    requires PairingStore.Inv(s, since) && since <= now && After(s, Approve(code), now).1.Found?
    ensures var (after, answer) := After(s, Approve(code), now);
            var r := answer.request;
            && r.pair.user in after.approved
            && (r.username.text != "" ==> r.username in after.approved && Key("@" + r.username.text) in after.approved)
            && (forall x :: x in after.approved ==>
                  x in s.approved || x == r.pair.user || (r.username.text != "" && (x == r.username || x == Key("@" + r.username.text))))
            && (forall x :: x in s.approved ==> x in after.approved)
  {
    var r := After(s, Approve(code), now).1.request;
    CodeWorksIff(s, Approve(code), since, now);
    PrunedIsUnexpired(s.pending, now);
    ApproveGrants(s, r, since, now);
    GrantedIs(r);
  }

  lemma GrantedIs(r: Request)
    ensures forall x :: x in Granted(r) <==>
              x == r.pair.user || (r.username.text != "" && (x == r.username || x == Key("@" + r.username.text)))
    ensures r.username.text != "" ==> Key("@" + r.username.text) != BLANK
  {
    var g := Granted(r);
    assert g[0] == r.pair.user;
    if r.username != BLANK { assert g == [r.pair.user, r.username, At(r.username)]; }
  }

  /** A revocation fails exactly if the entry is not approved. */
  lemma RevokeFailsIff(s: Store, entry: Key, now: nat)
    requires ApprovedInv(s.approved)
    ensures After(s, Revoke(entry), now).1 == Nothing <==> entry !in s.approved
    ensures entry !in s.approved ==> After(s, Revoke(entry), now).0 == s
  {
    NormalizedIsIdentity(s.approved);
    if entry !in s.approved {
      DroppedNothing(s.approved, entry);
    }
  }

  lemma {:induction false} DroppedNothing(entries: seq<Key>, entry: Key)
    requires entry !in entries
    ensures Dropped(entries, entry) == entries
  {
    if entries != [] {
      assert entries == [entries[0]] + entries[1..];
      DroppedNothing(entries[1..], entry);
    }
  }

  /** Whole seconds. */
  function Seconds(now: nat): nat {
    now / 1_000_000 * 1_000_000
  }

  ghost predicate IsPendingFor(s: Store, pair: Pair, r: Request, now: nat) {
    r in s.pending && r.pair == pair && now - r.createdAt <= HOUR
  }

  /** The name that was given, or else the one that was there. */
  function NameOr(given: Option<Key>, there: Key): Key {
    if given.Some? then given.value else there
  }

  /**
   What an issue answers: for a pair that is pending, the same request with the names that were given and the present
   time; for another one a new request under the drawn code; and it raises for blank ids or if no code could be drawn.
   */
  lemma IssueAnswers(s: Store, pair: Pair, username: Option<Key>, firstName: Option<Key>, draw: Option<Key>, since: nat, now: nat)
    requires PairingStore.Inv(s, since) && since <= now
    ensures var (after, answer) := After(s, Issue(pair, username, firstName, draw), now);
            match answer
            case Raised =>
              && after == s
              && (pair.chat.text == "" || pair.user.text == "" || (draw.None? && forall r :: !IsPendingFor(s, pair, r, now)))
            case Found(q) =>
              && pair.chat.text != "" && pair.user.text != ""
              && exists r :: && IsPendingFor(s, pair, r, now)
                             && q == Request(pair, NameOr(username, r.username), NameOr(firstName, r.firstName), r.code, r.createdAt, Seconds(now))
            case New(q) =>
              && pair.chat.text != "" && pair.user.text != "" && draw.Some? && (forall r :: !IsPendingFor(s, pair, r, now))
              && q == Request(pair, NameOr(username, Key("")), NameOr(firstName, Key("")), draw.value, Seconds(now), Seconds(now))
            case _ => false
  {
    var rs := Pruned(s.pending, now);
    PrunedIsUnexpired(s.pending, now);
    PairIsFoundIff(rs, pair);
    assert forall r :: IsPendingFor(s, pair, r, now) <==> r in rs && r.pair == pair;
    var i := IndexOfPair(rs, pair);
    if i < |rs| { assert IsPendingFor(s, pair, rs[i], now); }
  }

  lemma PairIsFoundIff(rs: seq<Request>, pair: Pair)
    ensures IndexOfPair(rs, pair) < |rs| <==> exists r :: r in rs && r.pair == pair
    ensures IndexOfPair(rs, pair) < |rs| ==> rs[IndexOfPair(rs, pair)].pair == pair
  {
    var i := IndexOfPair(rs, pair);
    if i < |rs| {
      assert PairOf()(rs[i]) == pair && rs[i] in rs;
    } else {
      PairIsNew(rs, pair);
    }
  }

  // ---------- Who has to make way ----------

  lemma FirstOfSorted(all: seq<Request>) returns (first: Request)
    requires all != []
    ensures var sorted := Sorted(all, BySeen()); sorted != [] && first == sorted[0] && multiset(sorted[1..]) + multiset{first} == multiset(all)
    ensures first in all && forall x :: x in all ==> first.lastSeen <= x.lastSeen
  {
    var sorted := Sorted(all, BySeen());
    SortedIsInOrder(all, BySeen());
    first := sorted[0];
    assert sorted == [first] + sorted[1..];
    assert first in sorted;
    forall x | x in all ensures first.lastSeen <= x.lastSeen {
      assert x in sorted;
      var k :| 0 <= k < |sorted| && sorted[k] == x;
      assert k > 0 ==> BySeen()(sorted[0], sorted[k]);
    }
  }

  /** With 256 requests pending, a new one costs exactly one other its place: one that was seen before all others, or as early. */
  lemma LeastRecentlySeenGoes(rs: seq<Request>, r: Request, now: nat) returns (gone: Request)
    requires |rs| == 256 && forall x :: x in rs + [r] ==> now - x.createdAt <= HOUR
    ensures gone in rs + [r] && multiset(Pruned(rs + [r], now)) + multiset{gone} == multiset(rs + [r])
    ensures forall x :: x in rs + [r] ==> gone.lastSeen <= x.lastSeen
  {
    var all := rs + [r];
    NothingExpired(all, now);
    gone := FirstOfSorted(all);
    assert Pruned(all, now) == Sorted(all, BySeen())[1..];
  }

  /** Otherwise a request that is not an hour old stays, under its code, until that is used. */
  lemma RequestStays(s: Store, op: Op, r: Request, since: nat, now: nat)
    requires PairingStore.Inv(s, since) && since <= now && r in s.pending && now - r.createdAt <= HOUR
    requires op.Approve? || op.Reject? ==> op.code != r.code
    requires op.Issue? ==> |s.pending| < 256
    ensures exists x :: x in After(s, op, now).0.pending && x.code == r.code && x.pair == r.pair && x.createdAt == r.createdAt
  {
    var rs := Pruned(s.pending, now);
    PrunedIsUnexpired(s.pending, now);
    PrunedKeepsInv(s.pending, since, now);
    assert r in rs;
    match op
    case Issue(pair, username, firstName, draw) => RequestStaysAtIssue(s, op, r, since, now);
    case Approve(code) => if IndexOfCode(rs, code) < |rs| { WithoutIsTheRest(rs, IndexOfCode(rs, code), now); }
    case Reject(code) => if IndexOfCode(rs, code) < |rs| { WithoutIsTheRest(rs, IndexOfCode(rs, code), now); }
    case _ =>
  }

  lemma RequestStaysAtIssue(s: Store, op: Op, r: Request, since: nat, now: nat)
    requires PairingStore.Inv(s, since) && since <= now && op.Issue? && |s.pending| < 256
    requires r in s.pending && now - r.createdAt <= HOUR
    ensures exists x :: x in After(s, op, now).0.pending && x.code == r.code && x.pair == r.pair && x.createdAt == r.createdAt
  {
    var rs := Pruned(s.pending, now);
    PrunedIsUnexpired(s.pending, now);
    PrunedKeepsInv(s.pending, since, now);
    var i := IndexOfPair(rs, op.pair);
    var k :| 0 <= k < |rs| && rs[k] == r;
    if op.pair.chat == BLANK || op.pair.user == BLANK {
    } else if i < |rs| {
      var seen := Seen(rs[i], op.username, op.firstName, now);
      assert rs[i := seen][k] in rs[i := seen];
    } else if op.draw.Some? {
      var newcomer := Request(op.pair, OrBlank(op.username), OrBlank(op.firstName), op.draw.value, Iso(now), Iso(now));
      NewRequestSurvives(rs, newcomer, now);
      assert (rs + [newcomer])[k] == r;
    }
  }

  // ---------- Where requests and entries come from ----------

  /** The `m`-th call issued the request, as far as its pair, code and time go. */
  ghost predicate IssuedBy(calls: seq<Call>, m: nat, r: Request)
    requires m < |calls|
  {
    calls[m].op.Issue? && calls[m].op.pair == r.pair && calls[m].op.draw == Some(r.code) && r.createdAt == Seconds(calls[m].at)
  }

  lemma StepBringsOnly(s: Store, op: Op, now: nat, r: Request)
    requires r in After(s, op, now).0.pending
    ensures (op.Issue? && op.pair == r.pair && op.draw == Some(r.code) && r.createdAt == Seconds(now))
            || exists x :: x in s.pending && x.pair == r.pair && x.code == r.code && x.createdAt == r.createdAt
  {
    var rs := Pruned(s.pending, now);
    if r !in s.pending {
      assert op.Issue? by { if !op.Issue? { OthersBringNothing(s, op, now, r); } }
      var i := IndexOfPair(rs, op.pair);
      if i < |rs| { assert rs[i] in rs; }
    }
  }

  lemma OthersBringNothing(s: Store, op: Op, now: nat, r: Request)
    requires !op.Issue? && r in After(s, op, now).0.pending
    ensures r in s.pending
  {
    var rs := Pruned(s.pending, now);
    if op.Approve? || op.Reject? {
      var i := IndexOfCode(rs, op.code);
      if i < |rs| { assert forall x :: x in Without(rs, i) ==> x in rs; }
    }
  }

  /** Every pending request was issued by some call, for its pair, under its code, at its time. */
  lemma {:induction false} RequestsComeFromIssues(calls: seq<Call>, r: Request) returns (m: nat)
    requires r in Run(calls).pending
    ensures m < |calls| && IssuedBy(calls, m, r)
  {
    var before, last := calls[..|calls| - 1], calls[|calls| - 1];
    StepBringsOnly(Run(before), last.op, last.at, r);
    if last.op.Issue? && last.op.pair == r.pair && last.op.draw == Some(r.code) && r.createdAt == Seconds(last.at) {
      m := |calls| - 1;
    } else {
      var x :| x in Run(before).pending && x.pair == r.pair && x.code == r.code && x.createdAt == r.createdAt;
      m := RequestsComeFromIssues(before, x);
    }
  }

  /**
   Nobody is approved without a code that was issued to them at most an hour before: every approved entry goes back to
   an approval, and that to the issue of the request for the same pair under the code that was approved.
   */
  lemma ApprovalsFollowIssues(calls: seq<Call>, entry: Key) returns (m: nat, n: nat)
    requires Timely(calls) && entry in Run(calls).approved
    ensures m < n < |calls| && GrantedBy(calls, n, entry)
    ensures var r := After(Run(calls[..n]), calls[n].op, calls[n].at).1.request;
            calls[n].op.Approve? && calls[n].op.code == r.code && IssuedBy(calls, m, r) && calls[n].at - calls[m].at <= HOUR
  {
    n := EntriesComeFromApprovals(calls, entry);
    TimelyPrefix(calls, n);
    var before := calls[..n];
    RunKeepsInv(before);
    TimelyNow(calls, n);
    CodeWorksIff(Run(before), calls[n].op, Now(before), calls[n].at);
    var r := After(Run(before), calls[n].op, calls[n].at).1.request;
    m := RequestsComeFromIssues(before, r);
    assert calls[m] == before[m];
  }

  lemma {:induction false} TimelyPrefix(calls: seq<Call>, n: nat)
    requires Timely(calls) && n <= |calls|
    ensures Timely(calls[..n])
  {
    if n < |calls| {
      TimelyPrefix(calls[..|calls| - 1], n);
      assert calls[..|calls| - 1][..n] == calls[..n];
    } else {
      assert calls[..n] == calls;
    }
  }

  lemma TimelyNow(calls: seq<Call>, n: nat)
    requires Timely(calls) && n < |calls|
    ensures Now(calls[..n]) <= calls[n].at
  {
    TimelyPrefix(calls, n + 1);
    assert calls[..n + 1][..n] == calls[..n];
  }

  /** In numbers: after any calls at most 256 requests are pending, with distinct codes. */
  lemma AtMost256Pending(calls: seq<Call>)
    requires Timely(calls)
    ensures |Run(calls).pending| <= 256
    ensures forall i, j :: 0 <= i < j < |Run(calls).pending| ==> Run(calls).pending[i].code != Run(calls).pending[j].code
  {
    RunKeepsInv(calls);
    var rs := Run(calls).pending;
    forall i, j | 0 <= i < j < |rs| ensures rs[i].code != rs[j].code { assert CodeOf()(rs[i]) != CodeOf()(rs[j]); }
  }

  // ---------- Order of the approved entries ----------

  /** Where an entry first stands, or the length. */
  function FirstAt(entries: seq<Key>, x: Key): (i: nat)
    ensures i <= |entries| && (i < |entries| <==> x in entries)
    ensures i < |entries| ==> entries[i] == x
    ensures forall j :: 0 <= j < i ==> entries[j] != x
  {
    if entries == [] || entries[0] == x then 0
    else
      assert entries == [entries[0]] + entries[1..];
      1 + FirstAt(entries[1..], x)
  }

  lemma FirstAtPrefix(entries: seq<Key>, more: seq<Key>, x: Key)
    requires x in entries
    ensures FirstAt(entries + more, x) == FirstAt(entries, x)
  {
    var i, j := FirstAt(entries, x), FirstAt(entries + more, x);
    assert (entries + more)[i] == x;
    assert j < |entries| ==> (entries + more)[j] == entries[j];
  }

  ghost predicate KeepsFirsts(entries: seq<Key>, kept: seq<Key>) {
    forall i, j :: 0 <= i < j < |kept| ==> FirstAt(entries, kept[i]) < FirstAt(entries, kept[j])
  }

  lemma KeepsFirstsPush(front: seq<Key>, last: Key, kept: seq<Key>)
    requires KeepsFirsts(front, kept) && forall x :: x in kept ==> x in front
    ensures KeepsFirsts(front + [last], kept)
    ensures last !in front ==> KeepsFirsts(front + [last], kept + [last])
  {
    forall i | 0 <= i < |kept| ensures FirstAt(front + [last], kept[i]) == FirstAt(front, kept[i]) < |front| {
      FirstAtPrefix(front, [last], kept[i]);
    }
    if last !in front {
      assert (front + [last])[FirstAt(front + [last], last)] == last;
      assert FirstAt(front + [last], last) == |front|;
    }
  }

  /** Of repeated entries the first stays, and those that stay keep the order of their first places. */
  lemma {:induction false} NormalizedKeepsFirsts(entries: seq<Key>)
    ensures KeepsFirsts(entries, Normalized(entries))
  {
    if entries != [] {
      var front, last := entries[..|entries| - 1], entries[|entries| - 1];
      assert entries == front + [last];
      NormalizedKeepsFirsts(front);
      KeepsFirstsPush(front, last, Normalized(front));
    }
  }
}
