/**
 The Telegram pairing store: pending requests, each with a code, and the list of approved entries. Texts are
 stripped where they enter, times are microseconds, and stored times are cut to whole seconds.
 */
module PairingStore {
  import opened Wrappers
  import opened PyStrings
  import opened Sequences
  import opened StableSort

  datatype Key = Key(text: string)

  const BLANK := Key("")
  const MAX_PENDING := 256
  const SECOND := 1_000_000
  const PENDING_TTL := 3600 * SECOND
  const CODE_TRIES := 500

  datatype Pair = Pair(chat: Key, user: Key)
  datatype Request = Request(pair: Pair, username: Key, firstName: Key, code: Key, createdAt: int, lastSeen: int)
  datatype Store = Store(approved: seq<Key>, pending: seq<Request>)

  function Iso(now: nat): (t: nat)
    ensures t <= now < t + SECOND
  {
    now / SECOND * SECOND
  }

  function At(name: Key): Key {
    Key("@" + name.text)
  }

  function CodeOf(): Request -> Key { (r: Request) => r.code }

  function PairOf(): Request -> Pair { (r: Request) => r.pair }

  function BySeen(): Order<Request> { (a: Request, b: Request) => a.lastSeen <= b.lastSeen }

  // ---------- What the code computes ----------

  /** Drops blanks and repeats. */
  function Normalized(entries: seq<Key>): (kept: seq<Key>)
    ensures forall x :: x in kept <==> x in entries && x != BLANK
    ensures forall i, j :: 0 <= i < j < |kept| ==> kept[i] != kept[j]
  {
    if entries == [] then []
    else
      var front, last := Normalized(entries[..|entries| - 1]), entries[|entries| - 1];
      assert entries == entries[..|entries| - 1] + [last];
      if last == BLANK || last in front then front else front + [last]
  }

  function Unexpired(rs: seq<Request>, now: int): (kept: seq<Request>)
    ensures forall r :: r in kept <==> r in rs && now - r.createdAt <= PENDING_TTL
    ensures |kept| <= |rs| && (|kept| == |rs| ==> kept == rs)
  {
    if rs == [] then []
    else
      var front, last := Unexpired(rs[..|rs| - 1], now), rs[|rs| - 1];
      assert rs == rs[..|rs| - 1] + [last];
      if now - last.createdAt > PENDING_TTL then front else front + [last]
  }

  /** Drops expired requests, and the least recently seen ones beyond the limit. */
  function Pruned(rs: seq<Request>, now: int): (kept: seq<Request>)
    ensures |kept| <= MAX_PENDING
    ensures forall r :: r in kept ==> r in rs && now - r.createdAt <= PENDING_TTL
  {
    var kept := Unexpired(rs, now);
    if |kept| > MAX_PENDING then
      var last := Sorted(kept, BySeen())[|kept| - MAX_PENDING..];
      assert forall r :: r in last ==> r in Sorted(kept, BySeen());
      last
    else kept
  }

  /** The first request with this code or pair, or the length. */
  function IndexOf<K(==)>(rs: seq<Request>, key: Request -> K, k: K): (i: nat)
    ensures i <= |rs|
    ensures forall j :: 0 <= j < i ==> key(rs[j]) != k
    ensures i < |rs| ==> key(rs[i]) == k
  {
    if rs == [] || key(rs[0]) == k then 0 else 1 + IndexOf(rs[1..], key, k)
  }

  function IndexOfCode(rs: seq<Request>, code: Key): (i: nat)
    ensures i <= |rs| && forall j :: 0 <= j < i ==> rs[j].code != code
    ensures i < |rs| ==> rs[i].code == code
  {
    var i := IndexOf(rs, CodeOf(), code);
    assert forall j :: 0 <= j < i ==> CodeOf()(rs[j]) != code;
    i
  }

  function IndexOfPair(rs: seq<Request>, pair: Pair): nat {
    IndexOf(rs, PairOf(), pair)
  }

  function Without(rs: seq<Request>, i: nat): seq<Request>
    requires i < |rs|
  {
    rs[..i] + rs[i + 1..]
  }

  /** A name that was not given leaves the old one; a blank one that was given replaces it. */
  function Seen(r: Request, username: Option<Key>, firstName: Option<Key>, now: nat): Request {
    r.(lastSeen := Iso(now), username := if username.Some? then username.value else r.username,
       firstName := if firstName.Some? then firstName.value else r.firstName)
  }

  function OrBlank(name: Option<Key>): Key {
    if name.Some? then name.value else BLANK
  }

  /** What one approval adds to the approved entries. */
  function Granted(r: Request): seq<Key> {
    [r.pair.user] + if r.username == BLANK then [] else [r.username, At(r.username)]
  }

  /** A call, with the time it is made. `draw` is the code drawn in the end for a new request. */
  datatype Op =
    | Issue(pair: Pair, username: Option<Key>, firstName: Option<Key>, draw: Option<Key>)
    | Approve(code: Key)
    | Reject(code: Key)
    | Revoke(entry: Key)
    | ListPending
    | ApprovedEntries

  datatype Answer = Raised | Nothing | Found(request: Request) | New(request: Request) | Entries(entries: seq<Key>) | Requests(requests: seq<Request>)

  /** A draw that the loop over `CODE_TRIES` random codes can end with. */
  predicate DrawFits(s: Store, op: Op, now: nat) {
    op.Issue? && op.draw.Some? ==> op.draw.value != BLANK && forall r :: r in Pruned(s.pending, now) ==> r.code != op.draw.value
  }

  function AfterIssue(s: Store, pair: Pair, username: Option<Key>, firstName: Option<Key>, draw: Option<Key>, now: nat): (Store, Answer) {
    var approved, rs := Normalized(s.approved), Pruned(s.pending, now);
    if pair.chat == BLANK || pair.user == BLANK then (s, Raised)
    else
      var i := IndexOfPair(rs, pair);
      if i < |rs| then
        var r := Seen(rs[i], username, firstName, now);
        (Store(approved, rs[i := r]), Found(r))
      else if draw.None? then (s, Raised)
      else
        var r := Request(pair, OrBlank(username), OrBlank(firstName), draw.value, Iso(now), Iso(now));
        (Store(approved, Pruned(rs + [r], now)), New(r))
  }

  function AfterApprove(s: Store, code: Key, now: nat): (Store, Answer) {
    var approved, rs := Normalized(s.approved), Pruned(s.pending, now);
    var i := IndexOfCode(rs, code);
    if code == BLANK then (s, Nothing)
    else if i < |rs| then (Store(Normalized(approved + Granted(rs[i])), Without(rs, i)), Found(rs[i]))
    else if rs != s.pending then (Store(approved, rs), Nothing)
    else (s, Nothing)
  }

  function AfterReject(s: Store, code: Key, now: nat): (Store, Answer) {
    var approved, rs := Normalized(s.approved), Pruned(s.pending, now);
    var i := IndexOfCode(rs, code);
    if code == BLANK then (s, Nothing)
    else if i < |rs| then (Store(approved, Without(rs, i)), Found(rs[i]))
    else if rs != s.pending then (Store(approved, rs), Nothing)
    else (s, Nothing)
  }

  function Dropped(entries: seq<Key>, entry: Key): (kept: seq<Key>)
    ensures forall x :: x in kept <==> x in entries && x != entry
    ensures |kept| <= |entries|
    ensures |kept| == |entries| ==> kept == entries
  {
    if entries == [] then []
    else
      assert entries == [entries[0]] + entries[1..];
      (if entries[0] == entry then [] else [entries[0]]) + Dropped(entries[1..], entry)
  }

  function AfterRevoke(s: Store, entry: Key): (Store, Answer) {
    var approved := Normalized(s.approved);
    var kept := Dropped(approved, entry);
    if entry == BLANK || kept == approved then (s, Nothing) else (Store(kept, s.pending), Entries(kept))
  }

  function After(s: Store, op: Op, now: nat): (Store, Answer) {
    match op
    case Issue(pair, username, firstName, draw) => AfterIssue(s, pair, username, firstName, draw, now)
    case Approve(code) => AfterApprove(s, code, now)
    case Reject(code) => AfterReject(s, code, now)
    case Revoke(entry) => AfterRevoke(s, entry)
    case ListPending => var rs := Pruned(s.pending, now); (Store(s.approved, rs), Requests(rs))
    case ApprovedEntries => var a := Normalized(s.approved); (Store(a, s.pending), Entries(a))
  }

  // ---------- The invariant ----------

  ghost predicate WellDated(r: Request, now: int) {
    r.createdAt <= now && r.lastSeen <= now && r.lastSeen % SECOND == 0 && r.code != BLANK && r.pair.user != BLANK
  }

  ghost predicate PendingInv(rs: seq<Request>, now: int) {
    && |rs| <= MAX_PENDING && Distinct(rs, CodeOf()) && Distinct(rs, PairOf())
    && (forall r :: r in rs ==> WellDated(r, now))
  }

  ghost predicate ApprovedInv(approved: seq<Key>) {
    BLANK !in approved && forall i, j :: 0 <= i < j < |approved| ==> approved[i] != approved[j]
  }

  ghost predicate Inv(s: Store, now: int) {
    ApprovedInv(s.approved) && PendingInv(s.pending, now)
  }

  lemma {:induction false} NormalizedIsIdentity(entries: seq<Key>)
    requires ApprovedInv(entries)
    ensures Normalized(entries) == entries
  {
    if entries != [] {
      var front := entries[..|entries| - 1];
      assert forall x :: x in front ==> x in entries;
      NormalizedIsIdentity(front);
      assert entries == front + [entries[|entries| - 1]];
    }
  }

  lemma {:induction false} UnexpiredKeepsDistinct<K>(rs: seq<Request>, now: int, key: Request -> K)
    requires Distinct(rs, key)
    ensures Distinct(Unexpired(rs, now), key)
  {
    if rs != [] {
      var front, last := rs[..|rs| - 1], rs[|rs| - 1];
      var kept := Unexpired(front, now);
      UnexpiredKeepsDistinct(front, now, key);
      forall i | 0 <= i < |kept| ensures key(kept[i]) != key(last) {
        assert kept[i] in kept;
        var k :| 0 <= k < |front| && front[k] == kept[i];
        assert rs[k] == front[k];
      }
    }
  }

  lemma PrunedKeepsDistinct<K>(rs: seq<Request>, now: int, key: Request -> K)
    requires Distinct(rs, key)
    ensures Distinct(Pruned(rs, now), key)
  {
    UnexpiredKeepsDistinct(rs, now, key);
    SortedKeepsDistinct(Unexpired(rs, now), BySeen(), key);
  }

  lemma PruneMakesPending(rs: seq<Request>, now: int)
    requires Distinct(rs, CodeOf()) && Distinct(rs, PairOf()) && forall r :: r in rs ==> WellDated(r, now)
    ensures PendingInv(Pruned(rs, now), now)
  {
    PrunedKeepsDistinct(rs, now, CodeOf());
    PrunedKeepsDistinct(rs, now, PairOf());
  }

  lemma PrunedKeepsInv(rs: seq<Request>, since: int, now: int)
    requires PendingInv(rs, since) && since <= now
    ensures PendingInv(Pruned(rs, now), now)
  {
    assert forall r :: r in rs ==> WellDated(r, since);
    PruneMakesPending(rs, now);
  }

  /** A request made now outlives the pruning that follows it. */
  lemma NewRequestSurvives(rs: seq<Request>, r: Request, now: nat)
    requires |rs| <= MAX_PENDING && r.createdAt == r.lastSeen == Iso(now)
    requires forall x :: x in rs ==> x.lastSeen <= now && x.lastSeen % SECOND == 0 && now - x.createdAt <= PENDING_TTL
    ensures r in Pruned(rs + [r], now)
    ensures |rs| < MAX_PENDING ==> Pruned(rs + [r], now) == rs + [r]
  {
    NothingExpired(rs + [r], now);
    if |rs| == MAX_PENDING {
      forall x | x in rs ensures BySeen()(x, r) { WholeSecondsUpTo(x.lastSeen, now); }
      NewestStays(rs, r);
    }
  }

  lemma NewestStays(rs: seq<Request>, r: Request)
    requires forall x :: x in rs ==> BySeen()(x, r)
    ensures rs != [] ==> r in Sorted(rs + [r], BySeen())[1..]
  {
    GreatestStaysLast(rs, r, BySeen());
    if rs != [] {
      var sorted := Sorted(rs, BySeen());
      assert (sorted + [r])[1..][|sorted| - 1] == r;
    }
  }

  lemma WholeSecondsUpTo(t: int, now: nat)
    requires t <= now && t % SECOND == 0
    ensures t <= Iso(now)
  {
  }

  lemma {:induction false} NothingExpired(rs: seq<Request>, now: int)
    requires forall r :: r in rs ==> now - r.createdAt <= PENDING_TTL
    ensures Unexpired(rs, now) == rs
  {
    if rs != [] {
      assert rs == rs[..|rs| - 1] + [rs[|rs| - 1]];
      NothingExpired(rs[..|rs| - 1], now);
    }
  }

  // ---------- Every call keeps the invariant ----------

  lemma {:induction false} PairIsNew(rs: seq<Request>, pair: Pair)
    requires IndexOfPair(rs, pair) == |rs|
    ensures forall r :: r in rs ==> r.pair != pair
  {
  }

  lemma DistinctPush<K>(rs: seq<Request>, r: Request, key: Request -> K)
    requires Distinct(rs, key) && forall x :: x in rs ==> key(x) != key(r)
    ensures Distinct(rs + [r], key)
  {
  }

  lemma DistinctUpdate<K>(rs: seq<Request>, i: nat, r: Request, key: Request -> K)
    requires Distinct(rs, key) && i < |rs| && key(r) == key(rs[i])
    ensures Distinct(rs[i := r], key)
  {
  }

  lemma IssueKeepsPending(rs: seq<Request>, r: Request, now: nat)
    requires PendingInv(rs, now) && r.createdAt == r.lastSeen == Iso(now) && r.code != BLANK && r.pair.user != BLANK
    requires forall x :: x in rs ==> x.code != r.code && x.pair != r.pair
    ensures PendingInv(Pruned(rs + [r], now), now)
  {
    DistinctPush(rs, r, CodeOf());
    DistinctPush(rs, r, PairOf());
    PruneMakesPending(rs + [r], now);
  }

  lemma SeenKeepsPending(rs: seq<Request>, i: nat, username: Option<Key>, firstName: Option<Key>, now: nat)
    requires PendingInv(rs, now) && i < |rs|
    ensures PendingInv(rs[i := Seen(rs[i], username, firstName, now)], now)
  {
    var r := Seen(rs[i], username, firstName, now);
    DistinctUpdate(rs, i, r, CodeOf());
    DistinctUpdate(rs, i, r, PairOf());
    assert rs[i] in rs && WellDated(rs[i], now) && WellDated(r, now);
    forall x | x in rs[i := r] ensures x in rs || x == r { }
  }

  lemma WithoutKeepsPending(rs: seq<Request>, i: nat, now: nat)
    requires PendingInv(rs, now) && i < |rs|
    ensures PendingInv(Without(rs, i), now)
    ensures forall r :: r in Without(rs, i) ==> r in rs && r.code != rs[i].code
  {
    forall r | r in Without(rs, i) ensures r in rs && r.code != rs[i].code {
      if r in rs[..i] {
        var k :| 0 <= k < i && rs[..i][k] == r;
        assert CodeOf()(rs[k]) != CodeOf()(rs[i]);
      } else {
        var k :| 0 <= k < |rs[i + 1..]| && rs[i + 1..][k] == r;
        assert rs[i + 1 + k] == r && CodeOf()(rs[i]) != CodeOf()(rs[i + 1 + k]);
      }
    }
    WithoutKeepsDistinct(rs, i, CodeOf());
    WithoutKeepsDistinct(rs, i, PairOf());
  }

  lemma WithoutKeepsDistinct<K>(rs: seq<Request>, i: nat, key: Request -> K)
    requires Distinct(rs, key) && i < |rs|
    ensures Distinct(Without(rs, i), key)
  {
    var kept := Without(rs, i);
    assert forall k :: 0 <= k < |kept| ==> kept[k] == rs[if k < i then k else k + 1];
  }

  lemma PendingLater(rs: seq<Request>, since: int, now: int)
    requires PendingInv(rs, since) && since <= now
    ensures PendingInv(rs, now)
  {
  }

  lemma StepKeepsPending(s: Store, op: Op, since: nat, now: nat)
    requires PendingInv(s.pending, since) && since <= now && DrawFits(s, op, now)
    ensures PendingInv(After(s, op, now).0.pending, now)
  {
    var rs := Pruned(s.pending, now);
    PrunedKeepsInv(s.pending, since, now);
    PendingLater(s.pending, since, now);
    match op
    case Issue(pair, username, firstName, draw) =>
      var i := IndexOfPair(rs, pair);
      if pair.chat == BLANK || pair.user == BLANK {
      } else if i < |rs| {
        SeenKeepsPending(rs, i, username, firstName, now);
      } else if draw.Some? {
        PairIsNew(rs, pair);
        IssueKeepsPending(rs, Request(pair, OrBlank(username), OrBlank(firstName), draw.value, Iso(now), Iso(now)), now);
      }
    case Approve(code) => if IndexOfCode(rs, code) < |rs| { WithoutKeepsPending(rs, IndexOfCode(rs, code), now); }
    case Reject(code) => if IndexOfCode(rs, code) < |rs| { WithoutKeepsPending(rs, IndexOfCode(rs, code), now); }
    case _ =>
  }

  lemma {:induction false} DroppedKeepsApproved(entries: seq<Key>, entry: Key)
    requires ApprovedInv(entries)
    ensures ApprovedInv(Dropped(entries, entry))
  {
    if entries != [] {
      var first, rest := entries[0], entries[1..];
      assert forall x :: x in rest ==> x in entries;
      DroppedKeepsApproved(rest, entry);
      var kept := Dropped(rest, entry);
      assert forall k :: 0 <= k < |rest| ==> rest[k] == entries[k + 1];
      assert first !in rest;
      assert Dropped(entries, entry) == (if first == entry then [] else [first]) + kept;
    }
  }

  lemma StepKeepsApproved(s: Store, op: Op, now: nat)
    requires ApprovedInv(s.approved)
    ensures ApprovedInv(After(s, op, now).0.approved)
  {
    if op.Revoke? { DroppedKeepsApproved(Normalized(s.approved), op.entry); }
  }

  lemma GrantedIsAdded(approved: seq<Key>, granted: seq<Key>)
    requires BLANK !in approved
    ensures forall x :: x in Normalized(approved + granted) ==> x in approved || x in granted
    ensures forall x :: x in approved ==> x in Normalized(approved + granted)
  {
  }

  lemma ApproveAddsGranted(s: Store, code: Key, now: nat)
    requires ApprovedInv(s.approved)
    ensures var (after, answer) := AfterApprove(s, code, now);
            && (forall x :: x in after.approved ==> x in s.approved || (answer.Found? && x in Granted(answer.request)))
            && (forall x :: x in s.approved ==> x in after.approved)
  {
    NormalizedIsIdentity(s.approved);
    var rs := Pruned(s.pending, now);
    var i := IndexOfCode(rs, code);
    if i < |rs| { GrantedIsAdded(s.approved, Granted(rs[i])); }
  }

  lemma RevokeOnlyRemoves(s: Store, entry: Key)
    requires ApprovedInv(s.approved)
    ensures var after := AfterRevoke(s, entry).0;
            forall x :: (x in after.approved ==> x in s.approved) && (x in s.approved && x != entry ==> x in after.approved)
  {
    NormalizedIsIdentity(s.approved);
  }

  lemma OthersLeaveApproved(s: Store, op: Op, now: nat)
    requires ApprovedInv(s.approved) && !op.Approve? && !op.Revoke?
    ensures After(s, op, now).0.approved == s.approved
  {
    NormalizedIsIdentity(s.approved);
  }

  /** Only an approval that found its request adds entries, and only those it grants; only a revocation takes one away. */
  lemma OnlyApproveAdds(s: Store, op: Op, now: nat)
    requires ApprovedInv(s.approved)
    ensures var (after, answer) := After(s, op, now);
            && (forall x :: x in after.approved ==> x in s.approved || (op.Approve? && answer.Found? && x in Granted(answer.request)))
            && (forall x :: x in s.approved ==> x in after.approved || (op.Revoke? && x == op.entry))
  {
    match op
    case Approve(code) => ApproveAddsGranted(s, code, now);
    case Revoke(entry) => RevokeOnlyRemoves(s, entry);
    case _ => OthersLeaveApproved(s, op, now);
  }

  // ---------- Runs ----------

  datatype Call = Call(op: Op, at: nat)

  function Run(calls: seq<Call>): Store {
    if calls == [] then Store([], [])
    else After(Run(calls[..|calls| - 1]), calls[|calls| - 1].op, calls[|calls| - 1].at).0
  }

  function Now(calls: seq<Call>): nat {
    if calls == [] then 0 else calls[|calls| - 1].at
  }

  /** The clock never goes back, and every code is drawn until it differs from the pending ones. */
  ghost predicate Timely(calls: seq<Call>) {
    calls != [] ==>
      var before, last := calls[..|calls| - 1], calls[|calls| - 1];
      Timely(before) && Now(before) <= last.at && DrawFits(Run(before), last.op, last.at)
  }

  /** After any calls: codes and pairs are distinct, at most 256 requests are pending, and no entry is approved twice. */
  lemma {:induction false} RunKeepsInv(calls: seq<Call>)
    requires Timely(calls)
    ensures Inv(Run(calls), Now(calls))
  {
    if calls != [] {
      var before, last := calls[..|calls| - 1], calls[|calls| - 1];
      RunKeepsInv(before);
      StepKeepsPending(Run(before), last.op, Now(before), last.at);
      StepKeepsApproved(Run(before), last.op, last.at);
    }
  }

  /** The `n`-th call is an approval that granted the entry. */
  ghost predicate GrantedBy(calls: seq<Call>, n: nat, entry: Key)
    requires n < |calls|
  {
    var answer := After(Run(calls[..n]), calls[n].op, calls[n].at).1;
    calls[n].op.Approve? && answer.Found? && entry in Granted(answer.request)
  }

  /** Every approved entry goes back to an approval of a pending request. */
  lemma {:induction false} EntriesComeFromApprovals(calls: seq<Call>, entry: Key) returns (n: nat)
    requires Timely(calls) && entry in Run(calls).approved
    ensures n < |calls| && GrantedBy(calls, n, entry)
  {
    var before, last := calls[..|calls| - 1], calls[|calls| - 1];
    RunKeepsInv(before);
    OnlyApproveAdds(Run(before), last.op, last.at);
    if entry in Run(before).approved {
      n := EntriesComeFromApprovals(before, entry);
      assert before[..n] == calls[..n];
    } else {
      n := |calls| - 1;
    }
  }

  lemma NewAnswer(s: Store, pair: Pair, username: Option<Key>, firstName: Option<Key>, draw: Option<Key>, now: nat)
    ensures var (after, answer) := After(s, Issue(pair, username, firstName, draw), now);
            answer.New? ==>
              && draw.Some? && answer.request == Request(pair, OrBlank(username), OrBlank(firstName), draw.value, Iso(now), Iso(now))
              && after.pending == Pruned(Pruned(s.pending, now) + [answer.request], now)
  {
  }

  /** A newly issued request is pending when the call returns, whatever had to make way for it. */
  lemma NewRequestIsPending(calls: seq<Call>, pair: Pair, username: Option<Key>, firstName: Option<Key>, draw: Option<Key>, at: nat)
    requires Timely(calls) && Now(calls) <= at
    ensures var (after, answer) := After(Run(calls), Issue(pair, username, firstName, draw), at);
            answer.New? ==> answer.request in after.pending && answer.request.pair == pair
  {
    var s := Run(calls);
    var (after, answer) := After(s, Issue(pair, username, firstName, draw), at);
    if answer.New? {
      RunKeepsInv(calls);
      PrunedKeepsInv(s.pending, Now(calls), at);
      NewAnswer(s, pair, username, firstName, draw, at);
      NewRequestSurvives(Pruned(s.pending, at), answer.request, at);
    }
  }

  /** While it is pending, a request is found by its code: approving that code grants it and uses the code up. */
  lemma ApproveGrants(s: Store, r: Request, since: nat, now: nat)
    requires Inv(s, since) && since <= now && r in Pruned(s.pending, now)
    ensures var (after, answer) := After(s, Approve(r.code), now);
            && answer == Found(r)
            && (forall x :: x in after.approved <==> x in s.approved || (x in Granted(r) && x != BLANK))
            && r.pair.user in after.approved
            && After(after, Approve(r.code), now).1 == Nothing
  {
    var rs := Pruned(s.pending, now);
    var i := IndexOfCode(rs, r.code);
    PrunedKeepsInv(s.pending, since, now);
    CodeFindsRequest(rs, r);
    NormalizedIsIdentity(s.approved);
    WithoutKeepsPending(rs, i, now);
    assert Granted(r)[0] == r.pair.user;
  }

  lemma CodeFindsRequest(rs: seq<Request>, r: Request)
    requires Distinct(rs, CodeOf()) && r in rs
    ensures var i := IndexOfCode(rs, r.code); i < |rs| && rs[i] == r
  {
    var k :| 0 <= k < |rs| && rs[k] == r;
    var i := IndexOfCode(rs, r.code);
    assert i <= k && CodeOf()(rs[i]) == CodeOf()(rs[k]);
  }

  /** Rejecting forgets the request and approves nobody. */
  lemma RejectForgets(s: Store, r: Request, since: nat, now: nat)
    requires Inv(s, since) && since <= now && r in Pruned(s.pending, now)
    ensures var (after, answer) := After(s, Reject(r.code), now);
            && answer == Found(r) && after.approved == s.approved
            && (forall x :: x in after.pending <==> x in Pruned(s.pending, now) && x != r)
  {
    var rs := Pruned(s.pending, now);
    PrunedKeepsInv(s.pending, since, now);
    CodeFindsRequest(rs, r);
    NormalizedIsIdentity(s.approved);
    WithoutIsTheRest(rs, IndexOfCode(rs, r.code), now);
  }

  lemma WithoutIsTheRest(rs: seq<Request>, i: nat, now: nat)
    requires PendingInv(rs, now) && i < |rs|
    ensures forall x :: x in Without(rs, i) <==> x in rs && x != rs[i]
  {
    WithoutKeepsPending(rs, i, now);
    assert rs == rs[..i] + [rs[i]] + rs[i + 1..];
  }

  /** Revoking takes exactly the entry away. */
  lemma RevokeTakesAway(s: Store, entry: Key)
    requires ApprovedInv(s.approved) && entry in s.approved
    ensures var (after, answer) := After(s, Revoke(entry), 0);
            && answer == Entries(after.approved) && after.pending == s.pending
            && forall x :: x in after.approved <==> x in s.approved && x != entry
  {
    NormalizedIsIdentity(s.approved);
  }

  /** Issuing again for a pending pair only refreshes the request: its code stays. */
  lemma IssueTwiceKeepsCode(s: Store, r: Request, username: Option<Key>, firstName: Option<Key>, draw: Option<Key>, since: nat, now: nat)
    requires Inv(s, since) && since <= now && r in Pruned(s.pending, now) && r.pair.chat != BLANK
    ensures var (after, answer) := After(s, Issue(r.pair, username, firstName, draw), now);
            answer == Found(Seen(r, username, firstName, now)) && |after.pending| == |Pruned(s.pending, now)|
  {
    var rs := Pruned(s.pending, now);
    PrunedKeepsInv(s.pending, since, now);
    var k :| 0 <= k < |rs| && rs[k] == r;
    var i := IndexOfPair(rs, r.pair);
    assert i <= k && PairOf()(rs[i]) == PairOf()(rs[k]);
  }

  // ---------- The code ----------

  /** An id or a name as it is entered. */
  function Entered(s: string): Key {
    Key(Strip(s))
  }

  /** A name as it is entered, if it is. */
  function EnteredName(s: string): Option<Key> {
    if s == "" then None else Some(Entered(s))
  }

  /** A code as it is entered, in upper or lower case. */
  function EnteredCode(s: string): Key {
    Key(Upper(Strip(s)))
  }

  predicate IsCodeChar(c: char) {
    'A' <= c <= 'Z' || '2' <= c <= '9'
  }

  /** A code over the alphabet is recognised however it is cased and padded. */
  lemma CodeIsRecognised(code: string, typed: string)
    requires forall i :: 0 <= i < |code| ==> IsCodeChar(code[i])
    requires Strip(typed) == code || Strip(typed) == Lower(code)
    ensures EnteredCode(typed) == Key(code)
  {
    assert Upper(code) == code;
    assert Upper(Lower(code)) == code;
  }

  class TelegramPairingStore {
    var approved: seq<Key>
    var pending: seq<Request>

    function View(): Store
      reads this
    {
      Store(approved, pending)
    }

    constructor ()
      ensures View() == Store([], [])
    {
      approved, pending := [], [];
    }

    method NormalizeApproved(entries: seq<Key>) returns (normalized: seq<Key>)
      ensures normalized == Normalized(entries)
    {
      normalized := [];
      var seen: set<Key> := {};
      for i := 0 to |entries|
        invariant normalized == Normalized(entries[..i]) && forall x :: x in seen <==> x in normalized
      {
        assert entries[..i + 1][..i] == entries[..i];
        var value := entries[i];
        if value == BLANK || value in seen { continue; }
        seen := seen + {value};
        normalized := normalized + [value];
      }
      assert entries[..|entries|] == entries;
    }

    method PrunePending(requests: seq<Request>, now: nat) returns (kept: seq<Request>, removed: bool)
      ensures kept == Pruned(requests, now)
      ensures removed <==> kept != requests
    {
      kept, removed := [], false;
      for i := 0 to |requests|
        invariant kept == Unexpired(requests[..i], now)
        invariant removed <==> |kept| < i
      {
        assert requests[..i + 1][..i] == requests[..i];
        var request := requests[i];
        if now - request.createdAt > PENDING_TTL {
          removed := true;
          continue;
        }
        kept := kept + [request];
      }
      assert requests[..|requests|] == requests;
      if |kept| > MAX_PENDING {
        var sorted := Sorted(kept, BySeen());
        kept := sorted[|sorted| - MAX_PENDING..];
        removed := true;
      }
    }

    /** Tries random codes until one is not taken; `draws` are the random codes. */
    method GenerateUniqueCode(existing: set<Key>, draws: nat -> Key) returns (code: Option<Key>)
      ensures code.Some? ==> code.value !in existing && exists i :: 0 <= i < 500 && draws(i) == code.value
      ensures code.None? <==> forall i :: 0 <= i < 500 ==> draws(i) in existing
    {
      for i := 0 to CODE_TRIES
        invariant forall j :: 0 <= j < i ==> draws(j) in existing
      {
        var draw := draws(i);
        if draw !in existing { return Some(draw); }
      }
      return None;
    }

    method IssueRequest(chatId: string, userId: string, name: string, first: string, draws: nat -> Key, now: nat)
      returns (answer: Answer, ghost draw: Option<Key>)
      requires forall i :: draws(i) != BLANK
      modifies this
      ensures var op := Issue(Pair(Entered(chatId), Entered(userId)), EnteredName(name), EnteredName(first), draw);
              DrawFits(old(View()), op, now) && (View(), answer) == After(old(View()), op, now)
    {
      var pair := Pair(Entered(chatId), Entered(userId));
      answer, draw := IssueFor(pair, EnteredName(name), EnteredName(first), draws, now);
    }

    method ListRequests(now: nat) returns (answer: Answer)
      modifies this
      ensures (View(), answer) == After(old(View()), ListPending, now)
    {
      var requests, removed := PrunePending(pending, now);
      if removed { pending := requests; }
      return Requests(requests);
    }

    method ListApproved() returns (answer: Answer)
      modifies this
      ensures (View(), answer) == After(old(View()), ApprovedEntries, 0)
    {
      var next := NormalizeApproved(approved);
      if next != approved { approved := next; }
      return Entries(next);
    }

    method FindPair(requests: seq<Request>, pair: Pair) returns (i: nat)
      ensures i == IndexOfPair(requests, pair)
    {
      i := 0;
      while i < |requests| && requests[i].pair != pair
        invariant i <= |requests| && forall j :: 0 <= j < i ==> PairOf()(requests[j]) != pair
      {
        i := i + 1;
      }
      IndexIs(requests, PairOf(), pair, i);
    }

    method IssueFor(pair: Pair, username: Option<Key>, firstName: Option<Key>, draws: nat -> Key, now: nat)
      returns (answer: Answer, ghost draw: Option<Key>)
      requires forall i :: draws(i) != BLANK
      modifies this
      ensures DrawFits(old(View()), Issue(pair, username, firstName, draw), now)
      ensures (View(), answer) == After(old(View()), Issue(pair, username, firstName, draw), now)
    {
      draw := None;
      var next := NormalizeApproved(approved);
      var requests, _ := PrunePending(pending, now);
      if pair.chat == BLANK || pair.user == BLANK { return Raised, None; }
      var i := FindPair(requests, pair);
      if i < |requests| {
        var seen := Seen(requests[i], username, firstName, now);
        approved, pending := next, requests[i := seen];
        return Found(seen), None;
      }
      var code := GenerateUniqueCode(set r | r in requests :: r.code, draws);
      if code.None? { return Raised, None; }
      assert forall r :: r in requests ==> r.code != code.value;
      var request := Request(pair, OrBlank(username), OrBlank(firstName), code.value, Iso(now), Iso(now));
      AddRequest(next, requests, request, now);
      return New(request), code;
    }

    method AddRequest(next: seq<Key>, requests: seq<Request>, request: Request, now: nat)
      modifies this
      ensures View() == Store(next, Pruned(requests + [request], now))
    {
      var kept, _ := PrunePending(requests + [request], now);
      approved, pending := next, kept;
    }

    /** The first request with the code, and the others. */
    method TakeCode(requests: seq<Request>, code: Key) returns (target: Option<Request>, kept: seq<Request>)
      ensures var i := IndexOfCode(requests, code);
              if i < |requests| then target == Some(requests[i]) && kept == Without(requests, i) else target == None && kept == requests
    {
      target, kept := None, [];
      for i := 0 to |requests|
        invariant var f := IndexOfCode(requests, code);
                  if i <= f then target == None && kept == requests[..i]
                  else target == Some(requests[f]) && kept == requests[..f] + requests[f + 1..i]
      {
        var request := requests[i];
        if target.None? && request.code == code {
          target := Some(request);
          continue;
        }
        kept := kept + [request];
      }
      assert requests[..|requests|] == requests;
      ghost var f := IndexOfCode(requests, code);
      if f < |requests| { assert requests[f + 1..|requests|] == requests[f + 1..]; }
    }

    method ApproveCode(typed: string, now: nat) returns (answer: Answer)
      modifies this
      ensures (View(), answer) == After(old(View()), Approve(EnteredCode(typed)), now)
    {
      var code := EnteredCode(typed);
      if code == BLANK { return Nothing; }
      var next := NormalizeApproved(approved);
      var requests, removed := PrunePending(pending, now);
      var target, kept := TakeCode(requests, code);
      if target.None? {
        if removed { approved, pending := next, kept; }
        return Nothing;
      }
      var user := target.value.pair.user;
      var name := target.value.username;
      var more := next + [user];
      if name != BLANK { more := more + [name] + [At(name)]; }
      assert more == next + Granted(target.value);
      approved := NormalizeApproved(more);
      pending := kept;
      return Found(target.value);
    }

    method RejectCode(typed: string, now: nat) returns (answer: Answer)
      modifies this
      ensures (View(), answer) == After(old(View()), Reject(EnteredCode(typed)), now)
    {
      var code := EnteredCode(typed);
      if code == BLANK { return Nothing; }
      var next := NormalizeApproved(approved);
      var requests, removed := PrunePending(pending, now);
      var target, kept := TakeCode(requests, code);
      if target.None? {
        if removed { approved, pending := next, kept; }
        return Nothing;
      }
      approved, pending := next, kept;
      return Found(target.value);
    }

    method RevokeApproved(typed: string) returns (answer: Answer)
      modifies this
      ensures (View(), answer) == After(old(View()), Revoke(Entered(typed)), 0)
    {
      var entry := Entered(typed);
      if entry == BLANK { return Nothing; }
      var next := NormalizeApproved(approved);
      var kept := Dropped(next, entry);
      if kept == next { return Nothing; }
      approved := kept;
      return Entries(kept);
    }
  }

  lemma {:induction false} IndexIs<K>(rs: seq<Request>, key: Request -> K, k: K, i: nat)
    requires i <= |rs| && (forall j :: 0 <= j < i ==> key(rs[j]) != k) && (i < |rs| ==> key(rs[i]) == k)
    ensures IndexOf(rs, key, k) == i
  {
    if i > 0 { IndexIs(rs[1..], key, k, i - 1); }
  }
}
