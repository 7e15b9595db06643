/** The on-disk journal of inbound messages: the record of a message, its key, and the file operations. */
module InboundJournal {
  import opened Wrappers
  import opened PyStrings
  import opened Events
  import opened BusLanes
  import opened BusQueue
  import opened Sequences
  import opened StableSort
  import opened KeyedJournal
  import InboundDurability

  const INBOUND_KEY_FIELD := "_inbound_idempotency_key"

  /** The stored fields of a message. */
  datatype Pending = Pending(
    channel: string, sessionId: string, userId: string, text: string, metadata: Metadata, createdAt: string)

  function PendingOf(e: InboundEvent): Pending {
    Pending(e.channel, e.sessionId, e.userId, e.text, e.metadata, e.createdAt)
  }

  /** A loaded message gets a new correlation id. */
  function EventOf(p: Pending, correlationId: string): InboundEvent {
    InboundEvent(p.channel, p.sessionId, p.userId, p.text, p.metadata, p.createdAt, 1, correlationId)
  }

  function Explicit(m: Metadata): string {
    if INBOUND_KEY_FIELD in m && m[INBOUND_KEY_FIELD].Truthy() then Strip(m[INBOUND_KEY_FIELD].Str()) else ""
  }

  function Payload(p: Pending, dumps: Metadata -> string): string {
    p.channel + "\n" + p.sessionId + "\n" + p.userId + "\n" + p.text + "\n" + dumps(p.metadata) + "\n" + p.createdAt
  }

  function RecordKey(p: Pending, sha: Digest, dumps: Metadata -> string): string {
    if Explicit(p.metadata) != "" then Explicit(p.metadata) else "inb:" + Hex(sha(Payload(p, dumps)))
  }

  function Clean(p: Pending): Option<Pending> {
    var q := p.(channel := Strip(p.channel), sessionId := Strip(p.sessionId), userId := Strip(p.userId));
    if q.channel == "" || q.sessionId == "" || q.userId == "" then None else Some(q)
  }

  function Records(sha: Digest, dumps: Metadata -> string): Schema<Pending, string> {
    Schema((p: Pending) => RecordKey(p, sha, dumps), (p: Pending) => p.createdAt, (p: Pending) => Clean(p))
  }

  lemma RecordsAreLawful(sha: Digest, dumps: Metadata -> string)
    ensures Lawful(Records(sha, dumps))
  {
    forall p: Pending | Clean(p).Some? ensures Clean(Clean(p).value) == Clean(p) {
      var q := Clean(p).value;
      assert Stripped(q.channel) && Stripped(q.sessionId) && Stripped(q.userId);
    }
  }

  // ---------- Which messages keep their key ----------

  predicate NotBlank(p: Pending) {
    Strip(p.channel) != "" && Strip(p.sessionId) != "" && Strip(p.userId) != ""
  }

  predicate AllStripped(p: Pending) {
    Stripped(p.channel) && Stripped(p.sessionId) && Stripped(p.userId)
  }

  lemma StripShortens(s: string)
    ensures |Strip(s)| <= |s|
    ensures |Strip(s)| == |s| ==> Strip(s) == s
  {
    StripIsSlice(s);
  }

  lemma StripIsSlice(s: string)
    ensures exists i, j :: 0 <= i <= j <= |s| && Strip(s) == s[i..j]
  {
    var l := LStrip(s);
    LStripIsSuffix(s);
    assert Strip(s) == l[..|Strip(s)|] == s[|s| - |l|..|s| - |l| + |Strip(s)|];
  }

  lemma {:induction false} LStripIsSuffix(s: string)
    ensures LStrip(s) == s[|s| - |LStrip(s)|..]
  {
    if s != "" && IsSpace(s[0]) { LStripIsSuffix(s[1..]); }
  }

  lemma CleanShortensPayload(p: Pending, dumps: Metadata -> string)
    requires NotBlank(p)
    ensures !AllStripped(p) ==> Payload(Clean(p).value, dumps) != Payload(p, dumps)
    ensures AllStripped(p) ==> Clean(p).value == p
  {
    StripShortens(p.channel);
    StripShortens(p.sessionId);
    StripShortens(p.userId);
  }

  /** A message is loaded under its own key exactly when nothing needed is blank and its key is explicit or nothing needs stripping. */
  lemma WellFormedIff(p: Pending, sha: Digest, dumps: Metadata -> string)
    requires Injective(sha)
    ensures InboundDurability.WellFormed(p, Records(sha, dumps))
            <==> NotBlank(p) && (Explicit(p.metadata) != "" || AllStripped(p))
  {
    if NotBlank(p) {
      CleanShortensPayload(p, dumps);
      var q := Clean(p).value;
      if Explicit(p.metadata) == "" && !AllStripped(p) && RecordKey(q, sha, dumps) == RecordKey(p, sha, dumps) {
        assert RecordKey(q, sha, dumps)[4..] == Hex(sha(Payload(q, dumps)));
        assert RecordKey(p, sha, dumps)[4..] == Hex(sha(Payload(p, dumps)));
        HexInjective(sha(Payload(q, dumps)), sha(Payload(p, dumps)));
      }
    }
  }

  /** An explicit key, stripped, is the record key; without one, or with a blank or false one, it is derived. */
  lemma ExplicitKeyWins(p: Pending, sha: Digest, dumps: Metadata -> string)
    ensures var v := if INBOUND_KEY_FIELD in p.metadata then p.metadata[INBOUND_KEY_FIELD] else Null;
            && (v.Text? && Strip(v.text) != "" ==> RecordKey(p, sha, dumps) == Strip(v.text))
            && ((v.Text? && Strip(v.text) == "") || !v.Truthy() ==> RecordKey(p, sha, dumps) == "inb:" + Hex(sha(Payload(p, dumps))))
  {
    assert Strip("") == "";
  }

  /** A load changes nothing but the padding of channel, session and user. */
  lemma LoadedMessageIs(p: Pending)
    ensures Clean(p).Some? <==> NotBlank(p)
    ensures Clean(p).Some? ==> Clean(p).value == Pending(Strip(p.channel), Strip(p.sessionId), Strip(p.userId), p.text, p.metadata, p.createdAt)
  {
  }

  /** A message that went through the journal comes back as it was, but for its correlation id and envelope version. */
  lemma RestoredMessageIs(e: InboundEvent, id: string)
    ensures var p := PendingOf(e);
            AllStripped(p) && NotBlank(p) ==>
              Clean(p) == Some(p) && EventOf(p, id) == e.(correlationId := id, envelopeVersion := 1)
  {
  }

  /** Ids, the printed metadata and the time are single lines; the text need not be. */
  predicate LinedPending(p: Pending, dumps: Metadata -> string) {
    OneLine(p.channel) && OneLine(p.sessionId) && OneLine(p.userId) && OneLine(dumps(p.metadata)) && OneLine(p.createdAt)
  }

  predicate SameMessage(p: Pending, q: Pending, dumps: Metadata -> string) {
    && p.channel == q.channel && p.sessionId == q.sessionId && p.userId == q.userId && p.text == q.text
    && dumps(p.metadata) == dumps(q.metadata) && p.createdAt == q.createdAt
  }

  lemma PendingPayloadIsFixed(p: Pending, q: Pending, dumps: Metadata -> string)
    requires LinedPending(p, dumps) && LinedPending(q, dumps) && Payload(p, dumps) == Payload(q, dumps)
    ensures SameMessage(p, q, dumps)
  {
    var p4 := p.channel + "\n" + p.sessionId + "\n" + p.userId + "\n" + p.text;
    var q4 := q.channel + "\n" + q.sessionId + "\n" + q.userId + "\n" + q.text;
    LastLineIsFixed(p4 + "\n" + dumps(p.metadata), p.createdAt, q4 + "\n" + dumps(q.metadata), q.createdAt);
    LastLineIsFixed(p4, dumps(p.metadata), q4, dumps(q.metadata));
    FourLinesAreFixed(p.channel, p.sessionId, p.userId, p.text, q.channel, q.sessionId, q.userId, q.text);
  }

  /** Two such messages without explicit keys share a record key exactly when they agree in everything the key is made of. */
  lemma SameRecordKeyIff(p: Pending, q: Pending, sha: Digest, dumps: Metadata -> string)
    requires Injective(sha) && LinedPending(p, dumps) && LinedPending(q, dumps)
    requires Explicit(p.metadata) == "" && Explicit(q.metadata) == ""
    ensures RecordKey(p, sha, dumps) == RecordKey(q, sha, dumps) <==> SameMessage(p, q, dumps)
  {
    if RecordKey(p, sha, dumps) == RecordKey(q, sha, dumps) {
      assert RecordKey(p, sha, dumps)[4..] == Hex(sha(Payload(p, dumps))) && RecordKey(q, sha, dumps)[4..] == Hex(sha(Payload(q, dumps)));
      HexInjective(sha(Payload(p, dumps)), sha(Payload(q, dumps)));
      PendingPayloadIsFixed(p, q, dumps);
    }
  }

  // ---------- The file ----------

  function Items(rows: seq<Pending>, ids: nat -> string): (r: seq<Item<InboundEvent>>)
    ensures |r| == |rows|
  {
    seq(|rows|, i requires 0 <= i < |rows| => Item(Id(ids(i)), EventOf(rows[i], ids(i))))
  }

  lemma EnqueueNext(lane: Lane<InboundEvent>, rows: seq<Pending>, i: nat, ids: nat -> string, journaled: bool)
    requires i < |rows|
    ensures EnqueuedAll(lane, Items(rows[..i + 1], ids), journaled)
            == Enqueued(EnqueuedAll(lane, Items(rows[..i], ids), journaled), Item(Id(ids(i)), EventOf(rows[i], ids(i))), journaled)
  {
    var items := Items(rows[..i + 1], ids);
    assert items[..|items| - 1] == Items(rows[..i], ids);
  }

  lemma {:induction false} CleanedPush(items: seq<Pending>, item: Pending, sc: Schema<Pending, string>)
    ensures Cleaned(items + [item], sc) == Cleaned(items, sc) + if sc.clean(item).Some? then [sc.clean(item).value] else []
    decreases |items|
  {
    if items == [] {
      assert [] + [item] == [item] && [item][1..] == [];
    } else {
      var all := items + [item];
      assert all[0] == items[0] && all[1..] == items[1..] + [item];
      CleanedPush(items[1..], item, sc);
    }
  }

  lemma CleanedExtends(items: seq<Pending>, i: nat, sc: Schema<Pending, string>)
    requires i < |items|
    ensures Cleaned(items[..i + 1], sc)
            == Cleaned(items[..i], sc) + (if sc.clean(items[i]).Some? then [sc.clean(items[i]).value] else [])
  {
    assert items[..i + 1] == items[..i] + [items[i]];
    CleanedPush(items[..i], items[i], sc);
  }

  /** Publishes one event after the other, up to the first that has to wait for room. */
  method QueueAll(bus: MessageQueue, events: seq<Pending>, ids: nat -> string) returns (queued: nat)
    modifies bus`inbound
    ensures queued == bus.RoomBeside(|old(bus.inbound.queue)|, |events|) <= |events|
    ensures bus.inbound == EnqueuedAll(old(bus.inbound), Items(events[..queued], ids), bus.journaled)
  {
    queued := 0;
    while queued < |events|
      invariant queued <= bus.RoomBeside(|old(bus.inbound.queue)|, |events|) <= |events|
      invariant bus.inbound == EnqueuedAll(old(bus.inbound), Items(events[..queued], ids), bus.journaled)
    {
      EnqueueNext(old(bus.inbound), events, queued, ids, bus.journaled);
      var outcome := bus.PublishInbound(EventOf(events[queued], ids(queued)), false);
      if outcome.Waiting? { return; }
      queued := queued + 1;
    }
  }

  class JournalFile {
    const sha: Digest
    const dumps: Metadata -> string
    var items: seq<Pending>
    var pendingCount: nat

    ghost function Sc(): Schema<Pending, string> { Records(sha, dumps) }

    constructor (sha: Digest, dumps: Metadata -> string)
      ensures items == [] && pendingCount == 0 && this.sha == sha && this.dumps == dumps
    {
      this.sha, this.dumps, items, pendingCount := sha, dumps, [], 0;
    }

    method Load() returns (events: seq<Pending>)
      modifies `pendingCount
      ensures events == Loaded(items, Sc()) && pendingCount == |events|
    {
      events := [];
      for i := 0 to |items|
        invariant events == Cleaned(items[..i], Sc())
      {
        CleanedExtends(items, i, Sc());
        var item := items[i];
        var event := Pending(Strip(item.channel), Strip(item.sessionId), Strip(item.userId), item.text, item.metadata, item.createdAt);
        if event.channel == "" || event.sessionId == "" || event.userId == "" { continue; }
        events := events + [event];
      }
      assert items[..|items|] == items;
      events := Sorted(events, ByTime(Records(sha, dumps)));
      pendingCount := |events|;
    }

    method Write(events: seq<Pending>)
      modifies this
      ensures items == events && pendingCount == |events|
    {
      pendingCount := |events|;
      items := events;
    }

    method Persist(e: InboundEvent)
      modifies this
      ensures items == Put(Loaded(old(items), Sc()), PendingOf(e), Sc()) && pendingCount == |items|
    {
      var sc := Records(sha, dumps);
      var events := Load();
      var kept := Without(events, RecordKey(PendingOf(e), sha, dumps), sc);
      Write(Sorted(kept + [PendingOf(e)], ByTime(sc)));
    }

    method Clear(e: InboundEvent)
      modifies this
      ensures items == Without(Loaded(old(items), Sc()), Sc().key(PendingOf(e)), Sc()) && pendingCount == |items|
    {
      var events := Load();
      Write(Without(events, RecordKey(PendingOf(e), sha, dumps), Records(sha, dumps)));
    }

    /**
     Queues the first `limit` records, in order, if nothing is queued; the file keeps them all. With fewer places
     in the queue the call waits after filling it.
     */
    method Restore(bus: MessageQueue, limit: nat, ids: nat -> string) returns (restored: nat, waiting: bool)
      modifies `pendingCount, bus`inbound
      ensures pendingCount == |Loaded(items, Sc())|
      ensures var rows := if old(bus.inbound.queue) != [] then [] else InboundDurability.FirstRows(Loaded(items, Sc()), limit);
              && restored == bus.RoomBeside(0, |rows|) <= |rows| && waiting == (restored < |rows|)
              && bus.inbound == EnqueuedAll(old(bus.inbound), Items(rows[..restored], ids), bus.journaled)
    {
      var events := Load();
      if bus.inbound.queue != [] || limit == 0 {
        NothingQueued(bus.inbound, ids, bus.journaled);
        return 0, false;
      }
      var budget := InboundDurability.FirstRows(events, limit);
      restored := QueueAll(bus, budget, ids);
      waiting := restored < |budget|;
    }
  }

  lemma NothingQueued(lane: Lane<InboundEvent>, ids: nat -> string, journaled: bool)
    ensures EnqueuedAll(lane, Items([], ids), journaled) == lane
  {
  }
}
