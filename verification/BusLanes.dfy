/**
 One lane of the bus: a queue, the table of journal rows behind it, and the map from correlation ids to
 the row to acknowledge. A row's id is its position in the table.
 */
module BusLanes {

  datatype Id = Id(text: string)
  datatype Item<E> = Item(id: Id, event: E)
  datatype Row<E> = Row(item: Item<E>, acked: bool)
  datatype Lane<E> = Lane(queue: seq<Item<E>>, rows: seq<Row<E>>, ids: map<Id, nat>)

  /** Publish: enqueue, append a row, and remember it under the id, over whatever was remembered there. */
  function Published<E>(lane: Lane<E>, item: Item<E>): Lane<E> {
    Lane(lane.queue + [item], lane.rows + [Row(item, false)], lane.ids[item.id := |lane.rows|])
  }

  function Ack<E>(rows: seq<Row<E>>, r: nat): seq<Row<E>> {
    if r < |rows| then rows[r := rows[r].(acked := true)] else rows
  }

  /** Consume: dequeue, and acknowledge the remembered row, if there is one. */
  function Consumed<E>(lane: Lane<E>): Lane<E>
    requires lane.queue != []
  {
    var id := lane.queue[0].id;
    if id in lane.ids then Lane(lane.queue[1..], Ack(lane.rows, lane.ids[id]), lane.ids - {id})
    else Lane(lane.queue[1..], lane.rows, lane.ids)
  }

  /** The unacknowledged items in row order: what a restart would find. */
  function Unacked<E>(rows: seq<Row<E>>): seq<Item<E>> {
    if rows == [] then []
    else
      var front := Unacked(rows[..|rows| - 1]);
      var last := rows[|rows| - 1];
      if last.acked then front else front + [last.item]
  }

  function Ids<E>(items: seq<Item<E>>): seq<Id> {
    seq(|items|, i requires 0 <= i < |items| => items[i].id)
  }

  // ---------- Acknowledging one row ----------

  lemma UnackedPush<E>(rows: seq<Row<E>>, row: Row<E>)
    ensures Unacked(rows + [row]) == if row.acked then Unacked(rows) else Unacked(rows) + [row.item]
  {
    assert (rows + [row])[..|rows|] == rows;
  }

  lemma AckAtEnd<E>(front: seq<Row<E>>, last: Row<E>)
    ensures Ack(front + [last], |front|) == front + [last.(acked := true)]
  {
  }

  lemma AckLast<E>(front: seq<Row<E>>, last: Row<E>)
    requires !last.acked
    ensures Unacked(front + [last]) == Unacked(front) + [last.item]
    ensures Unacked(Ack(front + [last], |front|)) == Unacked(front)
  {
    AckAtEnd(front, last);
    UnackedPush(front, last);
    UnackedPush(front, last.(acked := true));
  }

  lemma AckBeforeLast<E>(front: seq<Row<E>>, last: Row<E>, r: nat, i: nat)
    requires r < |front| && i < |Unacked(front)|
    requires Unacked(Ack(front, r)) == Unacked(front)[..i] + Unacked(front)[i + 1..]
    ensures var all := Unacked(front + [last]);
            && i < |all| && all[i] == Unacked(front)[i]
            && Unacked(Ack(front + [last], r)) == all[..i] + all[i + 1..]
  {
    assert Ack(front + [last], r) == Ack(front, r) + [last];
    UnackedPush(front, last);
    UnackedPush(Ack(front, r), last);
    SpliceExtends(Unacked(front), last.item, i);
  }

  /** Acknowledging an open row takes exactly that item out, wherever it stands. */
  lemma {:induction false} AckRemovesOne<E>(rows: seq<Row<E>>, r: nat) returns (i: nat)
    requires r < |rows| && !rows[r].acked
    ensures i < |Unacked(rows)| && Unacked(rows)[i] == rows[r].item
    ensures Unacked(Ack(rows, r)) == Unacked(rows)[..i] + Unacked(rows)[i + 1..]
    ensures (forall j :: 0 <= j < r ==> rows[j].acked) ==> i == 0
    decreases |rows|
  {
    var n := |rows| - 1;
    var front, last := rows[..n], rows[n];
    assert rows == front + [last];
    if r == n {
      AckLast(front, last);
      i := |Unacked(front)|;
      if forall j :: 0 <= j < r ==> rows[j].acked { AllAcked(front); }
    } else {
      i := AckRemovesOne(front, r);
      AckBeforeLast(front, last, r, i);
    }
  }

  lemma SpliceExtends<T>(items: seq<T>, last: T, i: nat)
    requires i < |items|
    ensures (items + [last])[..i] + (items + [last])[i + 1..] == items[..i] + items[i + 1..] + [last]
  {
  }

  lemma {:induction false} AllAcked<E>(rows: seq<Row<E>>)
    requires forall j :: 0 <= j < |rows| ==> rows[j].acked
    ensures Unacked(rows) == []
    decreases |rows|
  {
    if rows != [] { AllAcked(rows[..|rows| - 1]); }
  }

  // ---------- Runs of one lane ----------

  /** A restart keeps the rows and loses the queue and the map. */
  datatype Op<E> = Publish(item: Item<E>) | Next | Restart

  function Apply<E>(lane: Lane<E>, op: Op<E>): Lane<E> {
    match op
    case Publish(item) => Published(lane, item)
    case Next => if lane.queue == [] then lane else Consumed(lane)
    case Restart => Lane([], lane.rows, map[])
  }

  /**
   A lane with its history: the first row of the present process, the rows whose map entry was
   overwritten or lost, and whether every id published by this process was absent from the queue then.
   */
  datatype World<E> = World(lane: Lane<E>, boot: nat, orphans: nat, distinct: bool)

  function Step<E>(w: World<E>, op: Op<E>): World<E> {
    var after := Apply(w.lane, op);
    match op
    case Publish(item) =>
      World(after, w.boot, w.orphans + (if item.id in w.lane.ids then 1 else 0), w.distinct && item.id !in Ids(w.lane.queue))
    case Next => w.(lane := after)
    case Restart => World(after, |w.lane.rows|, |Unacked(w.lane.rows)|, true)
  }

  function Run<E>(ops: seq<Op<E>>): World<E> {
    if ops == [] then World(Lane([], [], map[]), 0, 0, true)
    else Step(Run(ops[..|ops| - 1]), ops[|ops| - 1])
  }

  /** A remembered row is open, carries its id, belongs to this process, and its id is still queued. */
  ghost predicate MapInv<E>(w: World<E>) {
    && w.boot <= |w.lane.rows|
    && (forall c :: c in w.lane.ids ==>
          && w.boot <= w.lane.ids[c] < |w.lane.rows|
          && w.lane.rows[w.lane.ids[c]].item.id == c && !w.lane.rows[w.lane.ids[c]].acked
          && c in Ids(w.lane.queue))
  }

  ghost predicate CountInv<E>(w: World<E>) {
    && multiset(Ids(w.lane.queue)) <= multiset(Ids(Unacked(w.lane.rows)))
    && |Unacked(w.lane.rows)| == |w.lane.ids| + w.orphans
  }

  ghost predicate DistinctInv<E>(w: World<E>)
    requires w.boot <= |w.lane.rows|
  {
    w.distinct ==>
      && Unacked(w.lane.rows[w.boot..]) == w.lane.queue
      && (forall i, j :: 0 <= i < j < |w.lane.queue| ==> w.lane.queue[i].id != w.lane.queue[j].id)
      && (forall i :: 0 <= i < |w.lane.queue| ==> w.lane.queue[i].id in w.lane.ids)
  }

  ghost predicate Inv<E>(w: World<E>) {
    MapInv(w) && CountInv(w) && DistinctInv(w)
  }

  lemma IdsPush<E>(items: seq<Item<E>>, item: Item<E>)
    ensures Ids(items + [item]) == Ids(items) + [item.id]
  {
  }

  lemma IdsPop<E>(items: seq<Item<E>>)
    requires items != []
    ensures Ids(items) == [items[0].id] + Ids(items[1..])
  {
  }

  lemma IdsRemove<E>(items: seq<Item<E>>, i: nat)
    requires i < |items|
    ensures multiset(Ids(items)) == multiset(Ids(items[..i] + items[i + 1..])) + multiset{items[i].id}
  {
    assert Ids(items) == Ids(items[..i]) + [items[i].id] + Ids(items[i + 1..]);
    assert Ids(items[..i] + items[i + 1..]) == Ids(items[..i]) + Ids(items[i + 1..]);
  }

  lemma PublishKeepsMap<E>(w: World<E>, item: Item<E>)
    requires MapInv(w)
    ensures MapInv(Step(w, Op.Publish(item)))
  {
    var lane, after := w.lane, Step(w, Op.Publish(item)).lane;
    IdsPush(lane.queue, item);
    assert Ids(after.queue)[|lane.queue|] == item.id;
    forall c | c in after.ids && c != item.id ensures c in Ids(after.queue) {
      assert c in Ids(lane.queue);
    }
  }

  lemma PublishKeepsCounts<E>(w: World<E>, item: Item<E>)
    requires CountInv(w)
    ensures CountInv(Step(w, Op.Publish(item)))
  {
    var lane, after := w.lane, Step(w, Op.Publish(item)).lane;
    IdsPush(lane.queue, item);
    UnackedPush(lane.rows, Row(item, false));
    IdsPush(Unacked(lane.rows), item);
    assert after.ids.Keys == lane.ids.Keys + {item.id};
  }

  lemma PublishKeepsOrder<E>(w: World<E>, item: Item<E>)
    requires w.boot <= |w.lane.rows| && DistinctInv(w) && Step(w, Op.Publish(item)).distinct
    ensures DistinctInv(Step(w, Op.Publish(item)))
  {
    var lane, after := w.lane, Step(w, Op.Publish(item)).lane;
    assert Unacked(after.rows[w.boot..]) == after.queue by {
      assert after.rows[w.boot..] == lane.rows[w.boot..] + [Row(item, false)];
      UnackedPush(lane.rows[w.boot..], Row(item, false));
    }
    NewIdStaysDistinct(lane.queue, item);
  }

  lemma NewIdStaysDistinct<E>(queue: seq<Item<E>>, item: Item<E>)
    requires item.id !in Ids(queue) && forall i, j :: 0 <= i < j < |queue| ==> queue[i].id != queue[j].id
    ensures var longer := queue + [item]; forall i, j :: 0 <= i < j < |longer| ==> longer[i].id != longer[j].id
  {
    forall i | 0 <= i < |queue| ensures queue[i].id != item.id { assert Ids(queue)[i] == queue[i].id; }
  }

  lemma PublishKeepsInv<E>(w: World<E>, item: Item<E>)
    requires Inv(w)
    ensures Inv(Step(w, Op.Publish(item)))
  {
    PublishKeepsMap(w, item);
    PublishKeepsCounts(w, item);
    if Step(w, Op.Publish(item)).distinct { PublishKeepsOrder(w, item); }
  }

  lemma StillQueued<E>(queue: seq<Item<E>>, c: Id)
    requires queue != [] && c in Ids(queue) && c != queue[0].id
    ensures c in Ids(queue[1..])
  {
    IdsPop(queue);
  }

  lemma NextKeepsMap<E>(w: World<E>)
    requires MapInv(w) && w.lane.queue != []
    ensures MapInv(Step(w, Op<E>.Next))
  {
    var lane, after, id := w.lane, Step(w, Op<E>.Next).lane, w.lane.queue[0].id;
    forall c | c in after.ids
      ensures after.rows[after.ids[c]].item.id == c && !after.rows[after.ids[c]].acked && c in Ids(after.queue)
    {
      StillQueued(lane.queue, c);
      if id in lane.ids { assert lane.rows[lane.ids[id]].item.id == id; }
    }
  }

  lemma DropFromBoth(q: multiset<Id>, q': multiset<Id>, u: multiset<Id>, u': multiset<Id>, id: Id)
    requires q <= u && q == q' + multiset{id}
    requires u == u' + multiset{id} || u == u'
    ensures q' <= u'
  {
    forall x ensures q'[x] <= u'[x] {
      assert q[x] == q'[x] + multiset{id}[x];
      assert u == u' + multiset{id} ==> u[x] == u'[x] + multiset{id}[x];
      assert q[x] <= u[x];
    }
  }

  lemma NextKeepsCounts<E>(w: World<E>)
    requires MapInv(w) && CountInv(w) && w.lane.queue != []
    ensures CountInv(Step(w, Op<E>.Next))
  {
    var lane, after := w.lane, Step(w, Op<E>.Next).lane;
    IdsPop(lane.queue);
    var q, q' := multiset(Ids(lane.queue)), multiset(Ids(after.queue));
    var u, u' := multiset(Ids(Unacked(lane.rows))), multiset(Ids(Unacked(after.rows)));
    if lane.queue[0].id in lane.ids {
      NextAcksOne(w);
      assert after.ids.Keys == lane.ids.Keys - {lane.queue[0].id};
    }
    DropFromBoth(q, q', u, u', lane.queue[0].id);
  }

  lemma NextAcksOne<E>(w: World<E>)
    requires MapInv(w) && w.lane.queue != [] && w.lane.queue[0].id in w.lane.ids
    ensures var open, open' := Unacked(w.lane.rows), Unacked(Step(w, Op<E>.Next).lane.rows);
            |open| == |open'| + 1 && multiset(Ids(open)) == multiset(Ids(open')) + multiset{w.lane.queue[0].id}
  {
    var r := w.lane.ids[w.lane.queue[0].id];
    var i := AckRemovesOne(w.lane.rows, r);
    IdsRemove(Unacked(w.lane.rows), i);
  }

  lemma NextKeepsOrder<E>(w: World<E>)
    requires Inv(w) && w.lane.queue != [] && w.distinct
    ensures Unacked(Step(w, Op<E>.Next).lane.rows[w.boot..]) == w.lane.queue[1..]
  {
    var lane, id := w.lane, w.lane.queue[0].id;
    var r := lane.ids[id];
    var mine := lane.rows[w.boot..];
    assert mine[r - w.boot] == lane.rows[r];
    var i := AckRemovesOne(mine, r - w.boot);
    assert i == 0;
    assert Ack(lane.rows, r)[w.boot..] == Ack(mine, r - w.boot);
    assert lane.queue[..0] + lane.queue[1..] == lane.queue[1..];
  }

  lemma NextKeepsInv<E>(w: World<E>)
    requires Inv(w) && w.lane.queue != []
    ensures Inv(Step(w, Op<E>.Next))
  {
    NextKeepsMap(w);
    NextKeepsCounts(w);
    if w.distinct {
      NextKeepsOrder(w);
      var rest := w.lane.queue[1..];
      forall i | 0 <= i < |rest| ensures rest[i].id in Step(w, Op<E>.Next).lane.ids {
        assert rest[i] == w.lane.queue[i + 1];
      }
    }
  }

  lemma {:induction false} RunKeepsInv<E>(ops: seq<Op<E>>)
    ensures Inv(Run(ops))
    decreases |ops|
  {
    if ops != [] {
      var before, op := Run(ops[..|ops| - 1]), ops[|ops| - 1];
      RunKeepsInv(ops[..|ops| - 1]);
      match op
      case Publish(item) => PublishKeepsInv(before, item);
      case Next => if before.lane.queue != [] { NextKeepsInv(before); }
      case Restart => assert before.lane.rows[|before.lane.rows|..] == [];
    }
  }

  /** For every correlation id at least as many rows are unacknowledged as events are queued: a crash loses none. */
  lemma JournalCoversQueue<E>(ops: seq<Op<E>>)
    ensures multiset(Ids(Run(ops).lane.queue)) <= multiset(Ids(Unacked(Run(ops).lane.rows)))
  {
    RunKeepsInv(ops);
  }

  /** While no id is published that is still queued, the rows of this process mirror the queue in order. */
  lemma JournalMirrorsQueue<E>(ops: seq<Op<E>>)
    requires Run(ops).distinct
    ensures Run(ops).boot <= |Run(ops).lane.rows|
    ensures Unacked(Run(ops).lane.rows[Run(ops).boot..]) == Run(ops).lane.queue
  {
    RunKeepsInv(ops);
  }

  /** What this process put into the queue, and what it took out. */
  datatype Traffic<E> = Traffic(entered: seq<Item<E>>, handed: seq<Item<E>>)

  function Moved<E>(ops: seq<Op<E>>): Traffic<E> {
    if ops == [] then Traffic([], [])
    else
      var t := Moved(ops[..|ops| - 1]);
      match ops[|ops| - 1]
      case Publish(item) => t.(entered := t.entered + [item])
      case Next => if |t.handed| < |t.entered| then t.(handed := t.handed + [t.entered[|t.handed|]]) else t
      case Restart => Traffic([], [])
  }

  /** Events leave in the order in which they came, and none is lost or doubled on the way. */
  lemma {:induction false} FirstInFirstOut<E>(ops: seq<Op<E>>)
    ensures Moved(ops).entered == Moved(ops).handed + Run(ops).lane.queue
    decreases |ops|
  {
    if ops != [] {
      FirstInFirstOut(ops[..|ops| - 1]);
      var t, queue := Moved(ops[..|ops| - 1]), Run(ops[..|ops| - 1]).lane.queue;
      if ops[|ops| - 1].Next? && queue != [] {
        assert t.entered[|t.handed|] == queue[0];
        assert queue == [queue[0]] + queue[1..];
      }
    }
  }

  /** A drained queue leaves exactly the orphaned rows open: none, if and only if no remembered id was reused. */
  lemma DrainedQueueLeavesOrphans<E>(ops: seq<Op<E>>)
    requires Run(ops).lane.queue == []
    ensures |Unacked(Run(ops).lane.rows)| == Run(ops).orphans
  {
    RunKeepsInv(ops);
    var ids := Run(ops).lane.ids;
    assert ids.Keys == {};
  }

  /** The retry loop publishes every attempt under one id: two attempts, both consumed, leave a row open for good. */
  lemma ReusedIdLeavesRowOpen<E>(item: Item<E>)
    ensures var ops := [Op.Publish(item), Op.Publish(item), Op<E>.Next, Op<E>.Next];
            Run(ops).lane.queue == [] && Run(ops).orphans == 1
  {
    var empty: World<E> := Run([]);
    var w1, w2 := Step(empty, Op.Publish(item)), Step(Step(empty, Op.Publish(item)), Op.Publish(item));
    var o1: seq<Op<E>> := [Op.Publish(item)];
    var o2, o3, o4 := o1 + [Op.Publish(item)], o1 + [Op.Publish(item), Op<E>.Next], o1 + [Op.Publish(item), Op<E>.Next, Op<E>.Next];
    assert o1[..0] == [] && o2[..1] == o1 && o3[..2] == o2 && o4[..3] == o3;
    assert item.id in w1.lane.ids && w1.lane.queue == [item];
    assert w2.orphans == 1 && w2.lane.queue == [item, item];
    assert Run(o1) == w1;
    assert Run(o2) == w2;
    assert Run(o3) == Step(w2, Op<E>.Next);
    assert Run(o4) == Step(Step(w2, Op<E>.Next), Op<E>.Next);
    assert o4 == [Op.Publish(item), Op.Publish(item), Op<E>.Next, Op<E>.Next];
  }
}
