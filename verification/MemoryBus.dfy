/** The in-memory task queues of the bus (internal/distributed/bus.go): an item is
    queued, handed out and in flight, then acknowledged or put back at the end. */
module MemoryBus {
  import opened Wrappers

  /** The bus prints an id as the queue name, a dash and a counter no two items share. */
  datatype ItemId = ItemId(queue: string, n: nat)
  datatype Item = Item(id: ItemId, event: string)

  datatype Bus = Bus(queues: map<string, seq<Item>>, inflight: map<ItemId, Item>, n: nat, closed: bool)

  const EMPTY_BUS := Bus(map[], map[], 0, false)

  function QueueOf(b: Bus, queue: string): seq<Item> {
    if queue in b.queues then b.queues[queue] else []
  }

  function Enqueued(b: Bus, queue: string, event: string): Bus {
    if queue == "" || b.closed then b else
      b.(n := b.n + 1, queues := b.queues[queue := QueueOf(b, queue) + [Item(ItemId(queue, b.n + 1), event)]])
  }

  function Taken(b: Bus, queue: string): (Bus, Option<Item>) {
    if b.closed || QueueOf(b, queue) == [] then (b, None) else
      var item := b.queues[queue][0];
      (b.(queues := b.queues[queue := b.queues[queue][1..]], inflight := b.inflight[item.id := item]), Some(item))
  }

  function Acked(b: Bus, id: ItemId): Bus {
    b.(inflight := b.inflight - {id})
  }

  function Nacked(b: Bus, id: ItemId): Bus {
    if id !in b.inflight then b else
      b.(inflight := b.inflight - {id}, queues := b.queues[id.queue := QueueOf(b, id.queue) + [b.inflight[id]]])
  }

  function Closed(b: Bus): Bus {
    Bus(map[], map[], b.n, true)
  }

  class MemoryBus {
    var queues: map<string, seq<Item>>
    var inflight: map<ItemId, Item>
    var n: nat
    var closed: bool

    function State(): Bus
      reads this
    {
      Bus(queues, inflight, n, closed)
    }

    constructor ()
      ensures State() == EMPTY_BUS
    {
      queues, inflight, n, closed := map[], map[], 0, false;
    }

    method Enqueue(queue: string, event: string) returns (ok: bool)
      modifies this
      ensures ok == (queue != "" && !old(closed))
      ensures State() == Enqueued(old(State()), queue, event)
    {
      ok := queue != "" && !closed;
      if ok {
        n := n + 1;
        var items := if queue in queues then queues[queue] else [];
        queues := queues[queue := items + [Item(ItemId(queue, n), event)]];
      }
    }

    method TakeQueueItem(queue: string) returns (item: Option<Item>)
      modifies this
      ensures (State(), item) == Taken(old(State()), queue)
    {
      if closed || queue !in queues || queues[queue] == [] {
        return None;
      }
      var first := queues[queue][0];
      queues := queues[queue := queues[queue][1..]];
      inflight := inflight[first.id := first];
      item := Some(first);
    }

    method AckQueueItem(id: ItemId)
      modifies this
      ensures State() == Acked(old(State()), id)
    {
      inflight := inflight - {id};
    }

    method NackQueueItem(id: ItemId)
      modifies this
      ensures State() == Nacked(old(State()), id)
    {
      if id !in inflight {
        return;
      }
      var item := inflight[id];
      inflight := inflight - {id};
      var items := if id.queue in queues then queues[id.queue] else [];
      queues := queues[id.queue := items + [item]];
    }

    method Close()
      modifies this
      ensures State() == Closed(old(State()))
    {
      closed := true;
      queues, inflight := map[], map[];
    }
  }

  // ---- histories ----

  datatype Event = Enqueue(queue: string, event: string) | Take(queue: string) | Ack(id: ItemId) | Nack(id: ItemId)

  /** The bus together with what has happened on it. */
  datatype Ledger = Ledger(bus: Bus, accepted: map<ItemId, string>, acked: set<ItemId>, nacked: set<ItemId>,
                           handed: seq<ItemId>)

  const EMPTY_LEDGER := Ledger(EMPTY_BUS, map[], {}, {}, [])

  function Record(l: Ledger, e: Event): Ledger {
    match e
    case Enqueue(q, event) =>
      l.(bus := Enqueued(l.bus, q, event),
         accepted := if q == "" || l.bus.closed then l.accepted else l.accepted[ItemId(q, l.bus.n + 1) := event])
    case Take(q) =>
      var (b, item) := Taken(l.bus, q);
      l.(bus := b, handed := if item.Some? then l.handed + [item.value.id] else l.handed)
    case Ack(id) =>
      l.(bus := Acked(l.bus, id), acked := if id in l.bus.inflight then l.acked + {id} else l.acked)
    case Nack(id) =>
      l.(bus := Nacked(l.bus, id), nacked := if id in l.bus.inflight then l.nacked + {id} else l.nacked)
  }

  function RecordAll(l: Ledger, events: seq<Event>): Ledger
    decreases |events|
  {
    if events == [] then l else RecordAll(Record(l, events[0]), events[1..])
  }

  function Original(l: Ledger, id: ItemId): Item
    requires id in l.accepted
  {
    Item(id, l.accepted[id])
  }

  predicate IsQueued(l: Ledger, id: ItemId)
    requires id in l.accepted
  {
    Original(l, id) in QueueOf(l.bus, id.queue)
  }

  predicate ItemFits(l: Ledger, q: string, item: Item) {
    item.id.queue == q && item.id in l.accepted && item == Original(l, item.id) && item.id !in l.bus.inflight &&
    item.id !in l.acked
  }

  predicate NoRepeats(items: seq<Item>) {
    forall i, j :: 0 <= i < j < |items| ==> items[i] != items[j]
  }

  /** Every stored item is an accepted one, unchanged, and stored once. */
  ghost predicate Stored(l: Ledger) {
    !l.bus.closed && l.acked <= l.accepted.Keys && l.acked !! l.bus.inflight.Keys &&
    (forall id :: id in l.accepted ==> id.n <= l.bus.n) &&
    (forall id :: id in l.bus.inflight ==> id in l.accepted && l.bus.inflight[id] == Original(l, id)) &&
    (forall q: string, item :: item in QueueOf(l.bus, q) ==> ItemFits(l, q, item)) &&
    (forall q: string :: NoRepeats(QueueOf(l.bus, q)))
  }

  /** Conservation: until Close an accepted item is queued, in flight or acknowledged. */
  ghost predicate Conserved(l: Ledger) {
    Stored(l) && forall id :: id in l.accepted ==> IsQueued(l, id) || id in l.bus.inflight || id in l.acked
  }

  lemma ExactlyOnePlace(l: Ledger, id: ItemId)
    requires Conserved(l) && id in l.accepted
    ensures IsQueued(l, id) ==> id !in l.bus.inflight && id !in l.acked
    ensures id in l.bus.inflight ==> id !in l.acked
    ensures IsQueued(l, id) || id in l.bus.inflight || id in l.acked
  {
    if IsQueued(l, id) {
      assert ItemFits(l, id.queue, Original(l, id));
    }
  }

  lemma NoRepeatsAppend(items: seq<Item>, item: Item)
    requires NoRepeats(items) && item !in items
    ensures NoRepeats(items + [item])
  {
  }

  lemma EnqueueConserves(l: Ledger, q: string, event: string)
    requires Conserved(l)
    ensures Conserved(Record(l, Enqueue(q, event)))
  {
    if q != "" {
      var l' := Record(l, Enqueue(q, event));
      var id := ItemId(q, l.bus.n + 1);
      assert id !in l.accepted;
      assert QueueOf(l'.bus, q) == QueueOf(l.bus, q) + [Item(id, event)];
      assert forall p: string :: p != q ==> QueueOf(l'.bus, p) == QueueOf(l.bus, p);
      forall p: string, item | item in QueueOf(l'.bus, p)
        ensures ItemFits(l', p, item)
      {
        assert item in QueueOf(l.bus, p) ==> ItemFits(l, p, item);
      }
      assert Item(id, event) in QueueOf(l.bus, q) ==> ItemFits(l, q, Item(id, event));
      NoRepeatsAppend(QueueOf(l.bus, q), Item(id, event));
      forall p: string
        ensures NoRepeats(QueueOf(l'.bus, p))
      {
        assert NoRepeats(QueueOf(l.bus, p));
      }
      forall x | x in l'.accepted
        ensures IsQueued(l', x) || x in l'.bus.inflight || x in l'.acked
      {
        if x != id {
          assert IsQueued(l, x) || x in l.bus.inflight || x in l.acked;
        }
      }
    }
  }

  lemma TakeConserves(l: Ledger, q: string)
    requires Conserved(l)
    ensures Conserved(Record(l, Take(q)))
  {
    var items := QueueOf(l.bus, q);
    if items != [] {
      var l' := Record(l, Take(q));
      var first := items[0];
      assert ItemFits(l, q, first);
      assert items == [first] + items[1..];
      assert QueueOf(l'.bus, q) == items[1..];
      assert forall p: string :: p != q ==> QueueOf(l'.bus, p) == QueueOf(l.bus, p);
      assert NoRepeats(items);
      forall p: string, item | item in QueueOf(l'.bus, p)
        ensures ItemFits(l', p, item)
      {
        assert item in QueueOf(l.bus, p);
        assert ItemFits(l, p, item);
        assert item.id != first.id;
      }
      forall p: string
        ensures NoRepeats(QueueOf(l'.bus, p))
      {
        assert NoRepeats(QueueOf(l.bus, p));
      }
      forall x | x in l'.accepted
        ensures IsQueued(l', x) || x in l'.bus.inflight || x in l'.acked
      {
        assert IsQueued(l, x) || x in l.bus.inflight || x in l.acked;
      }
    }
  }

  lemma AckConserves(l: Ledger, id: ItemId)
    requires Conserved(l)
    ensures Conserved(Record(l, Ack(id)))
  {
    var l' := Record(l, Ack(id));
    forall p: string, item | item in QueueOf(l'.bus, p)
      ensures ItemFits(l', p, item)
    {
      assert item in QueueOf(l.bus, p);
      assert ItemFits(l, p, item);
    }
    assert forall p: string :: QueueOf(l'.bus, p) == QueueOf(l.bus, p);
    forall x | x in l'.accepted
      ensures IsQueued(l', x) || x in l'.bus.inflight || x in l'.acked
    {
      assert IsQueued(l, x) || x in l.bus.inflight || x in l.acked;
    }
  }

  lemma NackConserves(l: Ledger, id: ItemId)
    requires Conserved(l)
    ensures Conserved(Record(l, Nack(id)))
  {
    if id in l.bus.inflight {
      var l' := Record(l, Nack(id));
      var item := l.bus.inflight[id];
      assert QueueOf(l'.bus, id.queue) == QueueOf(l.bus, id.queue) + [item];
      assert forall p: string :: p != id.queue ==> QueueOf(l'.bus, p) == QueueOf(l.bus, p);
      forall p: string, x | x in QueueOf(l'.bus, p)
        ensures ItemFits(l', p, x)
      {
        assert x in QueueOf(l.bus, p) ==> ItemFits(l, p, x);
      }
      assert item in QueueOf(l.bus, id.queue) ==> ItemFits(l, id.queue, item);
      NoRepeatsAppend(QueueOf(l.bus, id.queue), item);
      forall p: string
        ensures NoRepeats(QueueOf(l'.bus, p))
      {
        assert NoRepeats(QueueOf(l.bus, p));
      }
      forall x | x in l'.accepted
        ensures IsQueued(l', x) || x in l'.bus.inflight || x in l'.acked
      {
        assert IsQueued(l, x) || x in l.bus.inflight || x in l.acked;
      }
    }
  }

  lemma EventConserves(l: Ledger, e: Event)
    requires Conserved(l)
    ensures Conserved(Record(l, e))
  {
    match e
    case Enqueue(q, event) => EnqueueConserves(l, q, event);
    case Take(q) => TakeConserves(l, q);
    case Ack(id) => AckConserves(l, id);
    case Nack(id) => NackConserves(l, id);
  }

  /** Conservation over any history up to Close, whoever enqueues, takes and settles. */
  lemma {:induction false} AlwaysConserved(l: Ledger, events: seq<Event>)
    requires Conserved(l)
    ensures Conserved(RecordAll(l, events))
    decreases |events|
  {
    if events != [] {
      EventConserves(l, events[0]);
      AlwaysConserved(Record(l, events[0]), events[1..]);
    }
  }

  lemma {:induction false} RecordAllAppend(l: Ledger, a: seq<Event>, b: seq<Event>)
    ensures RecordAll(l, a + b) == RecordAll(RecordAll(l, a), b)
    decreases |a|
  {
    if a == [] {
      assert a + b == b;
    } else {
      assert (a + b)[1..] == a[1..] + b;
      RecordAllAppend(Record(l, a[0]), a[1..], b);
    }
  }

  /** An acknowledged item is never handed out again, and no later put-back by anyone
      brings it back. */
  lemma {:induction false} AckIsFinal(l: Ledger, events: seq<Event>, id: ItemId)
    requires Conserved(l) && id in l.acked
    ensures var l' := RecordAll(l, events);
      |l.handed| <= |l'.handed| && id in l'.acked && id !in l'.handed[|l.handed|..]
    decreases |events|
  {
    if events != [] {
      var m := Record(l, events[0]);
      var l' := RecordAll(m, events[1..]);
      EventConserves(l, events[0]);
      HandedGrows(l, events[0]);
      if events[0].Take? && QueueOf(l.bus, events[0].queue) != [] {
        assert ItemFits(l, events[0].queue, QueueOf(l.bus, events[0].queue)[0]);
      }
      AckIsFinal(m, events[1..], id);
      assert forall k :: |l.handed| <= k < |m.handed| ==> m.handed[k] != id;
      HandedExtends(m, events[1..]);
      assert l'.handed[|l.handed|..] == m.handed[|l.handed|..] + l'.handed[|m.handed|..];
    }
  }

  lemma HandedGrows(l: Ledger, e: Event)
    ensures l.handed <= Record(l, e).handed
  {
  }

  lemma {:induction false} HandedExtends(l: Ledger, events: seq<Event>)
    ensures l.handed <= RecordAll(l, events).handed
    decreases |events|
  {
    if events != [] {
      HandedGrows(l, events[0]);
      HandedExtends(Record(l, events[0]), events[1..]);
    }
  }

  // ---- order ----

  /** a before b, unless one of them was put back. */
  predicate InOrder(nacked: set<ItemId>, a: ItemId, b: ItemId) {
    a.queue == b.queue && a !in nacked && b !in nacked ==> a.n < b.n
  }

  /** First in, first out, for the items nobody has put back: within each queue, from
      what was handed out to what is still queued, and among what was handed out. */
  ghost predicate Ordered(l: Ledger) {
    (forall q: string, i, j :: 0 <= i < j < |QueueOf(l.bus, q)| ==>
      InOrder(l.nacked, QueueOf(l.bus, q)[i].id, QueueOf(l.bus, q)[j].id)) &&
    (forall k, q: string, i :: 0 <= k < |l.handed| && 0 <= i < |QueueOf(l.bus, q)| ==>
      InOrder(l.nacked, l.handed[k], QueueOf(l.bus, q)[i].id)) &&
    HandedInOrder(l) &&
    (forall k :: 0 <= k < |l.handed| ==> l.handed[k] in l.accepted)
  }

  predicate HandedInOrder(l: Ledger) {
    forall j, k :: 0 <= j < k < |l.handed| ==> InOrder(l.nacked, l.handed[j], l.handed[k])
  }

  lemma TakeKeepsOrder(l: Ledger, q: string)
    requires Conserved(l) && Ordered(l)
    ensures Ordered(Record(l, Take(q)))
  {
    var items := QueueOf(l.bus, q);
    if items != [] {
      var l' := Record(l, Take(q));
      assert ItemFits(l, q, items[0]);
      assert QueueOf(l'.bus, q) == items[1..];
      assert forall p: string :: p != q ==> QueueOf(l'.bus, p) == QueueOf(l.bus, p);
      forall k, p: string, i | 0 <= k < |l'.handed| && 0 <= i < |QueueOf(l'.bus, p)|
        ensures InOrder(l'.nacked, l'.handed[k], QueueOf(l'.bus, p)[i].id)
      {
        var item := QueueOf(l'.bus, p)[i];
        assert p == q ==> item == items[i + 1];
        if k == |l.handed| && p != q {
          assert item in QueueOf(l.bus, p);
          assert ItemFits(l, p, item);
        }
      }
    }
  }

  lemma EnqueueKeepsOrder(l: Ledger, q: string, event: string)
    requires Conserved(l) && Ordered(l)
    ensures Ordered(Record(l, Enqueue(q, event)))
  {
    if q != "" {
      var l' := Record(l, Enqueue(q, event));
      var items := QueueOf(l.bus, q);
      assert QueueOf(l'.bus, q) == items + [Item(ItemId(q, l.bus.n + 1), event)];
      assert forall p: string :: p != q ==> QueueOf(l'.bus, p) == QueueOf(l.bus, p);
      forall i | 0 <= i < |items|
        ensures items[i].id.n <= l.bus.n
      {
        assert items[i] in items && ItemFits(l, q, items[i]);
      }
    }
  }

  lemma NackKeepsOrder(l: Ledger, id: ItemId)
    requires Conserved(l) && Ordered(l)
    ensures Ordered(Record(l, Nack(id)))
  {
    hide Conserved;
    if id in l.bus.inflight {
      var l' := Record(l, Nack(id));
      InFlightIsItself(l, id);
      assert QueueOf(l'.bus, id.queue) == QueueOf(l.bus, id.queue) + [l.bus.inflight[id]];
      assert forall p: string :: p != id.queue ==> QueueOf(l'.bus, p) == QueueOf(l.bus, p);
    }
  }

  lemma InFlightIsItself(l: Ledger, id: ItemId)
    requires Conserved(l) && id in l.bus.inflight
    ensures l.bus.inflight[id].id == id
  {
  }

  lemma EventKeepsOrder(l: Ledger, e: Event)
    requires Conserved(l) && Ordered(l)
    ensures Ordered(Record(l, e))
  {
    match e
    case Enqueue(q, event) => EnqueueKeepsOrder(l, q, event);
    case Take(q) => TakeKeepsOrder(l, q);
    case Ack(id) => assert forall p: string :: QueueOf(Record(l, e).bus, p) == QueueOf(l.bus, p);
    case Nack(id) => NackKeepsOrder(l, id);
  }

  /** Over any history: items that were never put back leave each queue in the order in
      which they were enqueued. */
  lemma {:induction false} AlwaysFifo(l: Ledger, events: seq<Event>)
    requires Conserved(l) && Ordered(l)
    ensures Ordered(RecordAll(l, events)) && HandedInOrder(RecordAll(l, events))
    decreases |events|
  {
    if events != [] {
      EventConserves(l, events[0]);
      EventKeepsOrder(l, events[0]);
      AlwaysFifo(Record(l, events[0]), events[1..]);
    }
  }

  function IdsOf(items: seq<Item>): (ids: seq<ItemId>)
    ensures |ids| == |items| && forall i :: 0 <= i < |items| ==> ids[i] == items[i].id
  {
    seq(|items|, i requires 0 <= i < |items| => items[i].id)
  }

  function Takes(queue: string, n: nat): (events: seq<Event>)
    ensures |events| == n
  {
    if n == 0 then [] else [Take(queue)] + Takes(queue, n - 1)
  }

  /** Taking from a queue hands out what stands in it, front first. */
  lemma {:induction false} TakesInOrder(l: Ledger, queue: string, n: nat)
    requires !l.bus.closed && n <= |QueueOf(l.bus, queue)|
    ensures var after := RecordAll(l, Takes(queue, n));
      after.handed == l.handed + IdsOf(QueueOf(l.bus, queue)[..n]) &&
      QueueOf(after.bus, queue) == QueueOf(l.bus, queue)[n..]
    decreases n
  {
    if n > 0 {
      var items := QueueOf(l.bus, queue);
      var next := Record(l, Take(queue));
      assert QueueOf(next.bus, queue) == items[1..];
      assert Takes(queue, n)[1..] == Takes(queue, n - 1);
      TakesInOrder(next, queue, n - 1);
      assert items[..n] == [items[0]] + items[1..][..n - 1];
      assert IdsOf(items[..n]) == [items[0].id] + IdsOf(items[1..][..n - 1]);
    }
  }

  function IdOf(l: Ledger, e: Event): ItemId
    requires e.Enqueue? || e.Nack?
  {
    if e.Enqueue? then ItemId(e.queue, l.bus.n + 1) else e.id
  }

  lemma PutLast(l: Ledger, e: Event)
    requires Conserved(l) && ((e.Enqueue? && e.queue != "") || (e.Nack? && e.id in l.bus.inflight))
    ensures var id := IdOf(l, e); var before, after := QueueOf(l.bus, id.queue), QueueOf(Record(l, e).bus, id.queue);
      |after| == |before| + 1 && after[..|before|] == before && after[|before|].id == id
    ensures !Record(l, e).bus.closed && Record(l, e).handed == l.handed
  {
  }

  /** An item that is enqueued or put back is handed out after all that stand in its queue,
      and as the next one then. */
  lemma LastInLine(l: Ledger, e: Event)
    requires Conserved(l) && ((e.Enqueue? && e.queue != "") || (e.Nack? && e.id in l.bus.inflight))
    ensures var id := IdOf(l, e); var line := IdsOf(QueueOf(l.bus, id.queue));
      RecordAll(Record(l, e), Takes(id.queue, |line| + 1)).handed == l.handed + line + [id]
  {
    hide Conserved, Record, RecordAll;
    PutLast(l, e);
    var id := IdOf(l, e);
    var items, now := QueueOf(l.bus, id.queue), QueueOf(Record(l, e).bus, id.queue);
    TakesInOrder(Record(l, e), id.queue, |now|);
    assert now[..|now|] == now;
    assert IdsOf(now) == IdsOf(items) + [id];
  }

  /** What each call leaves alone: a refused message changes nothing, and once the bus is
      closed nothing is queued, handed out or in flight any more. */
  lemma Refusals(b: Bus, queue: string, event: string, id: ItemId)
    ensures Enqueued(b, queue, event) == b <==> queue == "" || b.closed
    ensures var c := Closed(b);
      Enqueued(c, queue, event) == c && Taken(c, queue) == (c, None) && Nacked(c, id) == c && Acked(c, id) == c &&
      QueueOf(c, queue) == [] && c.inflight == map[]
  {
    assert Enqueued(b, queue, event).n != b.n || Enqueued(b, queue, event) == b;
  }

  lemma EmptyLedgerFits()
    ensures Conserved(EMPTY_LEDGER) && Ordered(EMPTY_LEDGER)
  {
  }
}
