/**
 The transactional outbox as a step system: create_order transactions, any number of relay workers,
 and one append-only broker log.  UUIDs are abstract identifiers.
 */
module Outbox {
  import opened Sequences

  type OrderId = nat
  type EventId = nat
  type RowId = nat

  const TOPIC_ORDER_EVENTS := "order.events"

  datatype Item = Item(productId: string, quantity: int, price: int)

  datatype Order = Order(userId: string, items: seq<Item>, totalPrice: int, status: string)

  datatype Payload = Payload(orderId: OrderId, userId: string, items: seq<Item>, totalPrice: int)

  datatype Row = Row(id: RowId, eventId: EventId, aggregateType: string, aggregateId: OrderId, eventType: string,
                     topic: string, payload: Payload, headers: map<string, string>)

  /** A committed outbox row; `published` stands for published_at IS NOT NULL. */
  datatype OutRow = OutRow(row: Row, published: bool)

  /** A broker record; `eventId` is the event_id header, absent on foreign messages. */
  datatype Message = Message(topic: string, key: OrderId, value: Payload,
                             eventId: Option<EventId>, eventType: string, headers: map<string, string>)

  /** A create_order transaction that has taken its row id but is not committed yet. */
  datatype Txn = Txn(orderId: OrderId, order: Order, row: Row)

  /** A relay worker between ticks, or inside the transaction of `_tick` with `sent` rows published. */
  datatype Worker = Idle | Tick(batch: seq<Row>, sent: nat)

  /**
   `limbo` holds rows whose send raised while the record may still reach the broker;
   `rolled` records the sends made by ticks that were rolled back.
   */
  datatype State = State(
    orders: map<OrderId, Order>,
    outbox: map<RowId, OutRow>,
    nextId: nat,
    open: map<RowId, Txn>,
    workers: seq<Worker>,
    limbo: seq<Row>,
    log: seq<Message>,
    rolled: seq<EventId>)

  datatype Action =
    | Begin(orderId: OrderId, userId: string, items: seq<Item>, eventId: EventId)
    | Commit(id: RowId)
    | Abort(id: RowId)
    | Lock(w: nat)
    | Send(w: nat)
    | Raise(w: nat)
    | Rollback(w: nat)
    | Mark(w: nat)
    | LateAppend(i: nat)

  function TotalPrice(items: seq<Item>): int {
    if items == [] then 0
    else TotalPrice(items[..|items| - 1]) + items[|items| - 1].price * items[|items| - 1].quantity
  }

  function NewOrder(userId: string, items: seq<Item>): Order {
    Order(userId, items, TotalPrice(items), "CREATED")
  }

  /** The outbox row that create_order enqueues for an order. */
  function RowFor(id: RowId, eventId: EventId, orderId: OrderId, order: Order): Row {
    Row(id, eventId, "Order", orderId, "OrderCreated", TOPIC_ORDER_EVENTS,
        Payload(orderId, order.userId, order.items, order.totalPrice), map["schema_version" := "1"])
  }

  function MessageOf(row: Row): Message {
    Message(row.topic, row.aggregateId, row.payload, Some(row.eventId), row.eventType, row.headers)
  }

  function Init(workers: nat): State {
    State(map[], map[], 0, map[], seq(workers, _ => Idle), [], [], [])
  }

  predicate Locks(worker: Worker, id: RowId) {
    worker.Tick? && exists r | r in worker.batch :: r.id == id
  }

  predicate IsLocked(workers: seq<Worker>, id: RowId) {
    exists w | 0 <= w < |workers| :: Locks(workers[w], id)
  }

  predicate Available(s: State, id: RowId) {
    id in s.outbox && !s.outbox[id].published && !IsLocked(s.workers, id)
  }

  /** SELECT ... WHERE published_at IS NULL ORDER BY id FOR UPDATE SKIP LOCKED LIMIT n, from id lo on. */
  function Select(s: State, lo: nat, n: nat): seq<Row>
    decreases s.nextId - lo
  {
    if n == 0 || lo >= s.nextId then []
    else if Available(s, lo) then [s.outbox[lo].row] + Select(s, lo + 1, n - 1)
    else Select(s, lo + 1, n)
  }

  predicate EventIdUsed(outbox: map<RowId, OutRow>, e: EventId) {
    exists id | id in outbox :: outbox[id].row.eventId == e
  }

  predicate InTick(s: State, w: nat) {
    w < |s.workers| && s.workers[w].Tick?
  }

  predicate Enabled(s: State, a: Action) {
    match a
    case Begin(_, _, _, _) => true
    case Commit(id) =>
      id in s.open && s.open[id].orderId !in s.orders && !EventIdUsed(s.outbox, s.open[id].row.eventId)
    case Abort(id) => id in s.open
    case Lock(w) => w < |s.workers| && s.workers[w].Idle?
    case Send(w) => InTick(s, w) && s.workers[w].sent < |s.workers[w].batch|
    case Raise(w) => InTick(s, w) && s.workers[w].sent < |s.workers[w].batch|
    case Rollback(w) => InTick(s, w)
    case Mark(w) => InTick(s, w) && s.workers[w].sent == |s.workers[w].batch|
    case LateAppend(i) => i < |s.limbo|
  }

  /** UPDATE outbox SET published_at = now WHERE id = ANY(ids) */
  function MarkPublished(outbox: map<RowId, OutRow>, batch: seq<Row>): map<RowId, OutRow> {
    map id | id in outbox ::
      if exists r | r in batch :: r.id == id then outbox[id].(published := true) else outbox[id]
  }

  function EventIds(rows: seq<Row>): seq<EventId> {
    seq(|rows|, i requires 0 <= i < |rows| => rows[i].eventId)
  }

  /** The events an open tick has sent so far. */
  function SentEvents(worker: Worker): seq<EventId>
  {
    if worker.Tick? && worker.sent <= |worker.batch| then EventIds(worker.batch[..worker.sent]) else []
  }

  function Apply(batchSize: nat, s: State, a: Action): State
    requires Enabled(s, a)
  {
    match a
    case Begin(orderId, userId, items, eventId) =>
      var order := NewOrder(userId, items);
      s.(nextId := s.nextId + 1,
         open := s.open[s.nextId := Txn(orderId, order, RowFor(s.nextId, eventId, orderId, order))])
    case Commit(id) =>
      var t := s.open[id];
      s.(orders := s.orders[t.orderId := t.order], outbox := s.outbox[id := OutRow(t.row, false)],
         open := s.open - {id})
    case Abort(id) => s.(open := s.open - {id})
    case Lock(w) =>
      var batch := Select(s, 0, batchSize);
      if batch == [] then s else s.(workers := s.workers[w := Tick(batch, 0)])
    case Send(w) =>
      var t := s.workers[w];
      s.(log := s.log + [MessageOf(t.batch[t.sent])], workers := s.workers[w := t.(sent := t.sent + 1)])
    case Raise(w) =>
      var t := s.workers[w];
      s.(workers := s.workers[w := Idle], rolled := s.rolled + SentEvents(t),
         limbo := s.limbo + [t.batch[t.sent]])
    case Rollback(w) =>
      s.(workers := s.workers[w := Idle], rolled := s.rolled + SentEvents(s.workers[w]))
    case Mark(w) =>
      s.(workers := s.workers[w := Idle], outbox := MarkPublished(s.outbox, s.workers[w].batch))
    case LateAppend(i) =>
      s.(log := s.log + [MessageOf(s.limbo[i])], limbo := RemoveAt(s.limbo, i),
         rolled := s.rolled + [s.limbo[i].eventId])
  }

  /** The state after a sequence of actions, or None when one of them is not enabled where it stands. */
  function Run(batchSize: nat, s: State, acts: seq<Action>): Option<State>
    decreases |acts|
  {
    if acts == [] then Some(s)
    else
      match Run(batchSize, s, acts[..|acts| - 1])
      case None => None
      case Some(t) =>
        var a := acts[|acts| - 1];
        if Enabled(t, a) then Some(Apply(batchSize, t, a)) else None
  }
}
