/**
 The order saga: three services, five topics, compensation.  Handlers are functions of the service's store and
 the event; a scenario fixes what each order asks for and what payment, stock and refund decide about it.
 */
module Saga {
  import opened Sequences

  type OrderId = nat

  datatype Status = CREATED | PAYMENT_PROCESSING | PAYMENT_FAILED | INVENTORY_PROCESSING | COMPLETED | FAILED
                  | COMPENSATING | COMPENSATED | COMPENSATION_FAILED

  datatype Topic = ORDER_CREATED | PAYMENT_RESULT | INVENTORY_RESULT | REFUND_REQUEST | REFUND_RESULT

  datatype Event =
    | OrderCreated(orderId: OrderId, userId: string, totalPrice: int)
    | PaymentCompleted(orderId: OrderId, amount: int)
    | PaymentFailed(orderId: OrderId)
    | InventoryReserved(orderId: OrderId)
    | InventoryFailed(orderId: OrderId)
    | RefundRequested(orderId: OrderId, amount: int)
    | RefundCompleted(orderId: OrderId, amount: int)
    | RefundFailed(orderId: OrderId)

  datatype OrderRecord = OrderRecord(userId: string, totalPrice: int, status: Status, history: seq<Status>)
  datatype PaymentRecord = PaymentRecord(orderId: OrderId, userId: string, amount: int, completed: bool)
  datatype InventoryRecord = InventoryRecord(orderId: OrderId, reserved: bool)
  datatype RefundRecord = RefundRecord(orderId: OrderId, amount: int, completed: bool)

  type Orders = map<OrderId, OrderRecord>

  // ---- the handlers ----

  function TopicOf(e: Event): Topic {
    match e
    case OrderCreated(_, _, _) => ORDER_CREATED
    case PaymentCompleted(_, _) => PAYMENT_RESULT
    case PaymentFailed(_) => PAYMENT_RESULT
    case InventoryReserved(_) => INVENTORY_RESULT
    case InventoryFailed(_) => INVENTORY_RESULT
    case RefundRequested(_, _) => REFUND_REQUEST
    case RefundCompleted(_, _) => REFUND_RESULT
    case RefundFailed(_) => REFUND_RESULT
  }

  function NewOrder(userId: string, totalPrice: int): OrderRecord {
    OrderRecord(userId, totalPrice, CREATED, [CREATED])
  }

  /** An unknown order is left alone. */
  function UpdateStatus(db: Orders, o: OrderId, st: Status): Orders {
    if o in db then db[o := db[o].(status := st, history := db[o].history + [st])] else db
  }

  /** The order service's process_message: the new store and the events it publishes. */
  function HandleAtOrder(db: Orders, topic: Topic, e: Event): (Orders, seq<Event>) {
    var o := e.orderId;
    if topic == PAYMENT_RESULT then
      if e.PaymentCompleted? then (UpdateStatus(db, o, INVENTORY_PROCESSING), [])
      else if e.PaymentFailed? then (UpdateStatus(db, o, PAYMENT_FAILED), [])
      else (db, [])
    else if topic == INVENTORY_RESULT then
      if e.InventoryReserved? then (UpdateStatus(db, o, COMPLETED), [])
      else if e.InventoryFailed? then
        var db' := UpdateStatus(db, o, COMPENSATING);
        if o in db' then (db', [RefundRequested(o, db'[o].totalPrice)])
        else (UpdateStatus(db', o, COMPENSATION_FAILED), [])
      else (db, [])
    else if topic == REFUND_RESULT then
      if e.RefundCompleted? then (UpdateStatus(db, o, COMPENSATED), [])
      else if e.RefundFailed? then (UpdateStatus(db, o, COMPENSATION_FAILED), [])
      else (db, [])
    else (db, [])
  }

  function PaymentOf(e: Event, success: bool): (PaymentRecord, Event)
    requires e.OrderCreated?
  {
    (PaymentRecord(e.orderId, e.userId, e.totalPrice, success),
     if success then PaymentCompleted(e.orderId, e.totalPrice) else PaymentFailed(e.orderId))
  }

  function RefundOf(e: Event, success: bool): (RefundRecord, Event)
    requires e.RefundRequested?
  {
    (RefundRecord(e.orderId, e.amount, success),
     if success then RefundCompleted(e.orderId, e.amount) else RefundFailed(e.orderId))
  }

  function ReservationOf(e: Event, success: bool): (InventoryRecord, Event)
    requires e.PaymentCompleted?
  {
    (InventoryRecord(e.orderId, success),
     if success then InventoryReserved(e.orderId) else InventoryFailed(e.orderId))
  }

  // ---- the step system ----

  datatype Scenario = Scenario(user: OrderId -> string, total: OrderId -> int,
                               pays: OrderId -> bool, reserves: OrderId -> bool, refunds: OrderId -> bool)

  /**
   One pending handling: a message on its way to one consumer group, or the part of the create_new_order
   request that runs after its publish has returned.
   */
  datatype Task = ToOrder(e: Event) | ToPayment(e: Event) | ToInventory(e: Event) | ApiTail(orderId: OrderId)

  datatype State = State(
    db: Orders,
    payments: seq<PaymentRecord>,
    inventory: seq<InventoryRecord>,
    refunds: seq<RefundRecord>,
    pool: seq<Task>)

  datatype Action = Create(o: OrderId) | Deliver(i: nat)

  const INITIAL := State(map[], [], [], [], [])

  function OrderOf(t: Task): OrderId {
    if t.ApiTail? then t.orderId else t.e.orderId
  }

  /** The consumer groups that receive a published event. */
  function Routed(e: Event): seq<Task> {
    match TopicOf(e)
    case ORDER_CREATED => [ToPayment(e)]
    case PAYMENT_RESULT => [ToOrder(e), ToInventory(e)]
    case INVENTORY_RESULT => [ToOrder(e)]
    case REFUND_REQUEST => [ToPayment(e)]
    case REFUND_RESULT => [ToOrder(e)]
  }

  function RoutedAll(es: seq<Event>): seq<Task> {
    if es == [] then [] else Routed(es[0]) + RoutedAll(es[1..])
  }

  predicate Enabled(s: State, a: Action) {
    match a
    case Create(o) => o !in s.db
    case Deliver(i) => i < |s.pool|
  }

  function Handled(sc: Scenario, s: State, t: Task): State {
    match t
    case ApiTail(o) => s.(db := UpdateStatus(s.db, o, PAYMENT_PROCESSING))
    case ToOrder(e) =>
      var (db', published) := HandleAtOrder(s.db, TopicOf(e), e);
      s.(db := db', pool := s.pool + RoutedAll(published))
    case ToPayment(e) =>
      if e.OrderCreated? then
        var (r, result) := PaymentOf(e, sc.pays(e.orderId));
        s.(payments := s.payments + [r], pool := s.pool + Routed(result))
      else if e.RefundRequested? then
        var (r, result) := RefundOf(e, sc.refunds(e.orderId));
        s.(refunds := s.refunds + [r], pool := s.pool + Routed(result))
      else s
    case ToInventory(e) =>
      if e.PaymentCompleted? then
        var (r, result) := ReservationOf(e, sc.reserves(e.orderId));
        s.(inventory := s.inventory + [r], pool := s.pool + Routed(result))
      else s
  }

  function Apply(sc: Scenario, s: State, a: Action): State
    requires Enabled(s, a)
  {
    match a
    case Create(o) =>
      s.(db := s.db[o := NewOrder(sc.user(o), sc.total(o))],
         pool := s.pool + [ToPayment(OrderCreated(o, sc.user(o), sc.total(o))), ApiTail(o)])
    case Deliver(i) => Handled(sc, s.(pool := RemoveAt(s.pool, i)), s.pool[i])
  }

  function Run(sc: Scenario, s: State, acts: seq<Action>): Option<State>
    decreases |acts|
  {
    if acts == [] then Some(s)
    else
      match Run(sc, s, acts[..|acts| - 1])
      case None => None
      case Some(t) =>
        var a := acts[|acts| - 1];
        if Enabled(t, a) then Some(Apply(sc, t, a)) else None
  }

  /** Nothing is left to handle. */
  predicate Complete(s: State) {
    s.pool == []
  }

  // ---- what each order comes to ----

  function RefundStatuses(sc: Scenario, o: OrderId): seq<Status> {
    [if sc.refunds(o) then COMPENSATED else COMPENSATION_FAILED]
  }

  function InventoryStatuses(sc: Scenario, o: OrderId): seq<Status> {
    if sc.reserves(o) then [COMPLETED] else [COMPENSATING] + RefundStatuses(sc, o)
  }

  /** The statuses of order o in causal order. */
  function Path(sc: Scenario, o: OrderId): seq<Status> {
    [CREATED, PAYMENT_PROCESSING]
    + (if sc.pays(o) then [INVENTORY_PROCESSING] + InventoryStatuses(sc, o) else [PAYMENT_FAILED])
  }

  function ExpectedPayments(sc: Scenario, o: OrderId): seq<PaymentRecord> {
    [PaymentRecord(o, sc.user(o), sc.total(o), sc.pays(o))]
  }

  function ExpectedInventory(sc: Scenario, o: OrderId): seq<InventoryRecord> {
    if sc.pays(o) then [InventoryRecord(o, sc.reserves(o))] else []
  }

  function ExpectedRefunds(sc: Scenario, o: OrderId): seq<RefundRecord> {
    if sc.pays(o) && !sc.reserves(o) then [RefundRecord(o, sc.total(o), sc.refunds(o))] else []
  }

  // ---- what a pending task and everything it causes will still write ----

  function StatusesAhead(sc: Scenario, t: Task): seq<Status> {
    var o := OrderOf(t);
    match t
    case ApiTail(_) => [PAYMENT_PROCESSING]
    case ToPayment(e) =>
      if e.OrderCreated? then Path(sc, o)[2..] else if e.RefundRequested? then RefundStatuses(sc, o) else []
    case ToInventory(e) => if e.PaymentCompleted? then InventoryStatuses(sc, o) else []
    case ToOrder(e) =>
      match e
      case PaymentCompleted(_, _) => [INVENTORY_PROCESSING]
      case PaymentFailed(_) => [PAYMENT_FAILED]
      case InventoryReserved(_) => [COMPLETED]
      case InventoryFailed(_) => [COMPENSATING] + RefundStatuses(sc, o)
      case RefundCompleted(_, _) => [COMPENSATED]
      case RefundFailed(_) => [COMPENSATION_FAILED]
      case OrderCreated(_, _, _) => []
      case RefundRequested(_, _) => []
  }

  function PaymentsAhead(sc: Scenario, t: Task): seq<PaymentRecord> {
    if t.ToPayment? && t.e.OrderCreated? then ExpectedPayments(sc, OrderOf(t)) else []
  }

  function InventoryAhead(sc: Scenario, t: Task): seq<InventoryRecord> {
    if (t.ToPayment? && t.e.OrderCreated?) || (t.ToInventory? && t.e.PaymentCompleted?)
    then ExpectedInventory(sc, OrderOf(t)) else []
  }

  function RefundsAhead(sc: Scenario, t: Task): seq<RefundRecord> {
    if (t.ToPayment? && (t.e.OrderCreated? || t.e.RefundRequested?)) || (t.ToInventory? && t.e.PaymentCompleted?)
       || (t.ToOrder? && t.e.InventoryFailed?)
    then ExpectedRefunds(sc, OrderOf(t)) else []
  }

  function StockMessages(sc: Scenario, o: OrderId): nat {
    if sc.reserves(o) then 2 else 4
  }

  /** The message handlings a task and everything it causes come to. */
  function MessagesAhead(sc: Scenario, t: Task): nat {
    var o := OrderOf(t);
    match t
    case ApiTail(_) => 0
    case ToPayment(e) =>
      if e.OrderCreated? then 2 + (if sc.pays(o) then StockMessages(sc, o) else 1)
      else if e.RefundRequested? then 2 else 1
    case ToInventory(e) => if e.PaymentCompleted? then StockMessages(sc, o) else 1
    case ToOrder(e) => if e.InventoryFailed? then 3 else 1
  }

  /** The message handlings of a whole order: three, four or six. */
  function MessagesOf(sc: Scenario, o: OrderId): (n: nat)
    ensures n <= 6
  {
    2 + (if sc.pays(o) then StockMessages(sc, o) else 1)
  }
}
