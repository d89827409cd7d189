/** The three services of the saga as they change their own stores; `sent` is what each has published. */
module SagaServices {
  import opened Sequences
  import opened Saga

  /** Order o has moved to the status, with its history one longer, and nothing else has changed. */
  ghost predicate Moved(db: Orders, db': Orders, o: OrderId, st: Status) {
    o in db && db' == db[o := OrderRecord(db[o].userId, db[o].totalPrice, st, db[o].history + [st])]
  }

  /**
   What the order service's handler does with a message: the status each result leads to, one refund request of the
   order's total for a failed reservation, and nothing at all for an unknown order or any other message.
   */
  lemma OrderHandlerTable(db: Orders, topic: Topic, e: Event)
    ensures var (db', out) := HandleAtOrder(db, topic, e); var o := e.orderId;
      && (o !in db ==> db' == db && out == [])
      && (o in db && topic == PAYMENT_RESULT && e.PaymentCompleted? ==> Moved(db, db', o, INVENTORY_PROCESSING))
      && (o in db && topic == PAYMENT_RESULT && e.PaymentFailed? ==> Moved(db, db', o, PAYMENT_FAILED))
      && (o in db && topic == INVENTORY_RESULT && e.InventoryReserved? ==> Moved(db, db', o, COMPLETED))
      && (o in db && topic == INVENTORY_RESULT && e.InventoryFailed? ==> Moved(db, db', o, COMPENSATING))
      && (o in db && topic == REFUND_RESULT && e.RefundCompleted? ==> Moved(db, db', o, COMPENSATED))
      && (o in db && topic == REFUND_RESULT && e.RefundFailed? ==> Moved(db, db', o, COMPENSATION_FAILED))
      && (out == if o in db && topic == INVENTORY_RESULT && e.InventoryFailed?
                 then [RefundRequested(o, db[o].totalPrice)] else [])
      && (topic != TopicOf(e) ==> db' == db)
      && (e.OrderCreated? || e.RefundRequested? ==> db' == db)
  {
  }

  /** The topic each event is published on. */
  lemma TopicTable(e: Event)
    ensures TopicOf(e) == ORDER_CREATED <==> e.OrderCreated?
    ensures TopicOf(e) == PAYMENT_RESULT <==> e.PaymentCompleted? || e.PaymentFailed?
    ensures TopicOf(e) == INVENTORY_RESULT <==> e.InventoryReserved? || e.InventoryFailed?
    ensures TopicOf(e) == REFUND_REQUEST <==> e.RefundRequested?
    ensures TopicOf(e) == REFUND_RESULT <==> e.RefundCompleted? || e.RefundFailed?
  {
  }

  /** The step system's payment and stock handlers record and answer what the services do. */
  lemma HandlersRecord(e: Event, success: bool)
    ensures e.OrderCreated? ==>
      PaymentOf(e, success)
      == (PaymentRecord(e.orderId, e.userId, e.totalPrice, success),
          if success then PaymentCompleted(e.orderId, e.totalPrice) else PaymentFailed(e.orderId))
    ensures e.RefundRequested? ==>
      RefundOf(e, success)
      == (RefundRecord(e.orderId, e.amount, success),
          if success then RefundCompleted(e.orderId, e.amount) else RefundFailed(e.orderId))
    ensures e.PaymentCompleted? ==>
      ReservationOf(e, success)
      == (InventoryRecord(e.orderId, success),
          if success then InventoryReserved(e.orderId) else InventoryFailed(e.orderId))
  {
  }

  class OrderService {
    var ordersDb: Orders
    var sent: seq<Event>

    constructor ()
      ensures ordersDb == map[] && sent == []
    {
      ordersDb, sent := map[], [];
    }

    method CreateOrder(o: OrderId, userId: string, totalPrice: int)
      modifies this`ordersDb
      ensures ordersDb == old(ordersDb)[o := OrderRecord(userId, totalPrice, CREATED, [CREATED])]
    {
      ordersDb := ordersDb[o := OrderRecord(userId, totalPrice, CREATED, [CREATED])];
    }

    /** False stands for an unknown order, whose entry is not created. */
    method UpdateOrderStatus(o: OrderId, status: Status) returns (known: bool)
      modifies this`ordersDb
      ensures known <==> o in old(ordersDb)
      ensures !known ==> ordersDb == old(ordersDb)
      ensures known ==>
        var r := old(ordersDb)[o];
        ordersDb == old(ordersDb)[o := OrderRecord(r.userId, r.totalPrice, status, r.history + [status])]
    {
      if o !in ordersDb {
        return false;
      }
      var r := ordersDb[o];
      ordersDb := ordersDb[o := r.(status := status, history := r.history + [status])];
      known := true;
    }

    method GetOrder(o: OrderId) returns (r: Option<OrderRecord>)
      ensures r.Some? <==> o in ordersDb
      ensures r.Some? ==> r.value == ordersDb[o]
    {
      r := if o in ordersDb then Some(ordersDb[o]) else None;
    }

    /**
     Stores and publishes the order, and only then writes PAYMENT_PROCESSING.  A publish that raises leaves the order
     stored in CREATED.
     */
    method CreateNewOrder(o: OrderId, userId: string, totalPrice: int, publishRaises: bool) returns (ok: bool)
      modifies this
      ensures ok <==> !publishRaises
      ensures sent == old(sent) + (if ok then [OrderCreated(o, userId, totalPrice)] else [])
      ensures ordersDb == old(ordersDb)[o := OrderRecord(userId, totalPrice,
                                                        if ok then PAYMENT_PROCESSING else CREATED,
                                                        if ok then [CREATED, PAYMENT_PROCESSING] else [CREATED])]
    {
      CreateOrder(o, userId, totalPrice);
      if publishRaises {
        return false;
      }
      ok := true;
      sent := sent + [OrderCreated(o, userId, totalPrice)];
      var known := UpdateOrderStatus(o, PAYMENT_PROCESSING);
      assert [CREATED] + [PAYMENT_PROCESSING] == [CREATED, PAYMENT_PROCESSING];
    }

    /** One consumed message, dispatched on topic and event type; other combinations change nothing. */
    method ProcessMessage(topic: Topic, e: Event)
      modifies this
      ensures (ordersDb, sent) == (HandleAtOrder(old(ordersDb), topic, e).0,
                                   old(sent) + HandleAtOrder(old(ordersDb), topic, e).1)
    {
      var known;
      assert sent + [] == sent;
      if topic == PAYMENT_RESULT {
        if e.PaymentCompleted? {
          known := UpdateOrderStatus(e.orderId, INVENTORY_PROCESSING);
        } else if e.PaymentFailed? {
          known := UpdateOrderStatus(e.orderId, PAYMENT_FAILED);
        }
      } else if topic == INVENTORY_RESULT {
        if e.InventoryReserved? {
          known := UpdateOrderStatus(e.orderId, COMPLETED);
        } else if e.InventoryFailed? {
          known := UpdateOrderStatus(e.orderId, COMPENSATING);
          var order := GetOrder(e.orderId);
          if order.Some? {
            sent := sent + [RefundRequested(e.orderId, order.value.totalPrice)];
          } else {
            known := UpdateOrderStatus(e.orderId, COMPENSATION_FAILED);
          }
        }
      } else if topic == REFUND_RESULT {
        if e.RefundCompleted? {
          known := UpdateOrderStatus(e.orderId, COMPENSATED);
        } else if e.RefundFailed? {
          known := UpdateOrderStatus(e.orderId, COMPENSATION_FAILED);
        }
      }
    }
  }

  class PaymentService {
    var paymentsDb: seq<PaymentRecord>
    var refundsDb: seq<RefundRecord>
    var sent: seq<Event>

    constructor ()
      ensures paymentsDb == [] && refundsDb == [] && sent == []
    {
      paymentsDb, refundsDb, sent := [], [], [];
    }

    /** Every consumed order is charged or refused, recorded, and answered. */
    method ProcessOrderCreated(e: Event, success: bool)
      requires e.OrderCreated?
      modifies this
      ensures paymentsDb == old(paymentsDb) + [PaymentRecord(e.orderId, e.userId, e.totalPrice, success)]
      ensures sent == old(sent)
        + [if success then PaymentCompleted(e.orderId, e.totalPrice) else PaymentFailed(e.orderId)]
      ensures refundsDb == old(refundsDb)
    {
      var result: Event;
      var record: PaymentRecord;
      if success {
        result := PaymentCompleted(e.orderId, e.totalPrice);
        record := PaymentRecord(e.orderId, e.userId, e.totalPrice, true);
      } else {
        result := PaymentFailed(e.orderId);
        record := PaymentRecord(e.orderId, e.userId, e.totalPrice, false);
      }
      paymentsDb := paymentsDb + [record];
      sent := sent + [result];
    }

    method ProcessRefundRequest(e: Event, success: bool)
      requires e.RefundRequested?
      modifies this
      ensures refundsDb == old(refundsDb) + [RefundRecord(e.orderId, e.amount, success)]
      ensures sent == old(sent)
        + [if success then RefundCompleted(e.orderId, e.amount) else RefundFailed(e.orderId)]
      ensures paymentsDb == old(paymentsDb)
    {
      var result: Event;
      var record: RefundRecord;
      if success {
        result := RefundCompleted(e.orderId, e.amount);
        record := RefundRecord(e.orderId, e.amount, true);
      } else {
        result := RefundFailed(e.orderId);
        record := RefundRecord(e.orderId, e.amount, false);
      }
      refundsDb := refundsDb + [record];
      sent := sent + [result];
    }
  }

  class InventoryService {
    var inventoryDb: seq<InventoryRecord>
    var sent: seq<Event>

    constructor ()
      ensures inventoryDb == [] && sent == []
    {
      inventoryDb, sent := [], [];
    }

    /** Anything but a completed payment is ignored. */
    method ProcessPaymentResult(e: Event, success: bool)
      modifies this
      ensures !e.PaymentCompleted? ==> inventoryDb == old(inventoryDb) && sent == old(sent)
      ensures e.PaymentCompleted? ==>
        && inventoryDb == old(inventoryDb) + [InventoryRecord(e.orderId, success)]
        && sent == old(sent) + [if success then InventoryReserved(e.orderId) else InventoryFailed(e.orderId)]
    {
      if !e.PaymentCompleted? {
        return;
      }
      var result: Event;
      var record: InventoryRecord;
      if success {
        result := InventoryReserved(e.orderId);
        record := InventoryRecord(e.orderId, true);
      } else {
        result := InventoryFailed(e.orderId);
        record := InventoryRecord(e.orderId, false);
      }
      inventoryDb := inventoryDb + [record];
      sent := sent + [result];
    }
  }
}
