/** The two services of the CQRS pair as the objects their consumers and endpoints work on. */
module CqrsServices {
  import opened Sequences
  import opened Cqrs

  // ---- aggregates ----

  /** The sum of f over a finite set. */
  ghost function SetSum(s: set<OrderId>, f: OrderId -> int): int
    decreases |s|
  {
    if s == {} then 0
    else
      var x :| x in s;
      f(x) + SetSum(s - {x}, f)
  }

  /** The sum does not depend on the order in which elements are taken. */
  lemma {:induction false} SetSumTake(s: set<OrderId>, f: OrderId -> int, x: OrderId)
    requires x in s
    ensures SetSum(s, f) == f(x) + SetSum(s - {x}, f)
    decreases |s|
  {
    var y :| y in s && SetSum(s, f) == f(y) + SetSum(s - {y}, f);
    if y != x {
      SetSumTake(s - {y}, f, x);
      SetSumTake(s - {x}, f, y);
      assert s - {y} - {x} == s - {x} - {y};
    }
  }

  lemma {:induction false} SetSumAgree(s: set<OrderId>, f: OrderId -> int, g: OrderId -> int)
    requires forall x :: x in s ==> f(x) == g(x)
    ensures SetSum(s, f) == SetSum(s, g)
    decreases |s|
  {
    if s != {} {
      var x :| x in s;
      SetSumTake(s, f, x);
      SetSumTake(s, g, x);
      SetSumAgree(s - {x}, f, g);
    }
  }

  function CompletedPrice(m: Model, o: OrderId): int {
    if o in m && m[o].status == Completed then m[o].totalPrice else 0
  }

  /** The price given by the latest creation on a timeline. */
  function LatestPrice(timeline: seq<LogEntry>): int {
    if timeline == [] then 0
    else
      var x := timeline[|timeline| - 1];
      if x.data.kind == ORDER_CREATED then x.data.totalPrice else LatestPrice(timeline[..|timeline| - 1])
  }

  /** The price of an order whose latest payment and stock results both succeeded, from the event log alone. */
  function EarnedPrice(log: seq<LogEntry>, o: OrderId): int {
    var timeline := Timeline(log, o);
    if LatestPayment(timeline) == Paid && LatestInventory(timeline) == Reserved then LatestPrice(timeline) else 0
  }

  lemma {:induction false} ViewShowsLatestPrice(timeline: seq<LogEntry>)
    ensures FoldView(timeline).Some? ==> FoldView(timeline).value.totalPrice == LatestPrice(timeline)
  {
    if timeline != [] { ViewShowsLatestPrice(timeline[..|timeline| - 1]); }
  }

  /** The sum of the prices of the completed views among the given orders. */
  ghost function RevenueOf(m: Model, orders: set<OrderId>): int {
    SetSum(orders, (o: OrderId) => CompletedPrice(m, o))
  }

  ghost function Revenue(m: Model): int {
    RevenueOf(m, m.Keys)
  }

  lemma RevenueTake(m: Model, orders: set<OrderId>, o: OrderId)
    requires o in orders
    ensures RevenueOf(m, orders) == CompletedPrice(m, o) + RevenueOf(m, orders - {o})
  {
    SetSumTake(orders, (x: OrderId) => CompletedPrice(m, x), o);
  }

  /** The sum, over the given orders, of what the event log says was earned. */
  ghost function Earned(log: seq<LogEntry>, orders: set<OrderId>): int {
    SetSum(orders, (o: OrderId) => EarnedPrice(log, o))
  }

  /** Revenue can be read off the event log: completed views are the orders whose latest results both succeeded. */
  lemma RevenueIsEarned(ds: seq<Delivery>)
    ensures Revenue(Fold(ds)) == Earned(LogOf(ds), Fold(ds).Keys)
  {
    var m := Fold(ds);
    forall o | o in m.Keys ensures CompletedPrice(m, o) == EarnedPrice(LogOf(ds), o) {
      CompletedIff(ds, o);
      NoEmptyId(ds);
      ViewIsLocal(ds, o);
      ViewShowsLatestPrice(Timeline(LogOf(ds), o));
    }
    SetSumAgree(m.Keys, (o: OrderId) => CompletedPrice(m, o), (o: OrderId) => EarnedPrice(LogOf(ds), o));
  }

  function StatusOf(m: Model, o: OrderId): Option<Status> {
    if o in m then Some(m[o].status) else None
  }

  function WithStatus(m: Model, keys: set<OrderId>, st: Status): set<OrderId> {
    set o | o in keys && StatusOf(m, o) == Some(st)
  }

  function CountOf(counts: map<Status, nat>, st: Status): nat {
    if st in counts then counts[st] else 0
  }

  function BreakdownTotal(counts: map<Status, nat>): nat {
    CountOf(counts, Created) + CountOf(counts, PaymentCompleted) + CountOf(counts, InventoryReserved)
    + CountOf(counts, Completed) + CountOf(counts, Cancelled)
  }

  /** What the statistics endpoint returns. */
  datatype Stats = Stats(totalOrders: nat, breakdown: map<Status, nat>, totalRevenue: int, eventsProcessed: nat)

  datatype Detail = Detail(order: View, timeline: seq<LogEntry>, totalEvents: nat)

  /** The number of the given orders that have the status. */
  ghost function NumWith(m: Model, orders: set<OrderId>, st: Status): nat {
    |WithStatus(m, orders, st)|
  }

  /** The counts are those of the given orders. */
  ghost predicate Counted(m: Model, orders: set<OrderId>, counts: map<Status, nat>) {
    forall st :: CountOf(counts, st) == NumWith(m, orders, st)
  }

  ghost predicate NoZero(counts: map<Status, nat>) {
    forall st :: st in counts ==> counts[st] > 0
  }

  /** The counts are those of the given orders, and add up to their number. */
  ghost predicate Tally(m: Model, orders: set<OrderId>, counts: map<Status, nat>) {
    Counted(m, orders, counts) && NoZero(counts) && BreakdownTotal(counts) == |orders|
  }

  lemma NumWithAdd(m: Model, orders: set<OrderId>, o: OrderId, st: Status)
    requires o in m && o !in orders
    ensures NumWith(m, orders + {o}, st) == NumWith(m, orders, st) + (if m[o].status == st then 1 else 0)
  {
    var before, after := WithStatus(m, orders, st), WithStatus(m, orders + {o}, st);
    assert after == if m[o].status == st then before + {o} else before;
  }

  /** One more under the status, from zero when it is new. */
  function Bump(counts: map<Status, nat>, st: Status): map<Status, nat> {
    counts[st := CountOf(counts, st) + 1]
  }

  lemma CountedAdd(m: Model, orders: set<OrderId>, counts: map<Status, nat>, o: OrderId)
    requires Counted(m, orders, counts) && o in m && o !in orders
    ensures Counted(m, orders + {o}, Bump(counts, m[o].status))
  {
    forall st ensures CountOf(Bump(counts, m[o].status), st) == NumWith(m, orders + {o}, st) {
      NumWithAdd(m, orders, o, st);
      assert CountOf(counts, st) == NumWith(m, orders, st);
    }
  }

  lemma BumpTotal(counts: map<Status, nat>, st: Status)
    requires NoZero(counts)
    ensures BreakdownTotal(Bump(counts, st)) == BreakdownTotal(counts) + 1
    ensures NoZero(Bump(counts, st))
  {
  }

  lemma TallyAdd(m: Model, orders: set<OrderId>, counts: map<Status, nat>, o: OrderId)
    requires Tally(m, orders, counts) && o in m && o !in orders
    ensures Tally(m, orders + {o}, Bump(counts, m[o].status))
  {
    CountedAdd(m, orders, counts, o);
    BumpTotal(counts, m[o].status);
  }

  lemma TallyNone(m: Model)
    ensures Tally(m, {}, map[])
  {
    forall st ensures CountOf(map[], st) == NumWith(m, {}, st) {
      assert WithStatus(m, {}, st) == {};
    }
  }

  ghost predicate Split(all: set<OrderId>, done: set<OrderId>, rest: set<OrderId>) {
    done + rest == all && done !! rest
  }

  lemma SplitNext(all: set<OrderId>, done: set<OrderId>, rest: set<OrderId>, o: OrderId)
    requires Split(all, done, rest) && o in rest
    ensures Split(all, done + {o}, rest - {o}) && o in all && o !in done && |rest - {o}| < |rest|
  {
    assert |rest - {o}| == |rest| - 1;
  }

  /** The first pass of the statistics: one count per status found. */
  method CountStatuses(orders: Model) returns (counts: map<Status, nat>)
    ensures Tally(orders, orders.Keys, counts)
  {
    counts := map[];
    var rest := orders.Keys;
    ghost var done: set<OrderId> := {};
    TallyNone(orders);
    while rest != {}
      invariant Split(orders.Keys, done, rest)
      invariant Tally(orders, done, counts)
      decreases |rest|
    {
      var o :| o in rest;
      SplitNext(orders.Keys, done, rest, o);
      var status := orders[o].status;
      TallyAdd(orders, done, counts, o);
      counts := Bump(counts, status);
      done := done + {o};
      rest := rest - {o};
    }
    assert done == orders.Keys;
  }

  /** The second pass: the prices of the completed orders. */
  method SumRevenue(orders: Model) returns (revenue: int)
    ensures revenue == Revenue(orders)
  {
    revenue := 0;
    var rest := orders.Keys;
    while rest != {}
      invariant rest <= orders.Keys
      invariant revenue + RevenueOf(orders, rest) == Revenue(orders)
      decreases |rest|
    {
      var o :| o in rest;
      RevenueTake(orders, rest, o);
      if orders[o].status == Completed {
        revenue := revenue + orders[o].totalPrice;
      }
      rest := rest - {o};
    }
  }

  /** The query service's read model and event log. */
  class ReadModel {
    var orders: Model
    var eventLog: seq<LogEntry>
    ghost var consumed: seq<Delivery>

    ghost predicate Valid()
      reads this
    {
      orders == Fold(consumed) && eventLog == LogOf(consumed)
    }

    constructor ()
      ensures Valid() && consumed == []
    {
      orders, eventLog, consumed := map[], [], [];
    }

    /** The branches over the event's kind. */
    method Apply(event: Event, timestamp: Time)
      requires event.orderId != ""
      modifies this`orders
      ensures orders == ModelStep(old(orders), event, timestamp)
    {
      var id := event.orderId;
      if event.kind == ORDER_CREATED {
        orders := orders[id := View(event.userId, event.totalPrice, Created, PaymentPending, InventoryPending,
                                    timestamp, timestamp, None, None, None, [(ORDER_CREATED, timestamp)])];
      } else if event.kind == PAYMENT_COMPLETED {
        if id in orders {
          var view := orders[id];
          view := view.(payment := Paid);
          view := view.(paymentAmount := Some(event.amount));
          view := view.(updatedAt := timestamp);
          view := view.(events := view.events + [(event.kind, timestamp)]);
          if view.inventory == Reserved {
            view := view.(status := Completed);
          } else {
            view := view.(status := PaymentCompleted);
          }
          orders := orders[id := view];
        }
      } else if event.kind == PAYMENT_FAILED {
        if id in orders {
          var view := orders[id];
          view := view.(payment := PaymentRefused);
          view := view.(paymentReason := Some(event.reason));
          view := view.(status := Cancelled);
          view := view.(updatedAt := timestamp);
          view := view.(events := view.events + [(event.kind, timestamp)]);
          orders := orders[id := view];
        }
      } else if event.kind == INVENTORY_RESERVED {
        if id in orders {
          var view := orders[id];
          view := view.(inventory := Reserved);
          view := view.(updatedAt := timestamp);
          view := view.(events := view.events + [(event.kind, timestamp)]);
          if view.payment == Paid {
            view := view.(status := Completed);
          } else {
            view := view.(status := InventoryReserved);
          }
          orders := orders[id := view];
        }
      } else if event.kind == INVENTORY_FAILED {
        if id in orders {
          var view := orders[id];
          view := view.(inventory := OutOfStock);
          view := view.(inventoryReason := Some(event.reason));
          view := view.(status := Cancelled);
          view := view.(updatedAt := timestamp);
          view := view.(events := view.events + [(event.kind, timestamp)]);
          orders := orders[id := view];
        }
      } else if event.kind == NOTIFICATION_SENT {
        if id in orders {
          var view := orders[id];
          view := view.(updatedAt := timestamp);
          view := view.(events := view.events + [(event.kind, timestamp)]);
          orders := orders[id := view];
        }
      } else if id in orders {
        assert orders == orders[id := orders[id]];
      }
    }

    /** Logs the event and applies it to the view of its order, field by field. */
    method ProcessEvent(event: Event, topic: string, now: Time)
      requires Valid()
      modifies this
      ensures Valid() && consumed == old(consumed) + [Delivery(event, topic, now)]
      ensures eventLog == old(eventLog) + [
        LogEntry(event.kind, event.orderId, topic, if event.timestamp.Some? then event.timestamp.value else now, event)]
      ensures forall o :: o != event.orderId ==> Get(orders, o) == Get(old(orders), o)
    {
      var timestamp := if event.timestamp.Some? then event.timestamp.value else now;
      eventLog := eventLog + [LogEntry(event.kind, event.orderId, topic, timestamp, event)];
      ghost var d := Delivery(event, topic, now);
      assert (consumed + [d])[..|consumed|] == consumed;
      LogOfSnoc(consumed + [d]);
      consumed := consumed + [d];
      if event.orderId == "" { return; }
      Apply(event, timestamp);
    }

    /**
     The statistics: every order is counted once, under its status, and the revenue is what the event log says
     was earned.
     */
    method GetStats() returns (stats: Stats)
      requires Valid()
      ensures stats.totalOrders == |orders| && Tally(orders, orders.Keys, stats.breakdown)
      ensures stats.totalRevenue == Revenue(orders) == Earned(eventLog, orders.Keys)
      ensures stats.eventsProcessed == |eventLog|
    {
      var counts := CountStatuses(orders);
      var revenue := SumRevenue(orders);
      RevenueIsEarned(consumed);
      stats := Stats(|orders|, counts, revenue, |eventLog|);
    }

    /** The view of an order with its event timeline, from which alone the view can be rebuilt. */
    method GetOrderDetail(o: OrderId) returns (r: Option<Detail>)
      requires Valid()
      ensures r.Some? <==> o in orders
      ensures r.Some? ==>
        && r.value.order == orders[o] && r.value.timeline == Timeline(eventLog, o)
        && r.value.totalEvents == |r.value.timeline| > 0
        && FoldView(r.value.timeline) == Some(r.value.order)
    {
      if o !in orders { return None; }
      var timeline := [];
      var i := 0;
      while i < |eventLog|
        invariant 0 <= i <= |eventLog|
        invariant timeline == Timeline(eventLog[..i], o)
      {
        assert eventLog[..i + 1] == eventLog[..i] + [eventLog[i]];
        TimelineSnoc(eventLog[..i], eventLog[i], o);
        if eventLog[i].orderId == o {
          timeline := timeline + [eventLog[i]];
        }
        i := i + 1;
      }
      assert eventLog[..i] == eventLog;
      NoEmptyId(consumed);
      ViewIsLocal(consumed, o);
      r := Some(Detail(orders[o], timeline, |timeline|));
    }
  }

  /** The order service's store and its message loop. */
  class WriteStore {
    var orders: WriteModel

    constructor ()
      ensures orders == map[]
    {
      orders := map[];
    }

    method CreateOrder(o: OrderId)
      modifies this
      ensures orders == old(orders)[o := WriteOrder(Created, [])]
    {
      orders := orders[o := WriteOrder(Created, [])];
    }

    /** The message loop over the results consumed in one run; a result of an unknown order is dropped. */
    method Consume(messages: seq<Event>)
      modifies this
      ensures orders == WriteFold(old(orders), messages)
      ensures orders.Keys == old(orders).Keys
      ensures forall o :: o in old(orders) ==>
        o in orders && orders[o] == WriteOrderFold(old(orders)[o], KindsOf(messages, o))
    {
      var i := 0;
      while i < |messages|
        invariant 0 <= i <= |messages|
        invariant orders == WriteFold(old(orders), messages[..i])
        invariant orders.Keys == old(orders).Keys
      {
        var event := messages[i];
        assert messages[..i + 1][..i] == messages[..i];
        if event.orderId in orders {
          var order := orders[event.orderId];
          if event.kind == PAYMENT_COMPLETED {
            order := order.(status := PaymentCompleted);
            order := order.(events := order.events + [PAYMENT_COMPLETED]);
          } else if event.kind == PAYMENT_FAILED {
            order := order.(status := Cancelled);
            order := order.(events := order.events + [PAYMENT_FAILED]);
          } else if event.kind == INVENTORY_RESERVED {
            order := order.(status := InventoryReserved);
            order := order.(events := order.events + [INVENTORY_RESERVED]);
            if PAYMENT_COMPLETED in order.events {
              order := order.(status := Completed);
            }
          } else if event.kind == INVENTORY_FAILED {
            order := order.(status := Cancelled);
            order := order.(events := order.events + [INVENTORY_FAILED]);
          }
          orders := orders[event.orderId := order];
        }
        i := i + 1;
      }
      assert messages[..i] == messages;
      forall o | o in old(orders)
        ensures o in orders && orders[o] == WriteOrderFold(old(orders)[o], KindsOf(messages, o))
      {
        WriteIsLocal(old(orders), messages, o);
      }
    }
  }
}
