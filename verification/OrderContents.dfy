/** What the order service stores and publishes for a request, field by field, in every reachable state. */
module OrderContents {
  import opened Sequences
  import opened Outbox
  import opened RelayInvariants

  // ---- the total price ----

  /** The price of each line of an order. */
  function LinePrices(items: seq<Item>): seq<int> {
    seq(|items|, i requires 0 <= i < |items| => items[i].price * items[i].quantity)
  }

  /** The total of an order is the sum of its line prices. */
  lemma {:induction false} TotalIsLines(items: seq<Item>)
    ensures TotalPrice(items) == SumOf(LinePrices(items))
  {
    if items != [] {
      var n := |items| - 1;
      TotalIsLines(items[..n]);
      assert LinePrices(items)[..n] == LinePrices(items[..n]);
    }
  }

  lemma TotalOfOne(x: Item)
    ensures TotalPrice([x]) == x.price * x.quantity
  {
    assert [x][..0] == [];
  }

  lemma TotalOfBoth(xs: seq<Item>, ys: seq<Item>)
    ensures TotalPrice(xs + ys) == TotalPrice(xs) + TotalPrice(ys)
  {
    TotalIsLines(xs);
    TotalIsLines(ys);
    TotalIsLines(xs + ys);
    SumOfConcat(LinePrices(xs), LinePrices(ys));
    assert LinePrices(xs + ys) == LinePrices(xs) + LinePrices(ys);
  }

  lemma TotalAround(front: seq<Item>, x: Item, back: seq<Item>)
    ensures TotalPrice(front + [x] + back) == TotalPrice(front) + x.price * x.quantity + TotalPrice(back)
  {
    TotalOfBoth(front + [x], back);
    TotalOfBoth(front, [x]);
    TotalOfOne(x);
  }

  lemma Distribute(p: int, q: int, r: int)
    ensures p * q == p * r + p * (q - r)
  {
  }

  /** Ordering q instead of an item's quantity changes the total by its price times the difference. */
  lemma TotalOfChange(items: seq<Item>, i: nat, q: int)
    requires i < |items|
    ensures TotalPrice(items[i := items[i].(quantity := q)])
         == TotalPrice(items) + items[i].price * (q - items[i].quantity)
  {
    var x, y := items[i], items[i].(quantity := q);
    var front, back := items[..i], items[i + 1..];
    assert items == front + [x] + back && items[i := y] == front + [y] + back;
    TotalAround(front, x, back);
    TotalAround(front, y, back);
    Distribute(x.price, q, x.quantity);
  }

  // ---- orders and records ----

  /** Some create_order request of the run asked for this order. */
  ghost predicate Requested(acts: seq<Action>, o: OrderId, order: Order) {
    exists k :: 0 <= k < |acts| && acts[k].Begin?
      && acts[k].orderId == o && acts[k].userId == order.userId && acts[k].items == order.items
  }

  lemma RequestedStays(acts: seq<Action>, a: Action, o: OrderId, order: Order)
    requires Requested(acts, o, order)
    ensures Requested(acts + [a], o, order)
  {
    var k :| 0 <= k < |acts| && acts[k].Begin?
      && acts[k].orderId == o && acts[k].userId == order.userId && acts[k].items == order.items;
    assert (acts + [a])[k] == acts[k];
  }

  ghost predicate AllRequested(acts: seq<Action>, s: State) {
    && (forall o :: o in s.orders ==> Requested(acts, o, s.orders[o]))
    && (forall id :: id in s.open ==> Requested(acts, s.open[id].orderId, s.open[id].order))
  }

  lemma StepRequested(b: nat, acts: seq<Action>, s: State, a: Action)
    requires AllRequested(acts, s) && Enabled(s, a)
    ensures AllRequested(acts + [a], Apply(b, s, a))
  {
    var t := Apply(b, s, a);
    assert (acts + [a])[|acts|] == a;
    forall o | o in t.orders ensures Requested(acts + [a], o, t.orders[o]) {
      if o in s.orders && t.orders[o] == s.orders[o] {
        RequestedStays(acts, a, o, s.orders[o]);
      } else {
        RequestedStays(acts, a, o, s.open[a.id].order);
      }
    }
    forall id | id in t.open ensures Requested(acts + [a], t.open[id].orderId, t.open[id].order) {
      if id in s.open && t.open[id] == s.open[id] {
        RequestedStays(acts, a, s.open[id].orderId, s.open[id].order);
      }
    }
  }

  lemma {:induction false} RunRequested(b: nat, relays: nat, acts: seq<Action>)
    requires Run(b, Init(relays), acts).Some?
    ensures AllRequested(acts, Run(b, Init(relays), acts).value)
  {
    if acts != [] {
      var front, a := acts[..|acts| - 1], acts[|acts| - 1];
      RunRequested(b, relays, front);
      StepRequested(b, front, Run(b, Init(relays), front).value, a);
      assert front + [a] == acts;
    }
  }

  /** A stored order is the one a request asked for, newly created, at the sum of its line prices. */
  lemma {:induction false} StoredOrder(b: nat, relays: nat, acts: seq<Action>, o: OrderId)
    requires Run(b, Init(relays), acts).Some? && o in Run(b, Init(relays), acts).value.orders
    ensures var order := Run(b, Init(relays), acts).value.orders[o];
      && Requested(acts, o, order)
      && order.status == "CREATED"
      && order.totalPrice == SumOf(LinePrices(order.items))
  {
    RunInvariant(b, relays, acts);
    RunRequested(b, relays, acts);
    TotalIsLines(Run(b, Init(relays), acts).value.orders[o].items);
  }

  /** A payload carries its order's own data. */
  ghost predicate PayloadIs(p: Payload, o: OrderId, order: Order) {
    && p.orderId == o && p.userId == order.userId && p.items == order.items && p.totalPrice == order.totalPrice
    && p.totalPrice == SumOf(LinePrices(p.items))
  }

  /** An outbox row announces the creation of its order, on the topic of the order events. */
  lemma {:induction false} StoredRow(b: nat, relays: nat, acts: seq<Action>, id: RowId)
    requires Run(b, Init(relays), acts).Some? && id in Run(b, Init(relays), acts).value.outbox
    ensures var s := Run(b, Init(relays), acts).value; var row := s.outbox[id].row;
      && row.id == id && row.aggregateId in s.orders
      && row.aggregateType == "Order" && row.eventType == "OrderCreated" && row.topic == "order.events"
      && row.headers == map["schema_version" := "1"]
      && PayloadIs(row.payload, row.aggregateId, s.orders[row.aggregateId])
  {
    RunInvariant(b, relays, acts);
    var s := Run(b, Init(relays), acts).value;
    assert RowOk(s.orders, id, s.outbox[id].row);
    TotalIsLines(s.orders[s.outbox[id].row.aggregateId].items);
  }

  /**
   Every record of the broker's log is on the topic of the order events, announces the creation of the order that is
   its key with that order's own data, and names the event of that order's outbox row.
   */
  lemma {:induction false} PublishedRecord(b: nat, relays: nat, acts: seq<Action>, m: Message)
    requires Run(b, Init(relays), acts).Some? && m in Run(b, Init(relays), acts).value.log
    ensures var s := Run(b, Init(relays), acts).value;
      && m.topic == "order.events" && m.eventType == "OrderCreated" && m.headers == map["schema_version" := "1"]
      && m.key in s.orders && PayloadIs(m.value, m.key, s.orders[m.key])
      && (exists id :: id in s.outbox && s.outbox[id].row.aggregateId == m.key
            && m.eventId == Some(s.outbox[id].row.eventId))
  {
    RunInvariant(b, relays, acts);
    var s := Run(b, Init(relays), acts).value;
    assert FromRow(s.outbox, m);
    var id :| id in s.outbox && m == MessageOf(s.outbox[id].row);
    StoredRow(b, relays, acts, id);
    assert s.outbox[id].row.aggregateId == m.key;
  }
}
