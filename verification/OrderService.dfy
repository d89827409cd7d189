/** The order service's own code: the create_order transaction and the polling relay, one process at a time. */
module OrderService {
  import opened Sequences
  import opened Outbox
  import opened RelayOrdering
  import RelayInvariants
  import opened OrderContents

  const RELAY_POLL_INTERVAL_MS := 200
  const RELAY_IDLE_BACKOFF_MS := 1000

  /** What the caller of enqueue_event adds to its session; the row id is assigned by the database. */
  datatype OutboxEvent = OutboxEvent(eventId: EventId, aggregateType: string, aggregateId: OrderId, eventType: string,
                                     topic: string, payload: Payload, headers: map<string, string>)

  function ToRow(id: RowId, e: OutboxEvent): Row {
    Row(id, e.eventId, e.aggregateType, e.aggregateId, e.eventType, e.topic, e.payload, e.headers)
  }

  /** A database session: what has been added and not yet committed. */
  class Session {
    var orders: seq<(OrderId, Order)>
    var events: seq<OutboxEvent>

    constructor ()
      ensures orders == [] && events == []
    {
      orders, events := [], [];
    }

    method Add(orderId: OrderId, order: Order)
      modifies this
      ensures orders == old(orders) + [(orderId, order)] && events == old(events)
    {
      orders := orders + [(orderId, order)];
    }

    /**
     Adds the event to the caller's session and nothing else: the caller owns the transaction.  Without an event id
     of the caller's the event gets the fresh one, and without headers it gets none.
     */
    method EnqueueEvent(aggregateType: string, aggregateId: OrderId, eventType: string, topic: string,
                        payload: Payload, headers: Option<map<string, string>>, eventId: Option<EventId>,
                        freshId: EventId)
      returns (event: OutboxEvent)
      modifies this
      ensures event.eventId == (if eventId.Some? then eventId.value else freshId)
      ensures event.headers == (if headers.Some? then headers.value else map[])
      ensures event == OutboxEvent(event.eventId, aggregateType, aggregateId, eventType, topic, payload, event.headers)
      ensures events == old(events) + [event] && orders == old(orders)
    {
      var id := freshId;
      if eventId.Some? { id := eventId.value; }
      var kept: map<string, string> := map[];
      if headers.Some? { kept := headers.value; }
      event := OutboxEvent(id, aggregateType, aggregateId, eventType, topic, payload, kept);
      events := events + [event];
    }
  }

  datatype TickResult = Published(count: nat) | Failed

  /** The state a poll leaves: unchanged, rolled back after failAt sends, or with its batch sent and marked. */
  function AfterPoll(b: nat, s: State, failAt: nat): State {
    var rows := Select(s, 0, b);
    if failAt < |rows| then
      s.(log := s.log + Messages(rows[..failAt]), rolled := s.rolled + EventIds(rows[..failAt]),
         limbo := s.limbo + [rows[failAt]])
    else s.(log := s.log + Messages(rows), outbox := MarkPublished(s.outbox, rows))
  }

  function PollResult(b: nat, s: State, failAt: nat): TickResult {
    if failAt < |Select(s, 0, b)| then Failed else Published(|Select(s, 0, b)|)
  }

  function AfterPolls(b: nat, s: State, fails: seq<nat>): State {
    if fails == [] then s
    else AfterPoll(b, AfterPolls(b, s, fails[..|fails| - 1]), fails[|fails| - 1])
  }

  /** A poll that published something is followed by the short wait, any other by the long one. */
  function TotalWait(b: nat, s: State, fails: seq<nat>): nat {
    if fails == [] then 0
    else
      var front := fails[..|fails| - 1];
      TotalWait(b, s, front)
      + match PollResult(b, AfterPolls(b, s, front), fails[|fails| - 1])
        case Published(n) => if n > 0 then RELAY_POLL_INTERVAL_MS else RELAY_IDLE_BACKOFF_MS
        case Failed => RELAY_IDLE_BACKOFF_MS
  }

  /** What one poll does, as protocol actions of relay 0. */
  function TickActions(b: nat, s: State, failAt: nat): seq<Action> {
    if failAt < |Select(s, 0, b)| then [Lock(0)] + Sends(0, failAt) + [Raise(0)]
    else SuccessfulTick(b, s, 0)
  }

  lemma MarkedById(outbox: map<RowId, OutRow>, rows: seq<Row>, ids: seq<RowId>)
    requires |ids| == |rows| && forall k :: 0 <= k < |rows| ==> ids[k] == rows[k].id
    ensures (map id | id in outbox :: if id in ids then outbox[id].(published := true) else outbox[id])
         == MarkPublished(outbox, rows)
  {
    forall id ensures id in ids <==> exists r :: r in rows && r.id == id {
      if id in ids {
        var k :| 0 <= k < |ids| && ids[k] == id;
        assert rows[k] in rows;
      }
      if r :| r in rows && r.id == id {
        var k :| 0 <= k < |rows| && rows[k] == r;
        assert ids[k] == id;
      }
    }
  }

  class Service {
    const batchSize: nat
    var orders: map<OrderId, Order>
    var outbox: map<RowId, OutRow>
    var nextId: nat
    var log: seq<Message>
    var limbo: seq<Row>
    var rolled: seq<EventId>

    constructor (batchSize: nat)
      ensures this.batchSize == batchSize && Abs() == Init(1)
    {
      this.batchSize := batchSize;
      orders, outbox, nextId, log, limbo, rolled := map[], map[], 0, [], [], [];
    }

    /** The protocol state of this process between two operations: one idle relay, no open transaction. */
    function Abs(): State
      reads this
    {
      State(orders, outbox, nextId, map[], [Idle], limbo, log, rolled)
    }

    /** Flushes the session's two rows and commits; a duplicate key rolls both back but uses up the row id. */
    method CommitSession(session: Session) returns (ok: bool)
      requires |session.orders| == 1 && |session.events| == 1
      modifies this
      ensures ok <==> old(session.orders[0].0 !in orders && !EventIdUsed(outbox, session.events[0].eventId))
      ensures nextId == old(nextId) + 1 && log == old(log) && limbo == old(limbo) && rolled == old(rolled)
      ensures ok ==>
        && orders == old(orders)[old(session.orders[0].0) := old(session.orders[0].1)]
        && outbox == old(outbox)[old(nextId) := OutRow(ToRow(old(nextId), old(session.events[0])), false)]
      ensures !ok ==> orders == old(orders) && outbox == old(outbox)
    {
      var id := nextId;
      nextId := nextId + 1;
      ok := session.orders[0].0 !in orders && !EventIdUsed(outbox, session.events[0].eventId);
      if ok {
        orders := orders[session.orders[0].0 := session.orders[0].1];
        outbox := outbox[id := OutRow(ToRow(id, session.events[0]), false)];
      }
    }

    /**
     One transaction writes the order and its event, or neither when an identifier is already taken.
     */
    method CreateOrder(orderId: OrderId, userId: string, items: seq<Item>, eventId: EventId) returns (ok: bool)
      modifies this
      ensures ok <==> old(orderId !in orders && !EventIdUsed(outbox, eventId))
      ensures Run(batchSize, old(Abs()),
                  [Begin(orderId, userId, items, eventId),
                   if ok then Commit(old(nextId)) else Abort(old(nextId))]) == Some(Abs())
      ensures ok ==> exists total ::
        && total == SumOf(LinePrices(items))
        && orders == old(orders)[orderId := Order(userId, items, total, "CREATED")]
        && outbox == old(outbox)[old(nextId) := OutRow(
             Row(old(nextId), eventId, "Order", orderId, "OrderCreated", "order.events",
                 Payload(orderId, userId, items, total), map["schema_version" := "1"]), false)]
      ensures !ok ==> orders == old(orders) && outbox == old(outbox)
    {
      var session := new Session();
      var total := 0;
      for i := 0 to |items|
        invariant total == TotalPrice(items[..i])
      {
        total := total + items[i].price * items[i].quantity;
        assert items[..i + 1][..i] == items[..i];
      }
      assert items[..|items|] == items;
      TotalIsLines(items);
      var order := Order(userId, items, total, "CREATED");
      session.Add(orderId, order);
      var event := session.EnqueueEvent("Order", orderId, "OrderCreated", TOPIC_ORDER_EVENTS,
                                        Payload(orderId, userId, items, total),
                                        Some(map["schema_version" := "1"]), None, eventId);
      ghost var s0 := Abs();
      ghost var begun := [Begin(orderId, userId, items, eventId)];
      RunSnoc(batchSize, s0, [], begun[0]);
      assert [] + [begun[0]] == begun;
      ok := CommitSession(session);
      RunSnoc(batchSize, s0, begun, if ok then Commit(old(nextId)) else Abort(old(nextId)));
    }

    /** Sends one row, keyed by its aggregate, with the event id in the headers. */
    method Publish(row: Row)
      modifies this`log
      ensures log == old(log) + [
        Message(topic := row.topic, key := row.aggregateId, value := row.payload, eventId := Some(row.eventId),
                eventType := row.eventType, headers := row.headers)]
    {
      log := log + [Message(row.topic, row.aggregateId, row.payload, Some(row.eventId), row.eventType, row.headers)];
    }

    /**
     One poll: lock a batch, send its rows in order, mark them all.  The send of row failAt raises, if the
     batch has one, and the tick is rolled back.
     */
    method PollOnce(failAt: nat) returns (r: TickResult)
      modifies this
      ensures Abs() == AfterPoll(batchSize, old(Abs()), failAt)
      ensures r == PollResult(batchSize, old(Abs()), failAt)
    {
      var rows := Select(Abs(), 0, batchSize);
      ghost var s0 := Abs();
      if rows == [] {
        assert MarkPublished(outbox, rows) == outbox;
        return Published(0);
      }
      var publishedIds: seq<RowId> := [];
      var i := 0;
      while i < |rows|
        invariant 0 <= i <= |rows| && i <= failAt
        invariant publishedIds == seq(i, k requires 0 <= k < i => rows[k].id)
        invariant Abs() == s0.(log := s0.log + Messages(rows[..i]))
      {
        if i == failAt {
          limbo := limbo + [rows[i]];
          rolled := rolled + EventIds(rows[..i]);
          return Failed;
        }
        Publish(rows[i]);
        assert Messages(rows[..i + 1]) == Messages(rows[..i]) + [MessageOf(rows[i])];
        publishedIds := publishedIds + [rows[i].id];
        i := i + 1;
      }
      assert rows[..|rows|] == rows;
      MarkedById(outbox, rows, publishedIds);
      outbox := map id | id in outbox :: if id in publishedIds then outbox[id].(published := true) else outbox[id];
      r := Published(|publishedIds|);
    }

    /** The polling loop over a number of polls, the k-th of which fails at row fails[k]; returns the time waited. */
    method PollLoop(fails: seq<nat>) returns (waited: nat)
      modifies this
      ensures Abs() == AfterPolls(batchSize, old(Abs()), fails)
      ensures waited == TotalWait(batchSize, old(Abs()), fails)
    {
      waited := 0;
      ghost var s0 := Abs();
      var k := 0;
      while k < |fails|
        invariant 0 <= k <= |fails|
        invariant Abs() == AfterPolls(batchSize, s0, fails[..k])
        invariant waited == TotalWait(batchSize, s0, fails[..k])
      {
        assert fails[..k + 1][..k] == fails[..k];
        var r := PollOnce(fails[k]);
        var published := if r.Published? then r.count else 0;
        waited := waited + if published > 0 then RELAY_POLL_INTERVAL_MS else RELAY_IDLE_BACKOFF_MS;
        k := k + 1;
      }
      assert fails[..k] == fails;
    }
  }

  /** A poll is a run of the protocol: lock, sends, and then a raise or the mark. */
  lemma PollIsRun(b: nat, s: State, failAt: nat)
    requires s.workers == [Idle]
    ensures Run(b, s, TickActions(b, s, failAt)) == Some(AfterPoll(b, s, failAt))
  {
    var rows := Select(s, 0, b);
    if failAt < |rows| {
      LockAndSends(b, s, 0, failAt);
      RunSnoc(b, s, [Lock(0)] + Sends(0, failAt), Raise(0));
      assert s.workers[0 := Tick(rows, failAt)][0 := Idle] == s.workers;
    } else {
      SuccessfulTickRuns(b, s, 0);
    }
  }

  /** Every poll keeps the invariant, and one that cannot fail takes its batch off the backlog. */
  lemma PollKeeps(b: nat, s: State, failAt: nat)
    requires RelayInvariants.Inv(s) && s.workers == [Idle]
    ensures RelayInvariants.Inv(AfterPoll(b, s, failAt))
    ensures failAt >= b ==> Backlog(AfterPoll(b, s, failAt)) == Backlog(s)[Min(b, |Backlog(s)|)..]
  {
    PollIsRun(b, s, failAt);
    RunKeepsInv(b, s, TickActions(b, s, failAt));
    SelectUnlocked(s, 0, b);
    SuccessfulTickDrains(b, s, 0);
  }

  /** What a poll reports shows in the tables: it published exactly when it marked rows, as many as the log grew by. */
  lemma PollTells(b: nat, s: State, failAt: nat)
    requires RelayInvariants.Inv(s)
    ensures var t, r := AfterPoll(b, s, failAt), PollResult(b, s, failAt);
      && (t.outbox != s.outbox <==> r.Published? && r.count > 0)
      && (r.Published? ==> r.count == |t.log| - |s.log| && t.limbo == s.limbo)
      && (r.Failed? ==> |t.limbo| == |s.limbo| + 1)
  {
    var rows := Select(s, 0, b);
    RelayInvariants.SelectSpec(s, 0, b);
    if failAt >= |rows| {
      if rows == [] {
        assert MarkPublished(s.outbox, rows) == s.outbox;
      } else {
        assert rows[0] in rows;
        assert MarkPublished(s.outbox, rows)[rows[0].id].published;
      }
    }
  }

  /** The polls that marked rows. */
  function MarkingPolls(b: nat, s: State, fails: seq<nat>): nat {
    if fails == [] then 0
    else
      var front := fails[..|fails| - 1];
      MarkingPolls(b, s, front)
      + (if AfterPolls(b, s, fails).outbox != AfterPolls(b, s, front).outbox then 1 else 0)
  }

  lemma DropTwice<T>(u: seq<T>, k: nat, b: nat)
    ensures var rest := u[Min(k * b, |u|)..];
      rest[Min(b, |rest|)..] == u[Min((k + 1) * b, |u|)..]
  {
    assert (k + 1) * b == k * b + b;
  }

  lemma {:induction false} PollsKeep(b: nat, s: State, fails: seq<nat>)
    requires RelayInvariants.Inv(s) && s.workers == [Idle]
    ensures RelayInvariants.Inv(AfterPolls(b, s, fails)) && AfterPolls(b, s, fails).workers == [Idle]
  {
    if fails != [] {
      var n := |fails| - 1;
      PollsKeep(b, s, fails[..n]);
      PollKeeps(b, AfterPolls(b, s, fails[..n]), fails[n]);
    }
  }

  ghost predicate NoneFails(b: nat, fails: seq<nat>) {
    forall k :: 0 <= k < |fails| ==> fails[k] >= b
  }

  lemma {:induction false} PollsTake(b: nat, s: State, fails: seq<nat>)
    requires RelayInvariants.Inv(s) && s.workers == [Idle] && NoneFails(b, fails)
    ensures Backlog(AfterPolls(b, s, fails)) == Backlog(s)[Min(|fails| * b, |Backlog(s)|)..]
  {
    if fails != [] {
      var n := |fails| - 1;
      PollsTake(b, s, fails[..n]);
      PollsKeep(b, s, fails[..n]);
      PollKeeps(b, AfterPolls(b, s, fails[..n]), fails[n]);
      DropTwice(Backlog(s), n, b);
    }
  }

  /** The loop keeps the protocol invariant whichever polls fail; polls that cannot fail drain the backlog. */
  lemma {:induction false} PollsDrain(b: nat, s: State, fails: seq<nat>)
    requires RelayInvariants.Inv(s) && s.workers == [Idle]
    ensures var t := AfterPolls(b, s, fails);
      && RelayInvariants.Inv(t) && t.workers == [Idle]
      && (NoneFails(b, fails) ==>
            && Backlog(t) == Backlog(s)[Min(|fails| * b, |Backlog(s)|)..]
            && (b > 0 ==> (Backlog(t) == [] <==> |fails| >= CeilDiv(|Backlog(s)|, b))))
  {
    PollsKeep(b, s, fails);
    if NoneFails(b, fails) {
      PollsTake(b, s, fails);
      if b > 0 { CeilDivLeast(|Backlog(s)|, b, |fails|); }
    }
  }

  /** The loop waits 200 ms after every poll that marked rows and 1000 ms after every other. */
  lemma {:induction false} WaitCounts(b: nat, s: State, fails: seq<nat>)
    requires RelayInvariants.Inv(s) && s.workers == [Idle]
    ensures MarkingPolls(b, s, fails) <= |fails|
    ensures TotalWait(b, s, fails)
         == 200 * MarkingPolls(b, s, fails) + 1000 * (|fails| - MarkingPolls(b, s, fails))
  {
    if fails != [] {
      var front := fails[..|fails| - 1];
      WaitCounts(b, s, front);
      PollsKeep(b, s, front);
      PollTells(b, AfterPolls(b, s, front), fails[|fails| - 1]);
    }
  }
}
