/**
 What every interleaving of create_order transactions and relay workers keeps: atomic order/row pairs,
 disjoint row locks, and conservation of the copies of each event in the broker log.
 */
module RelayInvariants {
  import opened Sequences
  import opened Outbox
  import opened Broker

  // ---- the invariant, one predicate per part of the state ----

  ghost predicate HasRow(outbox: map<RowId, OutRow>, o: OrderId) {
    exists id :: id in outbox && outbox[id].row.aggregateId == o
  }

  /** Row `row` stored under `id` is the one create_order enqueued for a committed order. */
  ghost predicate RowOk(orders: map<OrderId, Order>, id: RowId, row: Row) {
    row.aggregateId in orders && row == RowFor(id, row.eventId, row.aggregateId, orders[row.aggregateId])
  }

  ghost predicate OrderOk(order: Order) {
    order.totalPrice == TotalPrice(order.items) && order.status == "CREATED"
  }

  ghost predicate TablesOk(orders: map<OrderId, Order>, outbox: map<RowId, OutRow>, nextId: nat) {
    && (forall id :: id in outbox ==> id < nextId && RowOk(orders, id, outbox[id].row))
    && (forall i, j :: i in outbox && j in outbox && i != j ==>
          outbox[i].row.eventId != outbox[j].row.eventId && outbox[i].row.aggregateId != outbox[j].row.aggregateId)
    && (forall o :: o in orders ==> HasRow(outbox, o) && OrderOk(orders[o]))
  }

  ghost predicate OpenOk(open: map<RowId, Txn>, outbox: map<RowId, OutRow>, nextId: nat) {
    forall id :: id in open ==>
      && id < nextId && id !in outbox
      && open[id].row == RowFor(id, open[id].row.eventId, open[id].orderId, open[id].order)
      && OrderOk(open[id].order)
  }

  ghost predicate Ascending(rows: seq<Row>) {
    forall i, j :: 0 <= i < j < |rows| ==> rows[i].id < rows[j].id
  }

  ghost predicate WorkerOk(outbox: map<RowId, OutRow>, worker: Worker) {
    worker.Tick? ==>
      && 0 < |worker.batch| && worker.sent <= |worker.batch|
      && Ascending(worker.batch)
      && forall r :: r in worker.batch ==> r.id in outbox && outbox[r.id] == OutRow(r, false)
  }

  ghost predicate LocksDisjoint(workers: seq<Worker>) {
    forall v, w, id :: 0 <= v < w < |workers| ==> !(Locks(workers[v], id) && Locks(workers[w], id))
  }

  ghost predicate WorkersOk(outbox: map<RowId, OutRow>, workers: seq<Worker>) {
    (forall w :: 0 <= w < |workers| ==> WorkerOk(outbox, workers[w])) && LocksDisjoint(workers)
  }

  ghost predicate IsRow(outbox: map<RowId, OutRow>, row: Row) {
    row.id in outbox && outbox[row.id].row == row
  }

  ghost predicate LimboOk(outbox: map<RowId, OutRow>, limbo: seq<Row>) {
    forall r :: r in limbo ==> IsRow(outbox, r)
  }

  /** Message `m` carries the event id, key and payload of a committed outbox row. */
  ghost predicate FromRow(outbox: map<RowId, OutRow>, m: Message) {
    exists id :: id in outbox && m == MessageOf(outbox[id].row)
  }

  ghost predicate LogOk(outbox: map<RowId, OutRow>, log: seq<Message>) {
    forall k :: 0 <= k < |log| ==> FromRow(outbox, log[k])
  }

  ghost predicate Inv(s: State) {
    && TablesOk(s.orders, s.outbox, s.nextId)
    && OpenOk(s.open, s.outbox, s.nextId)
    && WorkersOk(s.outbox, s.workers)
    && LimboOk(s.outbox, s.limbo)
    && LogOk(s.outbox, s.log)
  }

  // ---- what SELECT ... ORDER BY id FOR UPDATE SKIP LOCKED LIMIT n returns ----

  lemma {:induction false} SelectSpec(s: State, lo: nat, n: nat)
    requires forall id :: id in s.outbox ==> s.outbox[id].row.id == id
    ensures var b := Select(s, lo, n);
      && |b| <= n && Ascending(b)
      && (forall r :: r in b ==> lo <= r.id < s.nextId && Available(s, r.id) && s.outbox[r.id].row == r)
    decreases s.nextId - lo
  {
    if n != 0 && lo < s.nextId {
      SelectSpec(s, lo + 1, if Available(s, lo) then n - 1 else n);
    }
  }

  /** No available row is passed over: one left out has an id above every selected id, and the batch is full. */
  lemma {:induction false} SelectTakesLowest(s: State, lo: nat, n: nat, id: RowId)
    requires forall i :: i in s.outbox ==> s.outbox[i].row.id == i
    requires lo <= id < s.nextId && Available(s, id)
    ensures var b := Select(s, lo, n);
      s.outbox[id].row in b || (|b| == n && forall r :: r in b ==> r.id < id)
    decreases s.nextId - lo
  {
    if n != 0 && lo != id {
      SelectTakesLowest(s, lo + 1, if Available(s, lo) then n - 1 else n, id);
    }
  }

  // ---- preservation, action by action ----

  lemma BeginKeeps(b: nat, s: State, a: Action)
    requires Inv(s) && a.Begin?
    ensures Inv(Apply(b, s, a))
  {
  }

  /** What refers to a row keeps its referent while the table only grows or marks rows. */
  lemma RowsStay(outbox: map<RowId, OutRow>, outbox': map<RowId, OutRow>, log: seq<Message>)
    requires LogOk(outbox, log)
    requires forall id :: id in outbox ==> id in outbox' && outbox'[id].row == outbox[id].row
    ensures LogOk(outbox', log)
    ensures forall o :: HasRow(outbox, o) ==> HasRow(outbox', o)
  {
    forall k | 0 <= k < |log| ensures FromRow(outbox', log[k]) {
      assert FromRow(outbox, log[k]);
      var i :| i in outbox && log[k] == MessageOf(outbox[i].row);
      assert outbox'[i].row == outbox[i].row;
    }
    forall o | HasRow(outbox, o) ensures HasRow(outbox', o) {
      var i :| i in outbox && outbox[i].row.aggregateId == o;
      assert outbox'[i].row.aggregateId == o;
    }
  }

  /** The new row is right for its new order, the old ones for theirs, and no identifier is repeated. */
  lemma RowsGrow(orders: map<OrderId, Order>, outbox: map<RowId, OutRow>, nextId: nat, id: RowId, t: Txn)
    requires TablesOk(orders, outbox, nextId)
    requires id < nextId && id !in outbox && t.orderId !in orders && !EventIdUsed(outbox, t.row.eventId)
    requires t.row == RowFor(id, t.row.eventId, t.orderId, t.order)
    ensures var orders', outbox' := orders[t.orderId := t.order], outbox[id := OutRow(t.row, false)];
      && (forall i :: i in outbox' ==> i < nextId && RowOk(orders', i, outbox'[i].row))
      && (forall i, j :: i in outbox' && j in outbox' && i != j ==>
            && outbox'[i].row.eventId != outbox'[j].row.eventId
            && outbox'[i].row.aggregateId != outbox'[j].row.aggregateId)
  {
    forall i | i in outbox
      ensures RowOk(orders[t.orderId := t.order], i, outbox[i].row)
      ensures outbox[i].row.eventId != t.row.eventId && outbox[i].row.aggregateId != t.orderId
    {
      assert RowOk(orders, i, outbox[i].row);
    }
  }

  lemma HasRowGrows(outbox: map<RowId, OutRow>, id: RowId, r: OutRow, o: OrderId)
    requires id !in outbox && (HasRow(outbox, o) || r.row.aggregateId == o)
    ensures HasRow(outbox[id := r], o)
  {
    if HasRow(outbox, o) {
      var i :| i in outbox && outbox[i].row.aggregateId == o;
      assert outbox[id := r][i].row.aggregateId == o;
    } else {
      assert outbox[id := r][id].row.aggregateId == o;
    }
  }

  /** Inserting the order and its outbox row together keeps the two tables consistent. */
  lemma TablesGrow(orders: map<OrderId, Order>, outbox: map<RowId, OutRow>, nextId: nat, id: RowId, t: Txn)
    requires TablesOk(orders, outbox, nextId)
    requires id < nextId && id !in outbox && t.orderId !in orders && !EventIdUsed(outbox, t.row.eventId)
    requires t.row == RowFor(id, t.row.eventId, t.orderId, t.order)
    requires OrderOk(t.order)
    ensures TablesOk(orders[t.orderId := t.order], outbox[id := OutRow(t.row, false)], nextId)
  {
    var orders', outbox' := orders[t.orderId := t.order], outbox[id := OutRow(t.row, false)];
    RowsGrow(orders, outbox, nextId, id, t);
    forall o | o in orders' ensures HasRow(outbox', o) {
      HasRowGrows(outbox, id, OutRow(t.row, false), o);
    }
  }

  /** A new row disturbs neither the open ticks nor the rows in limbo. */
  lemma NewRowKeeps(outbox: map<RowId, OutRow>, id: RowId, r: OutRow, workers: seq<Worker>, limbo: seq<Row>)
    requires id !in outbox && WorkersOk(outbox, workers) && LimboOk(outbox, limbo)
    ensures WorkersOk(outbox[id := r], workers) && LimboOk(outbox[id := r], limbo)
  {
    forall w | 0 <= w < |workers| ensures WorkerOk(outbox[id := r], workers[w]) {
      assert WorkerOk(outbox, workers[w]);
    }
  }

  lemma CommitKeepsOpen(open: map<RowId, Txn>, outbox: map<RowId, OutRow>, nextId: nat, id: RowId, r: OutRow)
    requires OpenOk(open, outbox, nextId) && id in open
    ensures OpenOk(open - {id}, outbox[id := r], nextId)
  {
  }

  lemma CommitKeeps(b: nat, s: State, id: RowId)
    requires Inv(s) && Enabled(s, Commit(id))
    ensures Inv(Apply(b, s, Commit(id)))
  {
    var r := OutRow(s.open[id].row, false);
    TablesGrow(s.orders, s.outbox, s.nextId, id, s.open[id]);
    CommitKeepsOpen(s.open, s.outbox, s.nextId, id, r);
    NewRowKeeps(s.outbox, id, r, s.workers, s.limbo);
    RowsStay(s.outbox, s.outbox[id := r], s.log);
  }

  lemma LockKeepsWorkers(s: State, w: nat, batch: seq<Row>)
    requires WorkersOk(s.outbox, s.workers) && w < |s.workers| && batch != [] && Ascending(batch)
    requires forall r :: r in batch ==> Available(s, r.id) && s.outbox[r.id].row == r
    ensures WorkersOk(s.outbox, s.workers[w := Tick(batch, 0)])
  {
    var ws := s.workers[w := Tick(batch, 0)];
    forall v, id | 0 <= v < |ws| && v != w && Locks(ws[w], id) ensures !Locks(ws[v], id) {
      assert Available(s, id);
      assert ws[v] == s.workers[v];
    }
    forall v | 0 <= v < |ws| ensures WorkerOk(s.outbox, ws[v]) {
      if v != w { assert WorkerOk(s.outbox, s.workers[v]); }
    }
  }

  lemma LockKeeps(b: nat, s: State, w: nat)
    requires Inv(s) && Enabled(s, Lock(w))
    ensures Inv(Apply(b, s, Lock(w)))
  {
    SelectSpec(s, 0, b);
    if Select(s, 0, b) != [] { LockKeepsWorkers(s, w, Select(s, 0, b)); }
  }

  lemma IdleKeepsWorkers(outbox: map<RowId, OutRow>, ws: seq<Worker>, w: nat)
    requires WorkersOk(outbox, ws) && w < |ws|
    ensures WorkersOk(outbox, ws[w := Idle])
  {
    var ws' := ws[w := Idle];
    forall u, v, id | 0 <= u < v < |ws'| ensures !(Locks(ws'[u], id) && Locks(ws'[v], id)) {
      assert !(Locks(ws[u], id) && Locks(ws[v], id));
    }
  }

  lemma SendKeeps(b: nat, s: State, w: nat)
    requires Inv(s) && Enabled(s, Send(w))
    ensures Inv(Apply(b, s, Send(w)))
  {
    var s' := Apply(b, s, Send(w));
    var t := s.workers[w];
    var r := t.batch[t.sent];
    assert r in t.batch;
    assert s'.log[|s.log|] == MessageOf(s.outbox[r.id].row);
    forall u, v, id | 0 <= u < v < |s'.workers| ensures !(Locks(s'.workers[u], id) && Locks(s'.workers[v], id)) {
      assert !(Locks(s.workers[u], id) && Locks(s.workers[v], id));
    }
  }

  lemma RaiseKeeps(b: nat, s: State, w: nat)
    requires Inv(s) && Enabled(s, Raise(w))
    ensures Inv(Apply(b, s, Raise(w)))
  {
    IdleKeepsWorkers(s.outbox, s.workers, w);
    var t := s.workers[w];
    assert t.batch[t.sent] in t.batch;
  }

  /** Marking one tick's batch leaves the rows of the other ticks unmarked, since they are disjoint. */
  lemma MarkKeepsWorkers(outbox: map<RowId, OutRow>, workers: seq<Worker>, w: nat)
    requires WorkersOk(outbox, workers) && w < |workers| && workers[w].Tick?
    ensures WorkersOk(MarkPublished(outbox, workers[w].batch), workers[w := Idle])
  {
    IdleKeepsWorkers(outbox, workers, w);
    var outbox', workers' := MarkPublished(outbox, workers[w].batch), workers[w := Idle];
    forall v | 0 <= v < |workers'| ensures WorkerOk(outbox', workers'[v]) {
      if v != w && workers[v].Tick? {
        assert WorkerOk(outbox, workers[v]);
        forall r | r in workers[v].batch ensures r.id in outbox' && outbox'[r.id] == OutRow(r, false) {
          assert Locks(workers[v], r.id);
          assert !Locks(workers[w], r.id);
        }
      }
    }
  }

  /** Marking changes no row. */
  lemma MarkKeepsTables(orders: map<OrderId, Order>, outbox: map<RowId, OutRow>, nextId: nat, batch: seq<Row>)
    requires TablesOk(orders, outbox, nextId)
    ensures TablesOk(orders, MarkPublished(outbox, batch), nextId)
  {
    RowsStay(outbox, MarkPublished(outbox, batch), []);
  }

  lemma MarkKeepsRest(open: map<RowId, Txn>, outbox: map<RowId, OutRow>, nextId: nat, limbo: seq<Row>,
                      log: seq<Message>, batch: seq<Row>)
    requires OpenOk(open, outbox, nextId) && LimboOk(outbox, limbo) && LogOk(outbox, log)
    ensures OpenOk(open, MarkPublished(outbox, batch), nextId) && LimboOk(MarkPublished(outbox, batch), limbo)
    ensures LogOk(MarkPublished(outbox, batch), log)
  {
    RowsStay(outbox, MarkPublished(outbox, batch), log);
    assert MarkPublished(outbox, batch).Keys == outbox.Keys;
  }

  lemma MarkKeeps(b: nat, s: State, w: nat)
    requires Inv(s) && Enabled(s, Mark(w))
    ensures Inv(Apply(b, s, Mark(w)))
  {
    var batch := s.workers[w].batch;
    MarkKeepsTables(s.orders, s.outbox, s.nextId, batch);
    MarkKeepsRest(s.open, s.outbox, s.nextId, s.limbo, s.log, batch);
    MarkKeepsWorkers(s.outbox, s.workers, w);
  }

  lemma LateAppendKeeps(b: nat, s: State, i: nat)
    requires Inv(s) && Enabled(s, LateAppend(i))
    ensures Inv(Apply(b, s, LateAppend(i)))
  {
    var s' := Apply(b, s, LateAppend(i));
    var r := s.limbo[i];
    assert r in s.limbo;
    assert s'.log[|s.log|] == MessageOf(s.outbox[r.id].row);
  }

  lemma StepKeepsInv(b: nat, s: State, a: Action)
    requires Inv(s) && Enabled(s, a)
    ensures Inv(Apply(b, s, a))
  {
    match a
    case Begin(_, _, _, _) => BeginKeeps(b, s, a);
    case Commit(id) => CommitKeeps(b, s, id);
    case Abort(id) =>
    case Lock(w) => LockKeeps(b, s, w);
    case Send(w) => SendKeeps(b, s, w);
    case Raise(w) => RaiseKeeps(b, s, w);
    case Rollback(w) => IdleKeepsWorkers(s.outbox, s.workers, w);
    case Mark(w) => MarkKeeps(b, s, w);
    case LateAppend(i) => LateAppendKeeps(b, s, i);
  }

  // ---- conservation of copies ----

  /** The number of times a worker's open tick has sent event e. */
  ghost function SendsOf(e: EventId): Worker -> nat {
    (worker: Worker) => Count(SentEvents(worker), e)
  }

  /** The number of times ticks that are still open have sent event e. */
  ghost function LiveSends(workers: seq<Worker>, e: EventId): nat {
    SumOver(SendsOf(e), workers)
  }

  ghost predicate IsPublished(outbox: map<RowId, OutRow>, e: EventId) {
    exists id :: id in outbox && outbox[id].published && outbox[id].row.eventId == e
  }

  ghost function Published(outbox: map<RowId, OutRow>, e: EventId): nat {
    if IsPublished(outbox, e) then 1 else 0
  }

  /** Copies of e = (1 if marked) + (sends by live ticks) + (sends by rolled-back ticks). */
  ghost predicate Conserved(s: State, e: EventId) {
    Copies(s.log, e) == Published(s.outbox, e) + LiveSends(s.workers, e) + Count(s.rolled, e)
  }

  lemma SentOnce(s: State, w: nat, e: EventId)
    requires Inv(s) && w < |s.workers|
    ensures Count(SentEvents(s.workers[w]), e) == if e in SentEvents(s.workers[w]) then 1 else 0
  {
    var sent := SentEvents(s.workers[w]);
    forall i, j | 0 <= i < j < |sent| ensures sent[i] != sent[j] {
      var t := s.workers[w];
      assert t.batch[i] in t.batch && t.batch[j] in t.batch;
      assert t.batch[i].id != t.batch[j].id;
    }
    CountDistinct(sent, e);
  }

  lemma SentEventsGrow(t: Worker)
    requires t.Tick? && t.sent < |t.batch|
    ensures SentEvents(t.(sent := t.sent + 1)) == SentEvents(t) + [t.batch[t.sent].eventId]
  {
    assert t.batch[..t.sent + 1] == t.batch[..t.sent] + [t.batch[t.sent]];
  }

  lemma SendConserves(b: nat, s: State, w: nat, e: EventId)
    requires Conserved(s, e) && Enabled(s, Send(w))
    ensures Conserved(Apply(b, s, Send(w)), e)
  {
    var t := s.workers[w];
    var r := t.batch[t.sent];
    SentEventsGrow(t);
    CountSnoc(SentEvents(t), r.eventId, e);
    CopiesSnoc(s.log, MessageOf(r), e);
    SumUpdate(SendsOf(e), s.workers, w, t.(sent := t.sent + 1));
  }

  lemma RollbackConserves(b: nat, s: State, w: nat, e: EventId)
    requires Conserved(s, e) && Enabled(s, Rollback(w))
    ensures Conserved(Apply(b, s, Rollback(w)), e)
  {
    SumUpdate(SendsOf(e), s.workers, w, Idle);
    CountConcat(s.rolled, SentEvents(s.workers[w]), e);
  }

  lemma RaiseConserves(b: nat, s: State, w: nat, e: EventId)
    requires Conserved(s, e) && Enabled(s, Raise(w))
    ensures Conserved(Apply(b, s, Raise(w)), e)
  {
    RollbackConserves(b, s, w, e);
  }

  /** Marking a batch publishes exactly its events. */
  lemma MarkPublishes(outbox: map<RowId, OutRow>, batch: seq<Row>, e: EventId)
    requires forall r :: r in batch ==> r.id in outbox && outbox[r.id].row == r
    ensures IsPublished(MarkPublished(outbox, batch), e) <==> IsPublished(outbox, e) || e in EventIds(batch)
  {
    var outbox' := MarkPublished(outbox, batch);
    if e in EventIds(batch) {
      var k :| 0 <= k < |batch| && EventIds(batch)[k] == e;
      assert batch[k] in batch;
      assert outbox'[batch[k].id].published;
    }
    if IsPublished(outbox', e) {
      var id :| id in outbox' && outbox'[id].published && outbox'[id].row.eventId == e;
      if !outbox[id].published {
        var r :| r in batch && r.id == id;
        var k :| 0 <= k < |batch| && batch[k] == r;
        assert EventIds(batch)[k] == e;
      }
    }
    if IsPublished(outbox, e) {
      var id :| id in outbox && outbox[id].published && outbox[id].row.eventId == e;
      assert outbox'[id].published;
    }
  }

  lemma SentEventRow(s: State, w: nat, e: EventId) returns (id: RowId)
    requires Inv(s) && w < |s.workers| && e in SentEvents(s.workers[w])
    ensures id in s.outbox && s.outbox[id].row.eventId == e && !s.outbox[id].published
    ensures Locks(s.workers[w], id)
  {
    var t := s.workers[w];
    var k :| 0 <= k < t.sent && SentEvents(t)[k] == e;
    assert t.batch[k] in t.batch;
    id := t.batch[k].id;
  }

  lemma MarkConserves(b: nat, s: State, w: nat, e: EventId)
    requires Inv(s) && Conserved(s, e) && Enabled(s, Mark(w))
    ensures Conserved(Apply(b, s, Mark(w)), e)
  {
    var t := s.workers[w];
    SumUpdate(SendsOf(e), s.workers, w, Idle);
    assert t.batch[..t.sent] == t.batch;
    SentOnce(s, w, e);
    MarkPublishes(s.outbox, t.batch, e);
    if e in SentEvents(t) {
      var id := SentEventRow(s, w, e);
    }
  }

  lemma CommitConserves(b: nat, s: State, id: RowId, e: EventId)
    requires Inv(s) && Conserved(s, e) && Enabled(s, Commit(id))
    ensures Conserved(Apply(b, s, Commit(id)), e)
  {
    var outbox' := Apply(b, s, Commit(id)).outbox;
    if IsPublished(s.outbox, e) {
      var i :| i in s.outbox && s.outbox[i].published && s.outbox[i].row.eventId == e;
      assert outbox'[i] == s.outbox[i];
    }
  }

  lemma LockConserves(b: nat, s: State, w: nat, e: EventId)
    requires Conserved(s, e) && Enabled(s, Lock(w))
    ensures Conserved(Apply(b, s, Lock(w)), e)
  {
    SumUpdate(SendsOf(e), s.workers, w, Tick(Select(s, 0, b), 0));
  }

  lemma LateAppendConserves(b: nat, s: State, i: nat, e: EventId)
    requires Conserved(s, e) && Enabled(s, LateAppend(i))
    ensures Conserved(Apply(b, s, LateAppend(i)), e)
  {
    CopiesSnoc(s.log, MessageOf(s.limbo[i]), e);
    CountSnoc(s.rolled, s.limbo[i].eventId, e);
  }

  lemma StepConserves(b: nat, s: State, a: Action, e: EventId)
    requires Inv(s) && Conserved(s, e) && Enabled(s, a)
    ensures Conserved(Apply(b, s, a), e)
  {
    match a
    case Begin(_, _, _, _) =>
    case Commit(id) => CommitConserves(b, s, id, e);
    case Abort(id) =>
    case Lock(w) => LockConserves(b, s, w, e);
    case Send(w) => SendConserves(b, s, w, e);
    case Raise(w) => RaiseConserves(b, s, w, e);
    case Rollback(w) => RollbackConserves(b, s, w, e);
    case Mark(w) => MarkConserves(b, s, w, e);
    case LateAppend(i) => LateAppendConserves(b, s, i, e);
  }

  // ---- every run ----

  /** In every reachable state, whatever the number of workers and the interleaving. */
  lemma {:induction false} RunInvariant(b: nat, workers: nat, acts: seq<Action>)
    ensures var r := Run(b, Init(workers), acts);
      r.Some? ==> Inv(r.value) && forall e :: Conserved(r.value, e)
  {
    if acts == [] {
      forall e ensures Conserved(Init(workers), e) { SumZero(SendsOf(e), Init(workers).workers); }
    } else {
      var front, a := acts[..|acts| - 1], acts[|acts| - 1];
      RunInvariant(b, workers, front);
      var t := Run(b, Init(workers), front);
      if t.Some? && Enabled(t.value, a) {
        StepKeepsInv(b, t.value, a);
        forall e ensures Conserved(Apply(b, t.value, a), e) { StepConserves(b, t.value, a, e); }
      }
    }
  }

  predicate RollsBack(a: Action) {
    a.Raise? || a.Rollback?
  }

  lemma {:induction false} RollbackFreeRolled(b: nat, workers: nat, acts: seq<Action>)
    requires forall k :: 0 <= k < |acts| ==> !RollsBack(acts[k])
    ensures var r := Run(b, Init(workers), acts);
      r.Some? ==> r.value.rolled == [] && r.value.limbo == []
  {
    if acts != [] {
      RollbackFreeRolled(b, workers, acts[..|acts| - 1]);
    }
  }

  lemma LiveSendsSource(workers: seq<Worker>, e: EventId) returns (w: nat)
    requires LiveSends(workers, e) > 0
    ensures w < |workers| && e in SentEvents(workers[w])
  {
    w := SumSource(SendsOf(e), workers);
    CountPositive(SentEvents(workers[w]), e);
  }

  lemma OneSender(s: State, v: nat, w: nat, e: EventId)
    requires Inv(s) && v < w < |s.workers| && e in SentEvents(s.workers[v])
    ensures e !in SentEvents(s.workers[w])
  {
    if e in SentEvents(s.workers[w]) {
      var i := SentEventRow(s, v, e);
      var j := SentEventRow(s, w, e);
    }
  }

  /** One more worker has sent the event only when none before it has. */
  lemma LiveOnceNext(s: State, n: nat, e: EventId)
    requires Inv(s) && n < |s.workers| && LiveSends(s.workers[..n], e) <= 1
    ensures LiveSends(s.workers[..n], e) + Count(SentEvents(s.workers[n]), e) <= 1
  {
    SentOnce(s, n, e);
    if LiveSends(s.workers[..n], e) > 0 {
      var v := LiveSendsSource(s.workers[..n], e);
      OneSender(s, v, n, e);
    }
  }

  lemma LiveSendsSnoc(workers: seq<Worker>, e: EventId)
    requires workers != []
    ensures LiveSends(workers, e)
         == LiveSends(workers[..|workers| - 1], e) + Count(SentEvents(workers[|workers| - 1]), e)
  {
  }

  lemma {:induction false} LiveOnceFrom(s: State, n: nat, e: EventId)
    requires Inv(s) && n <= |s.workers|
    ensures LiveSends(s.workers[..n], e) <= 1
  {
    if n > 0 {
      LiveOnceFrom(s, n - 1, e);
      LiveOnceNext(s, n - 1, e);
      LiveSendsSnoc(s.workers[..n], e);
      assert s.workers[..n][..n - 1] == s.workers[..n - 1];
    }
  }

  /** An event is sent by at most one live tick, and by none once it is marked. */
  lemma LiveOnce(s: State, e: EventId)
    requires Inv(s)
    ensures LiveSends(s.workers, e) + Published(s.outbox, e) <= 1
  {
    LiveOnceFrom(s, |s.workers|, e);
    assert s.workers[..|s.workers|] == s.workers;
    if LiveSends(s.workers, e) > 0 {
      var w := LiveSendsSource(s.workers, e);
      var id := SentEventRow(s, w, e);
    }
  }

  /**
   Copies of one event: a marked event has been sent; an event is duplicated only by sends of
   rolled-back ticks.
   */
  lemma {:induction false} CopiesBounds(b: nat, workers: nat, acts: seq<Action>, e: EventId)
    requires Run(b, Init(workers), acts).Some?
    ensures var s := Run(b, Init(workers), acts).value;
      && (IsPublished(s.outbox, e) ==> Copies(s.log, e) == 1 + Count(s.rolled, e))
      && Copies(s.log, e) <= 1 + Count(s.rolled, e)
  {
    RunInvariant(b, workers, acts);
    var s := Run(b, Init(workers), acts).value;
    LiveOnce(s, e);
    assert Conserved(s, e);
  }

  /** Without a rollback every event is sent at most once, and exactly once when it is marked. */
  lemma {:induction false} RollbackFreeSendsOnce(b: nat, workers: nat, acts: seq<Action>, e: EventId)
    requires forall k :: 0 <= k < |acts| ==> !RollsBack(acts[k])
    requires Run(b, Init(workers), acts).Some?
    ensures var s := Run(b, Init(workers), acts).value;
      && Copies(s.log, e) <= 1
      && (IsPublished(s.outbox, e) ==> Copies(s.log, e) == 1)
  {
    RollbackFreeRolled(b, workers, acts);
    CopiesBounds(b, workers, acts, e);
  }
}
