/**
 What every interleaving of the saga keeps: what has been written for an order, plus what its pending messages
 will still cause, is what the scenario determines.
 */
module SagaInvariants {
  import opened Sequences
  import opened Saga

  // ---- well-formed tasks ----

  ghost function PaymentResultOf(sc: Scenario, o: OrderId): Event {
    if sc.pays(o) then PaymentCompleted(o, sc.total(o)) else PaymentFailed(o)
  }

  ghost function StockResultOf(sc: Scenario, o: OrderId): Event {
    if sc.reserves(o) then InventoryReserved(o) else InventoryFailed(o)
  }

  ghost function RefundResultOf(sc: Scenario, o: OrderId): Event {
    if sc.refunds(o) then RefundCompleted(o, sc.total(o)) else RefundFailed(o)
  }

  /** A pending task says what the scenario makes it say. */
  ghost predicate TaskOk(sc: Scenario, t: Task) {
    var o := OrderOf(t);
    match t
    case ApiTail(_) => true
    case ToPayment(e) =>
      || e == OrderCreated(o, sc.user(o), sc.total(o))
      || (e == RefundRequested(o, sc.total(o)) && sc.pays(o) && !sc.reserves(o))
    case ToInventory(e) => e == PaymentResultOf(sc, o)
    case ToOrder(e) =>
      || e == PaymentResultOf(sc, o)
      || (e == StockResultOf(sc, o) && sc.pays(o))
      || (e == RefundResultOf(sc, o) && sc.pays(o) && !sc.reserves(o))
  }

  ghost predicate RecordOk(sc: Scenario, o: OrderId, r: OrderRecord) {
    && r.userId == sc.user(o) && r.totalPrice == sc.total(o)
    && r.history != [] && r.status == r.history[|r.history| - 1]
  }

  ghost predicate Inv(sc: Scenario, s: State) {
    && (forall o :: o in s.db ==> RecordOk(sc, o, s.db[o]))
    && (forall i :: 0 <= i < |s.pool| ==> TaskOk(sc, s.pool[i]) && OrderOf(s.pool[i]) in s.db)
  }

  // ---- one handling ----

  /** The tasks a handling adds to the pool. */
  ghost function Children(sc: Scenario, t: Task): seq<Task> {
    var o := OrderOf(t);
    match t
    case ApiTail(_) => []
    case ToPayment(e) =>
      if e.OrderCreated? then [ToOrder(PaymentResultOf(sc, o)), ToInventory(PaymentResultOf(sc, o))]
      else if e.RefundRequested? then [ToOrder(RefundResultOf(sc, o))] else []
    case ToInventory(e) => if e.PaymentCompleted? then [ToOrder(StockResultOf(sc, o))] else []
    case ToOrder(e) => if e.InventoryFailed? then [ToPayment(RefundRequested(o, sc.total(o)))] else []
  }

  /** The status a handling writes, if any: the first of those ahead of an order-service task. */
  ghost function StatusWritten(sc: Scenario, t: Task): seq<Status> {
    if t.ApiTail? || (t.ToOrder? && StatusesAhead(sc, t) != []) then [StatusesAhead(sc, t)[0]] else []
  }

  ghost function PaymentsWritten(sc: Scenario, t: Task): seq<PaymentRecord> {
    if t.ToPayment? && t.e.OrderCreated? then ExpectedPayments(sc, OrderOf(t)) else []
  }

  ghost function InventoryWritten(sc: Scenario, t: Task): seq<InventoryRecord> {
    if t.ToInventory? && t.e.PaymentCompleted? then ExpectedInventory(sc, OrderOf(t)) else []
  }

  ghost function RefundsWritten(sc: Scenario, t: Task): seq<RefundRecord> {
    if t.ToPayment? && t.e.RefundRequested? then ExpectedRefunds(sc, OrderOf(t)) else []
  }

  ghost function Appended(db: Orders, o: OrderId, sts: seq<Status>): Orders {
    if sts == [] then db else UpdateStatus(db, o, sts[0])
  }

  lemma RoutedOne(e: Event)
    ensures RoutedAll([e]) == Routed(e) && RoutedAll([]) == []
  {
    assert [e][1..] == [];
    assert Routed(e) + [] == Routed(e);
  }

  /** What handling a well-formed task of a known order does, in terms of the scenario. */
  lemma HandledIs(sc: Scenario, s: State, t: Task)
    requires TaskOk(sc, t) && OrderOf(t) in s.db && s.db[OrderOf(t)].totalPrice == sc.total(OrderOf(t))
    ensures Handled(sc, s, t) == State(
      Appended(s.db, OrderOf(t), StatusWritten(sc, t)),
      s.payments + PaymentsWritten(sc, t), s.inventory + InventoryWritten(sc, t),
      s.refunds + RefundsWritten(sc, t), s.pool + Children(sc, t))
  {
    if t.ToOrder? {
      RoutedOne(RefundRequested(OrderOf(t), sc.total(OrderOf(t))));
      RoutedOne(t.e);
    }
  }

  lemma ChildrenOk(sc: Scenario, t: Task)
    requires TaskOk(sc, t)
    ensures forall u :: u in Children(sc, t) ==> TaskOk(sc, u) && OrderOf(u) == OrderOf(t)
  {
  }

  lemma DeliverKeeps(sc: Scenario, s: State, i: nat)
    requires Inv(sc, s) && i < |s.pool|
    ensures Inv(sc, Apply(sc, s, Deliver(i)))
  {
    var t := s.pool[i];
    HandledIs(sc, s.(pool := RemoveAt(s.pool, i)), t);
    ChildrenOk(sc, t);
    var s' := Apply(sc, s, Deliver(i));
    forall j | 0 <= j < |s'.pool| ensures TaskOk(sc, s'.pool[j]) && OrderOf(s'.pool[j]) in s'.db {
      if j >= |s.pool| - 1 { assert s'.pool[j] in Children(sc, t); }
    }
  }

  lemma StepKeepsInv(sc: Scenario, s: State, a: Action)
    requires Inv(sc, s) && Enabled(s, a)
    ensures Inv(sc, Apply(sc, s, a))
  {
    if a.Deliver? { DeliverKeeps(sc, s, a.i); }
  }

  // ---- weights of pending tasks ----

  ghost function StatusWeight(sc: Scenario, o: OrderId, st: Status): Task -> nat {
    (t: Task) => if OrderOf(t) == o then Count(StatusesAhead(sc, t), st) else 0
  }

  ghost function PaymentWeight(sc: Scenario, r: PaymentRecord): Task -> nat {
    (t: Task) => Count(PaymentsAhead(sc, t), r)
  }

  ghost function InventoryWeight(sc: Scenario, r: InventoryRecord): Task -> nat {
    (t: Task) => Count(InventoryAhead(sc, t), r)
  }

  ghost function RefundWeight(sc: Scenario, r: RefundRecord): Task -> nat {
    (t: Task) => Count(RefundsAhead(sc, t), r)
  }

  ghost function MessageWeight(sc: Scenario, o: OrderId): Task -> nat {
    (t: Task) => if OrderOf(t) == o then MessagesAhead(sc, t) else 0
  }

  /** Handling moves `written` out of what the task had ahead. */
  lemma DeliverBalance(sc: Scenario, f: Task -> nat, s: State, i: nat, written: nat)
    requires Inv(sc, s) && i < |s.pool|
    requires f(s.pool[i]) == written + SumOver(f, Children(sc, s.pool[i]))
    ensures SumOver(f, s.pool) == written + SumOver(f, Apply(sc, s, Deliver(i)).pool)
  {
    var t := s.pool[i];
    HandledIs(sc, s.(pool := RemoveAt(s.pool, i)), t);
    SumRemove(f, s.pool, i);
    SumConcat(f, RemoveAt(s.pool, i), Children(sc, t));
  }

  lemma SumChildren(sc: Scenario, f: Task -> nat, t: Task)
    ensures var c := Children(sc, t);
      SumOver(f, c) == (if |c| == 0 then 0 else if |c| == 1 then f(c[0]) else f(c[0]) + f(c[1]))
  {
    var c := Children(sc, t);
    if |c| == 1 {
      assert c == [c[0]];
      SumOne(f, c[0]);
    } else if |c| == 2 {
      assert c == [c[0], c[1]];
      SumTwo(f, c[0], c[1]);
    }
  }

  lemma CountHead<T>(x: T, xs: seq<T>, y: T)
    ensures Count([x] + xs, y) == (if x == y then 1 else 0) + Count(xs, y)
  {
    CountConcat([x], xs, y);
    CountSnoc([], x, y);
    assert [] + [x] == [x];
  }

  ghost function AheadOfAll(sc: Scenario, c: seq<Task>): seq<Status>
    requires |c| <= 2
  {
    if |c| == 0 then [] else if |c| == 1 then StatusesAhead(sc, c[0])
    else StatusesAhead(sc, c[0]) + StatusesAhead(sc, c[1])
  }

  /** What a task has ahead is what its handling writes, followed by what its children have ahead. */
  lemma AheadSplits(sc: Scenario, t: Task)
    requires TaskOk(sc, t)
    ensures |Children(sc, t)| <= 2
    ensures StatusesAhead(sc, t) == StatusWritten(sc, t) + AheadOfAll(sc, Children(sc, t))
  {
  }

  lemma StatusBalance(sc: Scenario, t: Task, o: OrderId, st: Status)
    requires TaskOk(sc, t)
    ensures var f := StatusWeight(sc, o, st);
      f(t) == (if OrderOf(t) == o then Count(StatusWritten(sc, t), st) else 0) + SumOver(f, Children(sc, t))
  {
    SumChildren(sc, StatusWeight(sc, o, st), t);
    ChildrenOk(sc, t);
    AheadSplits(sc, t);
    var c := Children(sc, t);
    assert forall k :: 0 <= k < |c| ==> c[k] in c;
    CountConcat(StatusWritten(sc, t), AheadOfAll(sc, c), st);
    if |c| == 2 { CountConcat(StatusesAhead(sc, c[0]), StatusesAhead(sc, c[1]), st); }
  }

  lemma PaymentBalance(sc: Scenario, t: Task, r: PaymentRecord)
    requires TaskOk(sc, t)
    ensures var f := PaymentWeight(sc, r);
      f(t) == Count(PaymentsWritten(sc, t), r) + SumOver(f, Children(sc, t))
  {
    SumChildren(sc, PaymentWeight(sc, r), t);
  }

  lemma InventoryBalance(sc: Scenario, t: Task, r: InventoryRecord)
    requires TaskOk(sc, t)
    ensures var f := InventoryWeight(sc, r);
      f(t) == Count(InventoryWritten(sc, t), r) + SumOver(f, Children(sc, t))
  {
    SumChildren(sc, InventoryWeight(sc, r), t);
  }

  lemma RefundBalance(sc: Scenario, t: Task, r: RefundRecord)
    requires TaskOk(sc, t)
    ensures var f := RefundWeight(sc, r);
      f(t) == Count(RefundsWritten(sc, t), r) + SumOver(f, Children(sc, t))
  {
    SumChildren(sc, RefundWeight(sc, r), t);
  }

  lemma MessageBalance(sc: Scenario, t: Task, o: OrderId)
    requires TaskOk(sc, t)
    ensures var f := MessageWeight(sc, o);
      f(t) == (if OrderOf(t) == o && !t.ApiTail? then 1 else 0) + SumOver(f, Children(sc, t))
  {
    SumChildren(sc, MessageWeight(sc, o), t);
  }

  // ---- conservation ----

  ghost predicate StatusesConserved(sc: Scenario, s: State, o: OrderId, st: Status)
    requires o in s.db
  {
    Count(s.db[o].history, st) + SumOver(StatusWeight(sc, o, st), s.pool) == Count(Path(sc, o), st)
  }

  ghost predicate PaymentsConserved(sc: Scenario, s: State, r: PaymentRecord) {
    Count(s.payments, r) + SumOver(PaymentWeight(sc, r), s.pool)
      == if r.orderId in s.db then Count(ExpectedPayments(sc, r.orderId), r) else 0
  }

  ghost predicate InventoryConserved(sc: Scenario, s: State, r: InventoryRecord) {
    Count(s.inventory, r) + SumOver(InventoryWeight(sc, r), s.pool)
      == if r.orderId in s.db then Count(ExpectedInventory(sc, r.orderId), r) else 0
  }

  ghost predicate RefundsConserved(sc: Scenario, s: State, r: RefundRecord) {
    Count(s.refunds, r) + SumOver(RefundWeight(sc, r), s.pool)
      == if r.orderId in s.db then Count(ExpectedRefunds(sc, r.orderId), r) else 0
  }

  /** A new order brings two tasks; none of the old ones concerns it. */
  lemma CreateBalance(sc: Scenario, f: Task -> nat, s: State, o: OrderId)
    ensures SumOver(f, Apply(sc, s, Create(o)).pool) == SumOver(f, s.pool)
      + f(ToPayment(OrderCreated(o, sc.user(o), sc.total(o)))) + f(ApiTail(o))
    requires o !in s.db
  {
    var t := ToPayment(OrderCreated(o, sc.user(o), sc.total(o)));
    SumConcat(f, s.pool, [t, ApiTail(o)]);
    SumTwo(f, t, ApiTail(o));
  }

  /** Tasks of another order never touch an order's statuses. */
  lemma OtherOrder(sc: Scenario, s: State, o: OrderId, st: Status)
    requires Inv(sc, s) && o !in s.db
    ensures SumOver(StatusWeight(sc, o, st), s.pool) == 0
    ensures SumOver(MessageWeight(sc, o), s.pool) == 0
  {
    SumZero(StatusWeight(sc, o, st), s.pool);
    SumZero(MessageWeight(sc, o), s.pool);
  }

  lemma CreateStatuses(sc: Scenario, s: State, p: OrderId, o: OrderId, st: Status)
    requires Inv(sc, s) && p !in s.db
    requires o != p ==> o in s.db && StatusesConserved(sc, s, o, st)
    ensures StatusesConserved(sc, Apply(sc, s, Create(p)), o, st)
  {
    var f := StatusWeight(sc, o, st);
    CreateBalance(sc, f, s, p);
    if o == p {
      OtherOrder(sc, s, o, st);
      CountHead(CREATED, Path(sc, o)[1..], st);
      CountHead(PAYMENT_PROCESSING, Path(sc, o)[2..], st);
      assert Path(sc, o)[1..] == [PAYMENT_PROCESSING] + Path(sc, o)[2..];
      assert Path(sc, o) == [CREATED] + Path(sc, o)[1..];
      CountHead(CREATED, [], st);
      CountHead(PAYMENT_PROCESSING, [], st);
      assert [CREATED] == [CREATED] + [] && [PAYMENT_PROCESSING] == [PAYMENT_PROCESSING] + [];
    }
  }

  lemma DeliverStatuses(sc: Scenario, s: State, i: nat, o: OrderId, st: Status)
    requires Inv(sc, s) && i < |s.pool| && o in s.db && StatusesConserved(sc, s, o, st)
    ensures o in Apply(sc, s, Deliver(i)).db && StatusesConserved(sc, Apply(sc, s, Deliver(i)), o, st)
  {
    var t := s.pool[i];
    var written := StatusWritten(sc, t);
    StatusBalance(sc, t, o, st);
    DeliverBalance(sc, StatusWeight(sc, o, st), s, i, if OrderOf(t) == o then Count(written, st) else 0);
    HandledIs(sc, s.(pool := RemoveAt(s.pool, i)), t);
    if OrderOf(t) == o && written != [] {
      CountSnoc(s.db[o].history, written[0], st);
      CountHead(written[0], [], st);
      assert written == [written[0]] + [];
    }
  }

  lemma StepStatuses(sc: Scenario, s: State, a: Action, o: OrderId, st: Status)
    requires Inv(sc, s) && Enabled(s, a) && o in Apply(sc, s, a).db
    requires o in s.db ==> StatusesConserved(sc, s, o, st)
    ensures StatusesConserved(sc, Apply(sc, s, a), o, st)
  {
    match a
    case Create(p) => CreateStatuses(sc, s, p, o, st);
    case Deliver(i) =>
      HandledIs(sc, s.(pool := RemoveAt(s.pool, i)), s.pool[i]);
      DeliverStatuses(sc, s, i, o, st);
  }

  lemma StepPayments(sc: Scenario, s: State, a: Action, r: PaymentRecord)
    requires Inv(sc, s) && Enabled(s, a) && PaymentsConserved(sc, s, r)
    ensures PaymentsConserved(sc, Apply(sc, s, a), r)
  {
    var f := PaymentWeight(sc, r);
    match a
    case Create(p) =>
      CreateBalance(sc, f, s, p);
      CountHead(ExpectedPayments(sc, p)[0], [], r);
      assert ExpectedPayments(sc, p) == [ExpectedPayments(sc, p)[0]] + [];
    case Deliver(i) =>
      var t := s.pool[i];
      PaymentBalance(sc, t, r);
      DeliverBalance(sc, f, s, i, Count(PaymentsWritten(sc, t), r));
      HandledIs(sc, s.(pool := RemoveAt(s.pool, i)), t);
      CountConcat(s.payments, PaymentsWritten(sc, t), r);
  }

  lemma ExpectedElsewhere(sc: Scenario, p: OrderId, i: InventoryRecord, r: RefundRecord)
    ensures i.orderId != p ==> Count(ExpectedInventory(sc, p), i) == 0
    ensures r.orderId != p ==> Count(ExpectedRefunds(sc, p), r) == 0
  {
    CountPositive(ExpectedInventory(sc, p), i);
    CountPositive(ExpectedRefunds(sc, p), r);
  }

  lemma StepInventory(sc: Scenario, s: State, a: Action, r: InventoryRecord)
    requires Inv(sc, s) && Enabled(s, a) && InventoryConserved(sc, s, r)
    ensures InventoryConserved(sc, Apply(sc, s, a), r)
  {
    var f := InventoryWeight(sc, r);
    match a
    case Create(p) =>
      CreateBalance(sc, f, s, p);
      ExpectedElsewhere(sc, p, r, RefundRecord(p, 0, true));
    case Deliver(i) =>
      var t := s.pool[i];
      InventoryBalance(sc, t, r);
      DeliverBalance(sc, f, s, i, Count(InventoryWritten(sc, t), r));
      HandledIs(sc, s.(pool := RemoveAt(s.pool, i)), t);
      CountConcat(s.inventory, InventoryWritten(sc, t), r);
  }

  lemma StepRefunds(sc: Scenario, s: State, a: Action, r: RefundRecord)
    requires Inv(sc, s) && Enabled(s, a) && RefundsConserved(sc, s, r)
    ensures RefundsConserved(sc, Apply(sc, s, a), r)
  {
    var f := RefundWeight(sc, r);
    match a
    case Create(p) =>
      CreateBalance(sc, f, s, p);
      ExpectedElsewhere(sc, p, InventoryRecord(p, true), r);
    case Deliver(i) =>
      var t := s.pool[i];
      RefundBalance(sc, t, r);
      DeliverBalance(sc, f, s, i, Count(RefundsWritten(sc, t), r));
      HandledIs(sc, s.(pool := RemoveAt(s.pool, i)), t);
      CountConcat(s.refunds, RefundsWritten(sc, t), r);
  }

  /** Everything conserved, for all orders, statuses and records. */
  ghost predicate Conserved(sc: Scenario, s: State) {
    && (forall o, st :: o in s.db ==> StatusesConserved(sc, s, o, st))
    && (forall r :: PaymentsConserved(sc, s, r))
    && (forall r :: InventoryConserved(sc, s, r))
    && (forall r :: RefundsConserved(sc, s, r))
  }

  lemma StepConserves(sc: Scenario, s: State, a: Action)
    requires Inv(sc, s) && Conserved(sc, s) && Enabled(s, a)
    ensures Conserved(sc, Apply(sc, s, a))
  {
    var s' := Apply(sc, s, a);
    forall o, st | o in s'.db ensures StatusesConserved(sc, s', o, st) { StepStatuses(sc, s, a, o, st); }
    forall r ensures PaymentsConserved(sc, s', r) { StepPayments(sc, s, a, r); }
    forall r ensures InventoryConserved(sc, s', r) { StepInventory(sc, s, a, r); }
    forall r ensures RefundsConserved(sc, s', r) { StepRefunds(sc, s, a, r); }
  }

  lemma {:induction false} RunInvariant(sc: Scenario, acts: seq<Action>)
    requires Run(sc, INITIAL, acts).Some?
    ensures var s := Run(sc, INITIAL, acts).value;
      Inv(sc, s) && Conserved(sc, s)
  {
    if acts != [] {
      var front, a := acts[..|acts| - 1], acts[|acts| - 1];
      RunInvariant(sc, front);
      var t := Run(sc, INITIAL, front).value;
      StepKeepsInv(sc, t, a);
      StepConserves(sc, t, a);
    }
  }
}
