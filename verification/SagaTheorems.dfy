/** Confluence, money, progress and status paths of the saga. */
module SagaTheorems {
  import opened Sequences
  import opened Saga
  import opened SagaInvariants

  ghost predicate Reachable(sc: Scenario, s: State) {
    exists acts :: Run(sc, INITIAL, acts) == Some(s)
  }

  lemma ReachableInv(sc: Scenario, s: State)
    requires Reachable(sc, s)
    ensures Inv(sc, s) && Conserved(sc, s)
  {
    var acts :| Run(sc, INITIAL, acts) == Some(s);
    RunInvariant(sc, acts);
  }

  // ---- confluence ----

  /** A complete run has written exactly what the scenario determines, whatever its interleaving. */
  lemma CompleteIsDetermined(sc: Scenario, s: State)
    requires Reachable(sc, s) && Complete(s)
    ensures forall r ::
      Count(s.payments, r) == if r.orderId in s.db then Count(ExpectedPayments(sc, r.orderId), r) else 0
    ensures forall r ::
      Count(s.inventory, r) == if r.orderId in s.db then Count(ExpectedInventory(sc, r.orderId), r) else 0
    ensures forall r ::
      Count(s.refunds, r) == if r.orderId in s.db then Count(ExpectedRefunds(sc, r.orderId), r) else 0
    ensures forall o, st :: o in s.db ==> Count(s.db[o].history, st) == Count(Path(sc, o), st)
  {
    ReachableInv(sc, s);
    forall r
      ensures Count(s.payments, r) == if r.orderId in s.db then Count(ExpectedPayments(sc, r.orderId), r) else 0
    {
      assert PaymentsConserved(sc, s, r);
    }
    forall r
      ensures Count(s.inventory, r) == if r.orderId in s.db then Count(ExpectedInventory(sc, r.orderId), r) else 0
    {
      assert InventoryConserved(sc, s, r);
    }
    forall r
      ensures Count(s.refunds, r) == if r.orderId in s.db then Count(ExpectedRefunds(sc, r.orderId), r) else 0
    {
      assert RefundsConserved(sc, s, r);
    }
    forall o, st | o in s.db ensures Count(s.db[o].history, st) == Count(Path(sc, o), st) {
      assert StatusesConserved(sc, s, o, st);
    }
  }

  lemma {:induction false} CountIsMultiplicity<T>(s: seq<T>, x: T)
    ensures multiset(s)[x] == Count(s, x)
  {
    if s != [] {
      var n := |s| - 1;
      CountIsMultiplicity(s[..n], x);
      assert s == s[..n] + [s[n]];
    }
  }

  lemma {:induction false} SameCounts<T>(a: seq<T>, b: seq<T>)
    requires forall x :: Count(a, x) == Count(b, x)
    ensures multiset(a) == multiset(b)
  {
    forall x ensures multiset(a)[x] == multiset(b)[x] {
      CountIsMultiplicity(a, x);
      CountIsMultiplicity(b, x);
    }
  }

  /**
   Two complete runs over the same orders, causal or not, end with the same payment, inventory and refund
   records and, order by order, the same multiset of statuses.
   */
  lemma Confluence(sc: Scenario, s: State, t: State)
    requires Reachable(sc, s) && Complete(s) && Reachable(sc, t) && Complete(t)
    requires s.db.Keys == t.db.Keys
    ensures multiset(s.payments) == multiset(t.payments)
    ensures multiset(s.inventory) == multiset(t.inventory)
    ensures multiset(s.refunds) == multiset(t.refunds)
    ensures forall o :: o in s.db ==> multiset(s.db[o].history) == multiset(t.db[o].history)
  {
    CompleteIsDetermined(sc, s);
    CompleteIsDetermined(sc, t);
    assert forall o :: o in s.db <==> o in t.db by {
      assert forall o :: o in s.db <==> o in s.db.Keys;
    }
    SameCounts(s.payments, t.payments);
    SameCounts(s.inventory, t.inventory);
    SameCounts(s.refunds, t.refunds);
    forall o | o in s.db ensures multiset(s.db[o].history) == multiset(t.db[o].history) {
      SameCounts(s.db[o].history, t.db[o].history);
    }
  }

  // ---- money ----

  /** The completed charges of order o. */
  function Charged(payments: seq<PaymentRecord>, o: OrderId): int {
    if payments == [] then 0
    else
      var r := payments[|payments| - 1];
      Charged(payments[..|payments| - 1], o) + (if r.orderId == o && r.completed then r.amount else 0)
  }

  /** The completed refunds of order o. */
  function Refunded(refunds: seq<RefundRecord>, o: OrderId): int {
    if refunds == [] then 0
    else
      var r := refunds[|refunds| - 1];
      Refunded(refunds[..|refunds| - 1], o) + (if r.orderId == o && r.completed then r.amount else 0)
  }

  /** When order o has one possible payment record, what was charged is its count times the amount. */
  lemma {:induction false} ChargedIs(payments: seq<PaymentRecord>, r: PaymentRecord)
    requires forall p :: p in payments && p.orderId == r.orderId ==> p == r
    requires Count(payments, r) <= 1
    ensures Charged(payments, r.orderId) == if r.completed && Count(payments, r) == 1 then r.amount else 0
  {
    if payments != [] {
      var n := |payments| - 1;
      assert payments[n] in payments;
      assert payments == payments[..n] + [payments[n]];
      ChargedIs(payments[..n], r);
    }
  }

  lemma {:induction false} RefundedIs(refunds: seq<RefundRecord>, r: RefundRecord)
    requires forall p :: p in refunds && p.orderId == r.orderId ==> p == r
    requires Count(refunds, r) <= 1
    ensures Refunded(refunds, r.orderId) == if r.completed && Count(refunds, r) == 1 then r.amount else 0
  {
    if refunds != [] {
      var n := |refunds| - 1;
      assert refunds[n] in refunds;
      assert refunds == refunds[..n] + [refunds[n]];
      RefundedIs(refunds[..n], r);
    }
  }

  ghost function PaymentFor(sc: Scenario, o: OrderId): PaymentRecord {
    PaymentRecord(o, sc.user(o), sc.total(o), sc.pays(o))
  }

  ghost function RefundFor(sc: Scenario, o: OrderId): RefundRecord {
    RefundRecord(o, sc.total(o), sc.refunds(o))
  }

  lemma CountSingle<T>(x: T, y: T)
    ensures Count([x], y) == if x == y then 1 else 0
  {
    assert [x][..0] == [];
  }

  lemma PaymentsOfOrder(sc: Scenario, s: State, o: OrderId)
    requires Inv(sc, s) && Conserved(sc, s)
    ensures forall p :: p in s.payments && p.orderId == o ==> p == PaymentFor(sc, o)
    ensures Count(s.payments, PaymentFor(sc, o)) <= 1
  {
    forall p | p in s.payments && p.orderId == o ensures p == PaymentFor(sc, o) {
      CountPositive(s.payments, p);
      assert PaymentsConserved(sc, s, p);
      CountSingle(PaymentFor(sc, o), p);
    }
    assert PaymentsConserved(sc, s, PaymentFor(sc, o));
    CountSingle(PaymentFor(sc, o), PaymentFor(sc, o));
  }

  lemma RefundsOfOrder(sc: Scenario, s: State, o: OrderId)
    requires Inv(sc, s) && Conserved(sc, s)
    ensures forall p :: p in s.refunds && p.orderId == o ==> p == RefundFor(sc, o) && sc.pays(o) && !sc.reserves(o)
    ensures Count(s.refunds, RefundFor(sc, o)) <= 1
  {
    forall p | p in s.refunds && p.orderId == o ensures p == RefundFor(sc, o) && sc.pays(o) && !sc.reserves(o) {
      CountPositive(s.refunds, p);
      assert RefundsConserved(sc, s, p);
      CountSingle(RefundFor(sc, o), p);
    }
    assert RefundsConserved(sc, s, RefundFor(sc, o));
    CountSingle(RefundFor(sc, o), RefundFor(sc, o));
  }

  lemma PendingPayment(sc: Scenario, t: Task, p: PaymentRecord)
    requires TaskOk(sc, t) && PaymentWeight(sc, p)(t) > 0
    ensures t.ToPayment? && t.e.OrderCreated? && OrderOf(t) == p.orderId
  {
    CountPositive(PaymentsAhead(sc, t), p);
  }

  /** A recorded refund leaves no payment pending: the charge has been made. */
  lemma RefundFollowsCharge(sc: Scenario, s: State, o: OrderId)
    requires Inv(sc, s) && Conserved(sc, s) && RefundFor(sc, o) in s.refunds
    ensures PaymentFor(sc, o) in s.payments && sc.pays(o)
  {
    var p, r := PaymentFor(sc, o), RefundFor(sc, o);
    RefundsOfOrder(sc, s, o);
    CountPositive(s.refunds, r);
    CountPositive(s.payments, p);
    CountSingle(r, r);
    CountSingle(p, p);
    assert RefundsConserved(sc, s, r);
    assert PaymentsConserved(sc, s, p);
    if SumOver(PaymentWeight(sc, p), s.pool) > 0 {
      var i := SumSource(PaymentWeight(sc, p), s.pool);
      PendingPayment(sc, s.pool[i], p);
      SumRemove(RefundWeight(sc, r), s.pool, i);
    }
  }

  /**
   In every reachable state the refunded amount of an order is 0 or exactly the amount charged, and a refund
   record implies a completed charge of the same amount.
   */
  lemma RefundsMatchCharges(sc: Scenario, s: State, o: OrderId)
    requires Reachable(sc, s)
    ensures Refunded(s.refunds, o) == 0 || Refunded(s.refunds, o) == Charged(s.payments, o)
    ensures forall r :: r in s.refunds && r.orderId == o ==>
      exists p :: p in s.payments && p.orderId == o && p.completed && p.amount == r.amount
  {
    ReachableInv(sc, s);
    PaymentsOfOrder(sc, s, o);
    RefundsOfOrder(sc, s, o);
    ChargedIs(s.payments, PaymentFor(sc, o));
    RefundedIs(s.refunds, RefundFor(sc, o));
    CountPositive(s.refunds, RefundFor(sc, o));
    CountPositive(s.payments, PaymentFor(sc, o));
    if RefundFor(sc, o) in s.refunds {
      RefundFollowsCharge(sc, s, o);
    }
  }

  /** The net charge a complete run leaves, whatever its interleaving. */
  lemma NetChargeDetermined(sc: Scenario, s: State, o: OrderId)
    requires Reachable(sc, s) && Complete(s) && o in s.db
    ensures Charged(s.payments, o) - Refunded(s.refunds, o)
         == if sc.pays(o) && (sc.reserves(o) || !sc.refunds(o)) then sc.total(o) else 0
  {
    ReachableInv(sc, s);
    CompleteIsDetermined(sc, s);
    PaymentsOfOrder(sc, s, o);
    RefundsOfOrder(sc, s, o);
    CountSingle(PaymentFor(sc, o), PaymentFor(sc, o));
    CountSingle(RefundFor(sc, o), RefundFor(sc, o));
    ChargedIs(s.payments, PaymentFor(sc, o));
    RefundedIs(s.refunds, RefundFor(sc, o));
  }

  // ---- progress ----

  function Creates(acts: seq<Action>): nat {
    if acts == [] then 0 else Creates(acts[..|acts| - 1]) + (if acts[|acts| - 1].Create? then 1 else 0)
  }

  /** The messages of order o handled in a run. */
  function Handlings(sc: Scenario, s: State, acts: seq<Action>, o: OrderId): nat
    decreases |acts|
  {
    if acts == [] then 0
    else
      var front, a := acts[..|acts| - 1], acts[|acts| - 1];
      Handlings(sc, s, front, o)
      + match Run(sc, s, front)
        case None => 0
        case Some(t) =>
          if a.Deliver? && Enabled(t, a) && OrderOf(t.pool[a.i]) == o && !t.pool[a.i].ApiTail? then 1 else 0
  }

  /** Handled messages and messages ahead add up to the order's fixed number, at most six. */
  lemma {:induction false} MessagesConserved(sc: Scenario, acts: seq<Action>, o: OrderId)
    requires Run(sc, INITIAL, acts).Some?
    ensures var s := Run(sc, INITIAL, acts).value;
      Handlings(sc, INITIAL, acts, o) + SumOver(MessageWeight(sc, o), s.pool)
        == if o in s.db then MessagesOf(sc, o) else 0
  {
    if acts != [] {
      var front, a := acts[..|acts| - 1], acts[|acts| - 1];
      MessagesConserved(sc, front, o);
      RunInvariant(sc, front);
      var t := Run(sc, INITIAL, front).value;
      match a
      case Create(p) =>
        CreateBalance(sc, MessageWeight(sc, o), t, p);
        if p == o { OtherOrder(sc, t, o, CREATED); }
      case Deliver(i) =>
        MessageBalance(sc, t.pool[i], o);
        DeliverBalance(sc, MessageWeight(sc, o), t, i, if OrderOf(t.pool[i]) == o && !t.pool[i].ApiTail? then 1 else 0);
        HandledIs(sc, t.(pool := RemoveAt(t.pool, i)), t.pool[i]);
    }
  }

  /** The weight of a task in steps: its message handlings, and one for the tail of the request. */
  ghost function Steps(sc: Scenario): Task -> nat {
    (t: Task) => if t.ApiTail? then 1 else MessagesAhead(sc, t)
  }

  lemma StepsBalance(sc: Scenario, t: Task)
    requires TaskOk(sc, t)
    ensures Steps(sc)(t) == 1 + SumOver(Steps(sc), Children(sc, t))
  {
    SumChildren(sc, Steps(sc), t);
  }

  /** Every handling lowers the measure by one. */
  lemma MeasureDecreases(sc: Scenario, s: State, i: nat)
    requires Inv(sc, s) && i < |s.pool|
    ensures SumOver(Steps(sc), s.pool) == 1 + SumOver(Steps(sc), Apply(sc, s, Deliver(i)).pool)
  {
    StepsBalance(sc, s.pool[i]);
    DeliverBalance(sc, Steps(sc), s, i, 1);
  }

  /**
   A run with n orders has at most 8n steps (the creation, at most six message handlings and the tail of the
   request for each), and while it is not complete a further handling is possible.
   */
  lemma {:induction false} Quiesces(sc: Scenario, acts: seq<Action>)
    requires Run(sc, INITIAL, acts).Some?
    ensures var s := Run(sc, INITIAL, acts).value;
      && |acts| + SumOver(Steps(sc), s.pool) <= 8 * Creates(acts)
      && (Complete(s) || Enabled(s, Deliver(0)))
  {
    if acts != [] {
      var front, a := acts[..|acts| - 1], acts[|acts| - 1];
      Quiesces(sc, front);
      RunInvariant(sc, front);
      var t := Run(sc, INITIAL, front).value;
      match a
      case Create(p) => CreateBalance(sc, Steps(sc), t, p);
      case Deliver(i) => MeasureDecreases(sc, t, i);
    }
  }

  // ---- status paths under causal delivery ----

  /** The place of an order-service task in the causal order of its order's tasks. */
  function Rank(t: Task): Option<nat> {
    match t
    case ApiTail(_) => Some(1)
    case ToOrder(e) =>
      (match TopicOf(e)
       case PAYMENT_RESULT => Some(2)
       case INVENTORY_RESULT => Some(3)
       case REFUND_RESULT => Some(4)
       case ORDER_CREATED => None
       case REFUND_REQUEST => None)
    case ToPayment(_) => None
    case ToInventory(_) => None
  }

  /** The order service handles no result of order o while one of its causes is still waiting for it. */
  ghost predicate CausalAt(s: State, a: Action, o: OrderId) {
    a.Deliver? && a.i < |s.pool| && OrderOf(s.pool[a.i]) == o && Rank(s.pool[a.i]).Some? ==>
      forall j :: 0 <= j < |s.pool| && OrderOf(s.pool[j]) == o && Rank(s.pool[j]).Some? ==>
        Rank(s.pool[a.i]).value <= Rank(s.pool[j]).value
  }

  /** That holds at every step of a run; nothing is asked of other orders. */
  ghost predicate CausalFor(sc: Scenario, acts: seq<Action>, o: OrderId)
    decreases |acts|
  {
    acts == [] ||
    var front := acts[..|acts| - 1];
    && CausalFor(sc, front, o)
    && match Run(sc, INITIAL, front) case None => true case Some(t) => CausalAt(t, acts[|acts| - 1], o)
  }

  /** The statuses ahead of a task are a stretch of its order's path. */
  ghost function First(t: Task): nat {
    match t
    case ApiTail(_) => 1
    case ToPayment(e) => if e.OrderCreated? then 2 else 4
    case ToInventory(_) => 3
    case ToOrder(_) => if Rank(t).Some? then Rank(t).value else 0
  }

  lemma PathFacts(sc: Scenario, o: OrderId)
    ensures var p := Path(sc, o);
      && 3 <= |p| <= 5 && Distinct(p)
      && p[0] == CREATED && p[1] == PAYMENT_PROCESSING
      && p[2] == (if sc.pays(o) then INVENTORY_PROCESSING else PAYMENT_FAILED)
      && (sc.pays(o) ==> |p| >= 4 && p[3] == (if sc.reserves(o) then COMPLETED else COMPENSATING))
      && (sc.pays(o) && !sc.reserves(o) ==>
            |p| == 5 && p[4] == (if sc.refunds(o) then COMPENSATED else COMPENSATION_FAILED))
      && (sc.pays(o) && sc.reserves(o) ==> |p| == 4) && (!sc.pays(o) ==> |p| == 3)
  {
  }

  /** Members of the statuses ahead, by position on the path. */
  lemma AheadOnPath(sc: Scenario, t: Task, k: nat)
    requires TaskOk(sc, t) && k < |Path(sc, OrderOf(t))|
    ensures Path(sc, OrderOf(t))[k] in StatusesAhead(sc, t) ==> First(t) <= k
    ensures Rank(t).Some? ==> First(t) == Rank(t).value < |Path(sc, OrderOf(t))|
    ensures Rank(t).Some? ==> StatusWritten(sc, t) == [Path(sc, OrderOf(t))[First(t)]]
    ensures Rank(t).Some? ==> Path(sc, OrderOf(t))[First(t)] in StatusesAhead(sc, t)
    ensures Rank(t).None? ==> StatusWritten(sc, t) == []
  {
    PathFacts(sc, OrderOf(t));
  }

  /** An upstream task that has a place of the path ahead has all later places ahead. */
  lemma UpstreamHasRest(sc: Scenario, t: Task, k: nat, r: nat)
    requires TaskOk(sc, t) && Rank(t).None? && k <= r < |Path(sc, OrderOf(t))|
    requires Path(sc, OrderOf(t))[k] in StatusesAhead(sc, t)
    ensures Path(sc, OrderOf(t))[r] in StatusesAhead(sc, t)
  {
    PathFacts(sc, OrderOf(t));
  }

  ghost predicate OnPath(sc: Scenario, s: State, o: OrderId) {
    o in s.db ==> s.db[o].history <= Path(sc, o)
  }

  lemma PrefixCount(p: seq<Status>, n: nat, k: nat)
    requires n <= |p| && k < |p| && Distinct(p)
    ensures Count(p[..n], p[k]) == if k < n then 1 else 0
    ensures Count(p, p[k]) == 1
  {
    CountDistinct(p[..n], p[k]);
    CountDistinct(p, p[k]);
    if k < n { assert p[..n][k] == p[k]; }
  }

  /** The next status of the path that is still missing is ahead of some pending task of the order. */
  lemma NextIsPending(sc: Scenario, s: State, o: OrderId) returns (j: nat)
    requires Inv(sc, s) && Conserved(sc, s) && o in s.db
    requires s.db[o].history <= Path(sc, o) && |s.db[o].history| < |Path(sc, o)|
    ensures j < |s.pool| && OrderOf(s.pool[j]) == o
    ensures Path(sc, o)[|s.db[o].history|] in StatusesAhead(sc, s.pool[j])
  {
    var p, k := Path(sc, o), |s.db[o].history|;
    PathFacts(sc, o);
    PrefixCount(p, k, k);
    assert s.db[o].history == p[..k];
    assert StatusesConserved(sc, s, o, p[k]);
    j := SumSource(StatusWeight(sc, o, p[k]), s.pool);
    CountPositive(StatusesAhead(sc, s.pool[j]), p[k]);
  }

  /** The place of t is ahead of t alone, so an earlier place cannot be ahead of an upstream task. */
  lemma NoSecondSource(sc: Scenario, s: State, i: nat, j: nat, k: nat)
    requires Inv(sc, s) && Conserved(sc, s)
    requires i < |s.pool| && j < |s.pool| && OrderOf(s.pool[i]) == OrderOf(s.pool[j])
    requires Rank(s.pool[i]).Some? && k < First(s.pool[i]) < |Path(sc, OrderOf(s.pool[i]))|
    requires Path(sc, OrderOf(s.pool[i]))[k] in StatusesAhead(sc, s.pool[j])
    ensures Rank(s.pool[j]).Some?
  {
    var o := OrderOf(s.pool[i]);
    var p, r := Path(sc, o), First(s.pool[i]);
    AheadOnPath(sc, s.pool[i], r);
    PathFacts(sc, o);
    PrefixCount(p, 0, r);
    CountPositive(StatusesAhead(sc, s.pool[i]), p[r]);
    CountPositive(StatusesAhead(sc, s.pool[j]), p[r]);
    assert StatusesConserved(sc, s, o, p[r]);
    if Rank(s.pool[j]).None? {
      UpstreamHasRest(sc, s.pool[j], k, r);
      SumAtLeastTwo(StatusWeight(sc, o, p[r]), s.pool, i, j);
    }
  }

  /** Under causal delivery the order service writes the statuses of an order in path order. */
  lemma CausalDeliverNext(sc: Scenario, s: State, i: nat)
    requires Inv(sc, s) && Conserved(sc, s) && i < |s.pool| && Rank(s.pool[i]).Some?
    requires OnPath(sc, s, OrderOf(s.pool[i])) && CausalAt(s, Deliver(i), OrderOf(s.pool[i]))
    ensures var o := OrderOf(s.pool[i]);
      o in s.db && First(s.pool[i]) == |s.db[o].history|
  {
    var t := s.pool[i];
    var o := OrderOf(t);
    var p, k, r := Path(sc, o), |s.db[o].history|, First(t);
    PathFacts(sc, o);
    AheadOnPath(sc, t, 0);
    var f := StatusWeight(sc, o, p[r]);
    assert s.db[o].history == p[..k];
    PrefixCount(p, k, r);
    assert StatusesConserved(sc, s, o, p[r]);
    CountPositive(StatusesAhead(sc, t), p[r]);
    SumRemove(f, s.pool, i);
    if k < r {
      var j := NextIsPending(sc, s, o);
      AheadOnPath(sc, s.pool[j], k);
      NoSecondSource(sc, s, i, j, k);
    }
  }

  /** While a history follows the path, what is still pending for its order comes after it. */
  lemma PendingIsLater(sc: Scenario, s: State, j: nat)
    requires Inv(sc, s) && Conserved(sc, s) && j < |s.pool| && Rank(s.pool[j]).Some?
    requires OnPath(sc, s, OrderOf(s.pool[j]))
    ensures var o := OrderOf(s.pool[j]);
      o in s.db && |s.db[o].history| <= Rank(s.pool[j]).value
  {
    var t := s.pool[j];
    var o := OrderOf(t);
    var p, k, r := Path(sc, o), |s.db[o].history|, First(t);
    PathFacts(sc, o);
    AheadOnPath(sc, t, 0);
    assert s.db[o].history == p[..k];
    PrefixCount(p, k, r);
    assert StatusesConserved(sc, s, o, p[r]);
    CountPositive(StatusesAhead(sc, t), p[r]);
    SumRemove(StatusWeight(sc, o, p[r]), s.pool, j);
  }

  /** Appending place r of the path keeps a history on the path exactly when r is the next place. */
  lemma AppendPlace(p: seq<Status>, h: seq<Status>, r: nat)
    requires Distinct(p) && r < |p|
    ensures h + [p[r]] <= p <==> h <= p && r == |h|
  {
    if h + [p[r]] <= p {
      assert (h + [p[r]])[|h|] == p[|h|];
    }
  }

  lemma DeliverFollowsIff(sc: Scenario, s: State, i: nat, o: OrderId)
    requires Inv(sc, s) && Conserved(sc, s) && i < |s.pool| && OrderOf(s.pool[i]) == o && Rank(s.pool[i]).Some?
    ensures OnPath(sc, Apply(sc, s, Deliver(i)), o) <==> OnPath(sc, s, o) && CausalAt(s, Deliver(i), o)
  {
    var t := s.pool[i];
    HandledIs(sc, s.(pool := RemoveAt(s.pool, i)), t);
    PathFacts(sc, o);
    AheadOnPath(sc, t, 0);
    AppendPlace(Path(sc, o), s.db[o].history, Rank(t).value);
    if OnPath(sc, s, o) {
      if CausalAt(s, Deliver(i), o) {
        CausalDeliverNext(sc, s, i);
      }
      forall j | 0 <= j < |s.pool| && OrderOf(s.pool[j]) == o && Rank(s.pool[j]).Some?
        ensures |s.db[o].history| <= Rank(s.pool[j]).value
      {
        PendingIsLater(sc, s, j);
      }
    }
  }

  /** A step leaves the history of o on its path exactly when it was there and the step is causal for o. */
  lemma StepFollowsIff(sc: Scenario, s: State, a: Action, o: OrderId)
    requires Inv(sc, s) && Conserved(sc, s) && Enabled(s, a)
    ensures OnPath(sc, Apply(sc, s, a), o) <==> OnPath(sc, s, o) && CausalAt(s, a, o)
  {
    match a
    case Create(p) => PathFacts(sc, p);
    case Deliver(i) =>
      if OrderOf(s.pool[i]) == o && Rank(s.pool[i]).Some? {
        DeliverFollowsIff(sc, s, i, o);
      } else {
        HandledIs(sc, s.(pool := RemoveAt(s.pool, i)), s.pool[i]);
        AheadOnPath(sc, s.pool[i], 0);
      }
  }

  lemma {:induction false} OnPathIffCausal(sc: Scenario, acts: seq<Action>, o: OrderId)
    requires Run(sc, INITIAL, acts).Some?
    ensures OnPath(sc, Run(sc, INITIAL, acts).value, o) <==> CausalFor(sc, acts, o)
  {
    if acts != [] {
      var front := acts[..|acts| - 1];
      OnPathIffCausal(sc, front, o);
      RunInvariant(sc, front);
      StepFollowsIff(sc, Run(sc, INITIAL, front).value, acts[|acts| - 1], o);
    }
  }

  /** The documented status graph. */
  predicate Edge(a: Status, b: Status) {
    || (a == CREATED && b == PAYMENT_PROCESSING)
    || (a == PAYMENT_PROCESSING && (b == PAYMENT_FAILED || b == INVENTORY_PROCESSING))
    || (a == INVENTORY_PROCESSING && (b == COMPLETED || b == COMPENSATING))
    || (a == COMPENSATING && (b == COMPENSATED || b == COMPENSATION_FAILED))
  }

  predicate Terminal(st: Status) {
    st == PAYMENT_FAILED || st == COMPLETED || st == COMPENSATED || st == COMPENSATION_FAILED
  }

  ghost predicate GraphPath(h: seq<Status>) {
    && h != [] && h[0] == CREATED
    && (forall k :: 0 <= k < |h| - 1 ==> Edge(h[k], h[k + 1]))
  }

  /** A walk of the graph that writes only statuses of the order's path walks along that path. */
  lemma {:induction false} WalkIsPath(sc: Scenario, o: OrderId, h: seq<Status>, n: nat)
    requires GraphPath(h) && 1 <= n <= |h| && forall k :: 0 <= k < |h| ==> h[k] in Path(sc, o)
    ensures n <= |Path(sc, o)| && h[..n] == Path(sc, o)[..n]
  {
    PathFacts(sc, o);
    if n > 1 {
      WalkIsPath(sc, o, h, n - 1);
      assert h[n - 2] == h[..n - 1][n - 2];
      assert Edge(h[n - 2], h[n - 1]);
      assert h[n - 1] in Path(sc, o);
    }
  }

  lemma GraphPathIff(sc: Scenario, s: State, o: OrderId)
    requires Inv(sc, s) && Conserved(sc, s) && o in s.db
    ensures GraphPath(s.db[o].history) <==> OnPath(sc, s, o)
    ensures OnPath(sc, s, o) ==> forall k :: 0 <= k < |s.db[o].history| - 1 ==> !Terminal(s.db[o].history[k])
  {
    var h := s.db[o].history;
    PathFacts(sc, o);
    if GraphPath(h) {
      forall k | 0 <= k < |h| ensures h[k] in Path(sc, o) {
        assert StatusesConserved(sc, s, o, h[k]);
        CountPositive(h, h[k]);
        CountPositive(Path(sc, o), h[k]);
      }
      WalkIsPath(sc, o, h, |h|);
      assert h[..|h|] == h;
    }
  }

  /**
   In every reachable state the history of an order is a path of the documented graph if and only if no result
   of that order has overtaken its causes at the order service, whatever happened to other orders; and a path
   never leaves a terminal status.
   */
  lemma {:induction false} HistoriesFollowGraph(sc: Scenario, acts: seq<Action>, o: OrderId)
    requires Run(sc, INITIAL, acts).Some? && o in Run(sc, INITIAL, acts).value.db
    ensures var h := Run(sc, INITIAL, acts).value.db[o].history;
      && (GraphPath(h) <==> CausalFor(sc, acts, o))
      && (CausalFor(sc, acts, o) ==> forall k :: 0 <= k < |h| - 1 ==> !Terminal(h[k]))
  {
    OnPathIffCausal(sc, acts, o);
    RunInvariant(sc, acts);
    GraphPathIff(sc, Run(sc, INITIAL, acts).value, o);
  }

  lemma CompleteHistoryIsPath(sc: Scenario, s: State, o: OrderId)
    requires Inv(sc, s) && Conserved(sc, s) && Complete(s) && o in s.db && s.db[o].history <= Path(sc, o)
    ensures s.db[o].history == Path(sc, o)
  {
    if |s.db[o].history| < |Path(sc, o)| {
      var j := NextIsPending(sc, s, o);
    }
  }

  /**
   When a run is complete, an order has walked its whole path if and only if the run was causal for it; then it
   is terminal, with the status the scenario determines.
   */
  lemma {:induction false} CompleteIsTerminal(sc: Scenario, acts: seq<Action>, o: OrderId)
    requires Run(sc, INITIAL, acts).Some?
    requires Complete(Run(sc, INITIAL, acts).value) && o in Run(sc, INITIAL, acts).value.db
    ensures var r := Run(sc, INITIAL, acts).value.db[o];
      && (r.history == Path(sc, o) <==> CausalFor(sc, acts, o))
      && (CausalFor(sc, acts, o) ==> Terminal(r.status) && r.status == Path(sc, o)[|Path(sc, o)| - 1])
  {
    OnPathIffCausal(sc, acts, o);
    RunInvariant(sc, acts);
    if CausalFor(sc, acts, o) {
      CompleteHistoryIsPath(sc, Run(sc, INITIAL, acts).value, o);
    }
    PathFacts(sc, o);
  }

  /** The net charge and the status tell the same: all of the price was kept, or nothing. */
  predicate NetTells(net: int, total: int, st: Status) {
    && (net == total <==> st == COMPLETED || st == COMPENSATION_FAILED)
    && (net == 0 <==> st == PAYMENT_FAILED || st == COMPENSATED)
  }

  /** All or nothing was kept; a terminal status says which, and no other status does. */
  predicate NetMatches(net: int, total: int, st: Status) {
    && (net == 0 || net == total)
    && (Terminal(st) ==> net == (if st == COMPLETED || st == COMPENSATION_FAILED then total else 0))
    && (total != 0 ==> (NetTells(net, total, st) <==> Terminal(st)))
  }

  lemma TerminalTells(net: int, total: int, st: Status, last: Status)
    requires Terminal(last) && (Terminal(st) <==> st == last)
    requires net == if last == COMPLETED || last == COMPENSATION_FAILED then total else 0
    ensures NetMatches(net, total, st)
  {
  }

  /** The status the outcomes lead to. */
  function FinalStatus(sc: Scenario, o: OrderId): Status {
    if !sc.pays(o) then PAYMENT_FAILED
    else if sc.reserves(o) then COMPLETED
    else if sc.refunds(o) then COMPENSATED else COMPENSATION_FAILED
  }

  lemma FinalStatusIsLast(sc: Scenario, o: OrderId)
    ensures FinalStatus(sc, o) == Path(sc, o)[|Path(sc, o)| - 1]
  {
  }

  /**
   Without causal delivery a complete run may leave an order in a passing status, but it never leaves it in a
   terminal status other than the one the scenario determines.
   */
  lemma TerminalIsRight(sc: Scenario, s: State, o: OrderId)
    requires Reachable(sc, s) && Complete(s) && o in s.db
    ensures Terminal(s.db[o].status) <==> s.db[o].status == Path(sc, o)[|Path(sc, o)| - 1]
  {
    ReachableInv(sc, s);
    CompleteIsDetermined(sc, s);
    var h := s.db[o].history;
    PathFacts(sc, o);
    CountPositive(h, s.db[o].status);
    CountPositive(Path(sc, o), s.db[o].status);
    assert h[|h| - 1] in h;
  }

  lemma NetChargeAtEnd(sc: Scenario, s: State, o: OrderId)
    requires Reachable(sc, s) && Complete(s) && o in s.db
    ensures NetMatches(Charged(s.payments, o) - Refunded(s.refunds, o), s.db[o].totalPrice, s.db[o].status)
  {
    ReachableInv(sc, s);
    TerminalIsRight(sc, s, o);
    FinalStatusIsLast(sc, o);
    NetChargeDetermined(sc, s, o);
    TerminalTells(Charged(s.payments, o) - Refunded(s.refunds, o), sc.total(o), s.db[o].status, FinalStatus(sc, o));
  }

  /**
   When a run is complete, the net charge of an order is 0 or its total price; for a total price other than 0 the
   net charge and the status determine each other if and only if the status is terminal, and it is terminal
   whenever the run was causal for the order.
   */
  lemma {:induction false} NetChargeMatchesStatus(sc: Scenario, acts: seq<Action>, o: OrderId)
    requires Run(sc, INITIAL, acts).Some?
    requires Complete(Run(sc, INITIAL, acts).value) && o in Run(sc, INITIAL, acts).value.db
    ensures var s := Run(sc, INITIAL, acts).value;
      && NetMatches(Charged(s.payments, o) - Refunded(s.refunds, o), s.db[o].totalPrice, s.db[o].status)
      && (CausalFor(sc, acts, o) ==> Terminal(s.db[o].status))
  {
    CompleteIsTerminal(sc, acts, o);
    NetChargeAtEnd(sc, Run(sc, INITIAL, acts).value, o);
  }

  lemma RunSnoc(sc: Scenario, acts: seq<Action>, a: Action)
    requires Run(sc, INITIAL, acts).Some? && Enabled(Run(sc, INITIAL, acts).value, a)
    ensures Run(sc, INITIAL, acts + [a]) == Some(Apply(sc, Run(sc, INITIAL, acts).value, a))
  {
    assert (acts + [a])[..|acts|] == acts;
  }

  /** An order is created, charged and reserved, and both results wait at the order service. */
  lemma BothResultsWait(sc: Scenario, o: OrderId) returns (acts: seq<Action>, s: State)
    requires sc.pays(o) && sc.reserves(o)
    ensures Run(sc, INITIAL, acts) == Some(s)
    ensures s.db == map[o := NewOrder(sc.user(o), sc.total(o))] && s.refunds == []
    ensures s.pool == [ApiTail(o), ToOrder(PaymentCompleted(o, sc.total(o))), ToOrder(InventoryReserved(o))]
  {
    var paid := PaymentCompleted(o, sc.total(o));
    acts := [Create(o)];
    RunSnoc(sc, [], Create(o));
    assert [] + [Create(o)] == [Create(o)];
    s := Apply(sc, INITIAL, Create(o));
    assert s.pool == [ToPayment(OrderCreated(o, sc.user(o), sc.total(o))), ApiTail(o)];
    RunSnoc(sc, acts, Deliver(0));
    acts, s := acts + [Deliver(0)], Apply(sc, s, Deliver(0));
    assert s.pool == [ApiTail(o), ToOrder(paid), ToInventory(paid)];
    RunSnoc(sc, acts, Deliver(2));
    acts, s := acts + [Deliver(2)], Apply(sc, s, Deliver(2));
  }

  /** Handling the stock result, then the request's tail, then the payment result. */
  lemma StockResultFirst(sc: Scenario, acts: seq<Action>, s: State, o: OrderId) returns (t: State)
    requires Run(sc, INITIAL, acts) == Some(s)
    requires s.db == map[o := NewOrder(sc.user(o), sc.total(o))]
    requires s.pool == [ApiTail(o), ToOrder(PaymentCompleted(o, sc.total(o))), ToOrder(InventoryReserved(o))]
    ensures Reachable(sc, t) && Complete(t) && o in t.db && t.db[o].status == INVENTORY_PROCESSING
    ensures t.refunds == s.refunds
  {
    var paid := PaymentCompleted(o, sc.total(o));
    RoutedOne(paid);
    RunSnoc(sc, acts, Deliver(2));
    t := Apply(sc, s, Deliver(2));
    assert t.pool == [ApiTail(o), ToOrder(paid)];
    RunSnoc(sc, acts + [Deliver(2)], Deliver(0));
    t := Apply(sc, t, Deliver(0));
    assert t.pool == [ToOrder(paid)];
    RunSnoc(sc, acts + [Deliver(2)] + [Deliver(0)], Deliver(0));
    t := Apply(sc, t, Deliver(0));
    assert t.pool == [];
  }

  /**
   The causal hypothesis is needed: when the stock result overtakes the request's own status write and the
   payment result at the order service, a paid and reserved order ends in INVENTORY_PROCESSING.
   */
  lemma {:induction false} OvertakingStrandsOrder(sc: Scenario, o: OrderId) returns (s: State)
    requires sc.pays(o) && sc.reserves(o)
    ensures Reachable(sc, s) && Complete(s) && o in s.db
    ensures s.db[o].status == INVENTORY_PROCESSING && !Terminal(s.db[o].status)
    ensures Charged(s.payments, o) == sc.total(o)
  {
    var acts;
    acts, s := BothResultsWait(sc, o);
    s := StockResultFirst(sc, acts, s, o);
    NetChargeDetermined(sc, s, o);
  }
}
