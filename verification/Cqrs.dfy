/** The query service's read model and the order service's write model, as folds of the same events. */
module Cqrs {
  import opened Sequences

  type OrderId = string
  type Time = nat

  datatype Kind = ORDER_CREATED | PAYMENT_COMPLETED | PAYMENT_FAILED | INVENTORY_RESERVED | INVENTORY_FAILED
                | NOTIFICATION_SENT | UNKNOWN

  /** A consumed event; the fields not used by its kind are ignored. */
  datatype Event = Event(kind: Kind, orderId: OrderId, timestamp: Option<Time>, userId: string,
                         totalPrice: int, amount: int, reason: string)

  datatype Status = Created | PaymentCompleted | InventoryReserved | Completed | Cancelled
  datatype PaymentStatus = PaymentPending | Paid | PaymentRefused
  datatype InventoryStatus = InventoryPending | Reserved | OutOfStock

  datatype View = View(userId: string, totalPrice: int, status: Status,
                       payment: PaymentStatus, inventory: InventoryStatus,
                       createdAt: Time, updatedAt: Time,
                       paymentAmount: Option<int>, paymentReason: Option<string>, inventoryReason: Option<string>,
                       events: seq<(Kind, Time)>)

  datatype LogEntry = LogEntry(kind: Kind, orderId: OrderId, topic: string, timestamp: Time, data: Event)

  /** An event as it reaches the query service: its topic, and the clock used when it carries no timestamp. */
  datatype Delivery = Delivery(event: Event, topic: string, now: Time)

  type Model = map<OrderId, View>

  function TimeOf(e: Event, now: Time): Time {
    if e.timestamp.Some? then e.timestamp.value else now
  }

  function Get(m: Model, o: OrderId): Option<View> {
    if o in m then Some(m[o]) else None
  }

  function Touched(v: View, kind: Kind, t: Time): View {
    v.(updatedAt := t, events := v.events + [(kind, t)])
  }

  /** What one event does to the view of its order. */
  function ViewStep(v: Option<View>, e: Event, t: Time): Option<View> {
    if e.kind == ORDER_CREATED then
      Some(View(e.userId, e.totalPrice, Created, PaymentPending, InventoryPending, t, t, None, None, None,
                [(ORDER_CREATED, t)]))
    else if v.None? then None
    else
      var w := Touched(v.value, e.kind, t);
      match e.kind
      case PAYMENT_COMPLETED =>
        Some(w.(payment := Paid, paymentAmount := Some(e.amount),
                status := if w.inventory == Reserved then Completed else PaymentCompleted))
      case PAYMENT_FAILED =>
        Some(w.(payment := PaymentRefused, paymentReason := Some(e.reason), status := Cancelled))
      case INVENTORY_RESERVED =>
        Some(w.(inventory := Reserved, status := if w.payment == Paid then Completed else InventoryReserved))
      case INVENTORY_FAILED =>
        Some(w.(inventory := OutOfStock, inventoryReason := Some(e.reason), status := Cancelled))
      case NOTIFICATION_SENT => Some(w)
      case UNKNOWN => v
      case ORDER_CREATED => v
  }

  /** What one event does to the whole model. */
  function ModelStep(m: Model, e: Event, t: Time): Model {
    if e.orderId == "" then m
    else
      match ViewStep(Get(m, e.orderId), e, t)
      case None => m
      case Some(v) => m[e.orderId := v]
  }

  function Entry(d: Delivery): LogEntry {
    LogEntry(d.event.kind, d.event.orderId, d.topic, TimeOf(d.event, d.now), d.event)
  }

  /** The read model after a sequence of deliveries. */
  function Fold(ds: seq<Delivery>): Model {
    if ds == [] then map[]
    else
      var d := ds[|ds| - 1];
      ModelStep(Fold(ds[..|ds| - 1]), d.event, TimeOf(d.event, d.now))
  }

  function LogOf(ds: seq<Delivery>): seq<LogEntry> {
    seq(|ds|, i requires 0 <= i < |ds| => Entry(ds[i]))
  }

  // ---- locality ----

  /** The log entries of one order: its event timeline. */
  function Timeline(log: seq<LogEntry>, o: OrderId): seq<LogEntry> {
    if log == [] then []
    else Timeline(log[..|log| - 1], o) + (if log[|log| - 1].orderId == o then [log[|log| - 1]] else [])
  }

  /** The view obtained from the timeline of one order alone. */
  function FoldView(timeline: seq<LogEntry>): Option<View> {
    if timeline == [] then None
    else
      var x := timeline[|timeline| - 1];
      ViewStep(FoldView(timeline[..|timeline| - 1]), x.data, x.timestamp)
  }

  lemma TimelineSnoc(log: seq<LogEntry>, x: LogEntry, o: OrderId)
    ensures Timeline(log + [x], o) == Timeline(log, o) + (if x.orderId == o then [x] else [])
  {
    assert (log + [x])[..|log|] == log;
  }

  lemma FoldViewSnoc(timeline: seq<LogEntry>, x: LogEntry)
    ensures FoldView(timeline + [x]) == ViewStep(FoldView(timeline), x.data, x.timestamp)
  {
    assert (timeline + [x])[..|timeline|] == timeline;
  }

  lemma LogOfSnoc(ds: seq<Delivery>)
    requires ds != []
    ensures LogOf(ds) == LogOf(ds[..|ds| - 1]) + [Entry(ds[|ds| - 1])]
  {
  }

  /** The view of an order is the fold of that order's own log entries, whatever happened to other orders. */
  lemma {:induction false} ViewIsLocal(ds: seq<Delivery>, o: OrderId)
    requires o != ""
    ensures Get(Fold(ds), o) == FoldView(Timeline(LogOf(ds), o))
  {
    if ds != [] {
      var front, d := ds[..|ds| - 1], ds[|ds| - 1];
      ViewIsLocal(front, o);
      LogOfSnoc(ds);
      TimelineSnoc(LogOf(front), Entry(d), o);
      if d.event.orderId == o {
        FoldViewSnoc(Timeline(LogOf(front), o), Entry(d));
      } else {
        assert Timeline(LogOf(front), o) + [] == Timeline(LogOf(front), o);
      }
    }
  }

  lemma {:induction false} NoEmptyId(ds: seq<Delivery>)
    ensures "" !in Fold(ds)
  {
    if ds != [] { NoEmptyId(ds[..|ds| - 1]); }
  }

  lemma SameGets(m: Model, m': Model)
    requires forall o :: Get(m, o) == Get(m', o)
    ensures m == m'
  {
    forall o ensures o in m <==> o in m' {
      assert Get(m, o) == Get(m', o);
    }
    forall o | o in m ensures m[o] == m'[o] {
      assert Get(m, o) == Get(m', o);
    }
  }

  /** Two delivery sequences with the same timeline for every order give the same read model. */
  lemma SameTimelinesSameModel(ds: seq<Delivery>, ds': seq<Delivery>)
    requires forall o :: o != "" ==> Timeline(LogOf(ds), o) == Timeline(LogOf(ds'), o)
    ensures Fold(ds) == Fold(ds')
  {
    NoEmptyId(ds);
    NoEmptyId(ds');
    forall o ensures Get(Fold(ds), o) == Get(Fold(ds'), o) {
      if o != "" {
        ViewIsLocal(ds, o);
        ViewIsLocal(ds', o);
      }
    }
    SameGets(Fold(ds), Fold(ds'));
  }

  // ---- replaying the log ----

  /** Feeding the logged data back in, with new clock readings. */
  function Replayed(log: seq<LogEntry>, clock: nat -> Time): seq<Delivery> {
    seq(|log|, i requires 0 <= i < |log| => Delivery(log[i].data, log[i].topic, clock(i)))
  }

  /** A replay with the same events rebuilds the model when every event carries its timestamp. */
  lemma {:induction false} SameEventsSameModel(ds: seq<Delivery>, ds': seq<Delivery>)
    requires |ds| == |ds'|
    requires forall i :: 0 <= i < |ds| ==> ds[i].event == ds'[i].event && ds[i].event.timestamp.Some?
    ensures Fold(ds) == Fold(ds')
  {
    if ds != [] {
      SameEventsSameModel(ds[..|ds| - 1], ds'[..|ds| - 1]);
    }
  }

  lemma {:induction false} ReplayRebuilds(ds: seq<Delivery>, clock: nat -> Time)
    requires forall i :: 0 <= i < |ds| ==> ds[i].event.timestamp.Some?
    ensures Fold(Replayed(LogOf(ds), clock)) == Fold(ds)
  {
    SameEventsSameModel(ds, Replayed(LogOf(ds), clock));
  }

  /** The view without its times. */
  function Timeless(v: View): View {
    v.(createdAt := 0, updatedAt := 0, events := seq(|v.events|, i requires 0 <= i < |v.events| => (v.events[i].0, 0)))
  }

  ghost predicate SameButTimes(m: Model, m': Model) {
    forall o :: (o in m <==> o in m') && (o in m && o in m' ==> Timeless(m[o]) == Timeless(m'[o]))
  }

  lemma ViewStepTimeless(v: View, v': View, e: Event, t: Time, t': Time)
    requires Timeless(v) == Timeless(v')
    ensures ViewStep(Some(v), e, t).Some? && ViewStep(Some(v'), e, t').Some?
    ensures Timeless(ViewStep(Some(v), e, t).value) == Timeless(ViewStep(Some(v'), e, t').value)
  {
    assert |v.events| == |Timeless(v).events| == |v'.events|;
    var w, w' := Touched(v, e.kind, t), Touched(v', e.kind, t');
    assert Timeless(w).events == Timeless(v).events + [(e.kind, 0)];
    assert Timeless(w').events == Timeless(v').events + [(e.kind, 0)];
  }

  lemma StepSameButTimes(m: Model, m': Model, e: Event, t: Time, t': Time)
    requires SameButTimes(m, m')
    ensures SameButTimes(ModelStep(m, e, t), ModelStep(m', e, t'))
  {
    if e.orderId in m && e.orderId in m' {
      ViewStepTimeless(m[e.orderId], m'[e.orderId], e, t, t');
    }
  }

  /** Whatever the clocks, a replay of the same events rebuilds everything but the times. */
  lemma {:induction false} SameEventsSameButTimes(ds: seq<Delivery>, ds': seq<Delivery>)
    requires |ds| == |ds'| && forall i :: 0 <= i < |ds| ==> ds[i].event == ds'[i].event
    ensures SameButTimes(Fold(ds), Fold(ds'))
  {
    if ds != [] {
      var n := |ds| - 1;
      SameEventsSameButTimes(ds[..n], ds'[..n]);
      StepSameButTimes(Fold(ds[..n]), Fold(ds'[..n]), ds[n].event,
                       TimeOf(ds[n].event, ds[n].now), TimeOf(ds[n].event, ds'[n].now));
    }
  }

  lemma ReplayRebuildsButTimes(ds: seq<Delivery>, clock: nat -> Time)
    ensures SameButTimes(Fold(Replayed(LogOf(ds), clock)), Fold(ds))
  {
    SameEventsSameButTimes(Replayed(LogOf(ds), clock), ds);
  }

  // ---- exactly when a replay rebuilds the model ----

  predicate Creates(d: Delivery, o: OrderId) {
    d.event.kind == ORDER_CREATED && d.event.orderId == o
  }

  ghost predicate HasCreation(ds: seq<Delivery>, o: OrderId) {
    exists j :: 0 <= j < |ds| && Creates(ds[j], o)
  }

  /** Event i left its time in the model: a known kind, at or after the latest creation of its order. */
  ghost predicate Visible(ds: seq<Delivery>, i: nat)
    requires i < |ds|
  {
    var e := ds[i].event;
    && e.orderId != "" && e.kind != UNKNOWN
    && HasCreation(ds[..i + 1], e.orderId)
    && forall j :: i < j < |ds| ==> !Creates(ds[j], e.orderId)
  }

  function Clocked(d: Delivery): Time {
    TimeOf(d.event, d.now)
  }

  ghost predicate SameEvents(ds: seq<Delivery>, ds': seq<Delivery>) {
    |ds| == |ds'| && forall i :: 0 <= i < |ds| ==> ds[i].event == ds'[i].event
  }

  /** The two sequences give the visible events of an order the same times. */
  ghost predicate TimesAgree(ds: seq<Delivery>, ds': seq<Delivery>, o: OrderId)
    requires |ds| == |ds'|
  {
    forall i :: 0 <= i < |ds| && Visible(ds, i) && ds[i].event.orderId == o ==> Clocked(ds[i]) == Clocked(ds'[i])
  }

  /** A view's times are those of its first and last events. */
  ghost predicate TimesOk(v: View) {
    v.events != [] && v.createdAt == v.events[0].1 && v.updatedAt == v.events[|v.events| - 1].1
  }

  lemma CreatedNext(ds: seq<Delivery>, o: OrderId)
    requires ds != []
    ensures var n := |ds| - 1; HasCreation(ds, o) <==> HasCreation(ds[..n], o) || Creates(ds[n], o)
  {
    var n := |ds| - 1;
    if HasCreation(ds[..n], o) {
      var j :| 0 <= j < n && Creates(ds[..n][j], o);
      assert Creates(ds[j], o);
    }
    if HasCreation(ds, o) && !Creates(ds[n], o) {
      var j :| 0 <= j < |ds| && Creates(ds[j], o);
      assert Creates(ds[..n][j], o);
    }
  }

  lemma {:induction false} FoldTimes(ds: seq<Delivery>, o: OrderId)
    requires o != ""
    ensures o in Fold(ds) <==> HasCreation(ds, o)
    ensures o in Fold(ds) ==> TimesOk(Fold(ds)[o])
  {
    if ds != [] {
      var n := |ds| - 1;
      FoldTimes(ds[..n], o);
      CreatedNext(ds, o);
    }
  }

  /** A later event hides exactly the events of an order it creates anew. */
  lemma VisibleNext(ds: seq<Delivery>, i: nat)
    requires i < |ds| - 1
    ensures var n := |ds| - 1;
      Visible(ds, i) <==> Visible(ds[..n], i) && !Creates(ds[n], ds[i].event.orderId)
  {
    var n := |ds| - 1;
    assert ds[..n][..i + 1] == ds[..i + 1];
    if Visible(ds[..n], i) && !Creates(ds[n], ds[i].event.orderId) {
      forall j | i < j < |ds| ensures !Creates(ds[j], ds[i].event.orderId) {
        assert j < n ==> !Creates(ds[..n][j], ds[i].event.orderId);
      }
    }
    if Visible(ds, i) {
      forall j | i < j < n ensures !Creates(ds[..n][j], ds[i].event.orderId) {
        assert !Creates(ds[j], ds[i].event.orderId);
      }
    }
  }

  /** Views that differ at most in their times are equal exactly when their events are. */
  lemma SameViewIffEvents(v: View, v': View)
    requires Timeless(v) == Timeless(v') && TimesOk(v) && TimesOk(v')
    ensures v == v' <==> v.events == v'.events
  {
    assert v == Timeless(v).(createdAt := v.createdAt, updatedAt := v.updatedAt, events := v.events);
    assert v' == Timeless(v').(createdAt := v'.createdAt, updatedAt := v'.updatedAt, events := v'.events);
  }

  lemma SameStepIff(v: View, v': View, e: Event, t: Time, t': Time)
    requires Timeless(v) == Timeless(v') && TimesOk(v) && TimesOk(v')
    requires e.kind != UNKNOWN && e.kind != ORDER_CREATED
    ensures ViewStep(Some(v), e, t) == ViewStep(Some(v'), e, t') <==> v == v' && t == t'
  {
    ViewStepTimeless(v, v', e, t, t');
    var w, w' := ViewStep(Some(v), e, t).value, ViewStep(Some(v'), e, t').value;
    SameViewIffEvents(v, v');
    SameViewIffEvents(w, w');
    assert w.events == v.events + [(e.kind, t)] && w'.events == v'.events + [(e.kind, t')];
    if w.events == w'.events {
      assert w.events[|v.events|] == w'.events[|v'.events|];
      assert v.events == w.events[..|v.events|] && v'.events == w'.events[..|v'.events|];
    }
  }

  lemma TimesAgreeSplit(ds: seq<Delivery>, ds': seq<Delivery>, o: OrderId)
    requires ds != [] && |ds| == |ds'|
    requires var n := |ds| - 1;
      forall i :: 0 <= i < n ==> (Visible(ds, i) <==> Visible(ds[..n], i) && !Creates(ds[n], ds[i].event.orderId))
    ensures var n := |ds| - 1;
      TimesAgree(ds, ds', o) <==>
        && (Creates(ds[n], o) || TimesAgree(ds[..n], ds'[..n], o))
        && (Visible(ds, n) && ds[n].event.orderId == o ==> Clocked(ds[n]) == Clocked(ds'[n]))
  {
    var n := |ds| - 1;
    if TimesAgree(ds, ds', o) && !Creates(ds[n], o) {
      forall i | 0 <= i < n && Visible(ds[..n], i) && ds[i].event.orderId == o
        ensures Clocked(ds[i]) == Clocked(ds'[i])
      {
        assert Visible(ds, i);
      }
    }
    if (Creates(ds[n], o) || TimesAgree(ds[..n], ds'[..n], o))
       && (Visible(ds, n) && ds[n].event.orderId == o ==> Clocked(ds[n]) == Clocked(ds'[n]))
    {
      forall i | 0 <= i < |ds| && Visible(ds, i) && ds[i].event.orderId == o
        ensures Clocked(ds[i]) == Clocked(ds'[i])
      {
        assert i < n ==> Visible(ds[..n], i) && ds[..n][i] == ds[i] && ds'[..n][i] == ds'[i];
      }
    }
  }

  /** The times that must agree after one more event. */
  lemma TimesAgreeNext(ds: seq<Delivery>, ds': seq<Delivery>, o: OrderId)
    requires ds != [] && SameEvents(ds, ds') && o != ""
    ensures var n := |ds| - 1; var e := ds[n].event;
      && (e.orderId != o ==> (TimesAgree(ds, ds', o) <==> TimesAgree(ds[..n], ds'[..n], o)))
      && (Creates(ds[n], o) ==> (TimesAgree(ds, ds', o) <==> Clocked(ds[n]) == Clocked(ds'[n])))
      && (e.orderId == o && e.kind != ORDER_CREATED ==>
            (TimesAgree(ds, ds', o) <==>
              TimesAgree(ds[..n], ds'[..n], o)
              && (e.kind != UNKNOWN && HasCreation(ds[..n], o) ==> Clocked(ds[n]) == Clocked(ds'[n]))))
  {
    var n := |ds| - 1;
    assert ds[..n + 1] == ds;
    CreatedNext(ds, o);
    forall i | 0 <= i < n
      ensures Visible(ds, i) <==> Visible(ds[..n], i) && !Creates(ds[n], ds[i].event.orderId)
    {
      VisibleNext(ds, i);
    }
    TimesAgreeSplit(ds, ds', o);
  }

  lemma NextViewIff(m: Model, m': Model, e: Event, t: Time, t': Time, o: OrderId)
    requires SameButTimes(m, m') && o != "" && (o in m ==> TimesOk(m[o])) && (o in m' ==> TimesOk(m'[o]))
    ensures var next := Get(ModelStep(m, e, t), o) == Get(ModelStep(m', e, t'), o);
      && (e.orderId != o ==> (next <==> Get(m, o) == Get(m', o)))
      && (e.orderId == o && e.kind == ORDER_CREATED ==> (next <==> t == t'))
      && (e.orderId == o && e.kind != ORDER_CREATED ==>
            (next <==> Get(m, o) == Get(m', o) && (e.kind != UNKNOWN && o in m ==> t == t')))
  {
    if e.orderId == o && e.kind != ORDER_CREATED && e.kind != UNKNOWN && o in m {
      SameStepIff(m[o], m'[o], e, t, t');
    }
  }

  /** Two sequences of the same events show an order alike exactly when they give its visible events the same times. */
  lemma {:induction false} SameViewIff(ds: seq<Delivery>, ds': seq<Delivery>, o: OrderId)
    requires SameEvents(ds, ds') && o != ""
    ensures Get(Fold(ds), o) == Get(Fold(ds'), o) <==> TimesAgree(ds, ds', o)
  {
    if ds != [] {
      var n := |ds| - 1;
      SameViewIff(ds[..n], ds'[..n], o);
      TimesAgreeNext(ds, ds', o);
      SameEventsSameButTimes(ds[..n], ds'[..n]);
      FoldTimes(ds[..n], o);
      FoldTimes(ds'[..n], o);
      NextViewIff(Fold(ds[..n]), Fold(ds'[..n]), ds[n].event, Clocked(ds[n]), Clocked(ds'[n]), o);
    }
  }

  lemma ReplayTimes(ds: seq<Delivery>, clock: nat -> Time)
    ensures var rs := Replayed(LogOf(ds), clock);
      (forall o :: o != "" ==> TimesAgree(ds, rs, o)) <==>
      forall i :: 0 <= i < |ds| && Visible(ds, i) ==> ds[i].event.timestamp.Some? || clock(i) == ds[i].now
  {
    var rs := Replayed(LogOf(ds), clock);
    forall i | 0 <= i < |ds|
      ensures Clocked(ds[i]) == Clocked(rs[i]) <==> ds[i].event.timestamp.Some? || clock(i) == ds[i].now
    {
    }
    if forall o :: o != "" ==> TimesAgree(ds, rs, o) {
      forall i | 0 <= i < |ds| && Visible(ds, i) ensures Clocked(ds[i]) == Clocked(rs[i]) {
        assert TimesAgree(ds, rs, ds[i].event.orderId);
      }
    }
  }

  /**
   A replay rebuilds the model if and only if every event that left its time in it, that is every event of a known
   kind since the latest creation of its order, carries a timestamp or is replayed at the time it first had.
   */
  lemma {:induction false} ReplayNeedsTimestamps(ds: seq<Delivery>, clock: nat -> Time)
    ensures Fold(Replayed(LogOf(ds), clock)) == Fold(ds) <==>
      forall i :: 0 <= i < |ds| && Visible(ds, i) ==> ds[i].event.timestamp.Some? || clock(i) == ds[i].now
  {
    var rs := Replayed(LogOf(ds), clock);
    forall o | o != "" ensures Get(Fold(ds), o) == Get(Fold(rs), o) <==> TimesAgree(ds, rs, o) {
      SameViewIff(ds, rs, o);
    }
    NoEmptyId(ds);
    NoEmptyId(rs);
    if forall o :: o != "" ==> TimesAgree(ds, rs, o) {
      forall o ensures Get(Fold(rs), o) == Get(Fold(ds), o) {
        assert o != "" ==> TimesAgree(ds, rs, o);
      }
      SameGets(Fold(rs), Fold(ds));
    }
    ReplayTimes(ds, clock);
  }

  // ---- completion ----

  ghost predicate CompletionOk(v: View) {
    v.status == Completed <==> v.payment == Paid && v.inventory == Reserved
  }

  /** The latest payment result on a timeline, since the latest creation. */
  function LatestPayment(timeline: seq<LogEntry>): PaymentStatus {
    if timeline == [] then PaymentPending
    else
      match timeline[|timeline| - 1].data.kind
      case ORDER_CREATED => PaymentPending
      case PAYMENT_COMPLETED => Paid
      case PAYMENT_FAILED => PaymentRefused
      case INVENTORY_RESERVED => LatestPayment(timeline[..|timeline| - 1])
      case INVENTORY_FAILED => LatestPayment(timeline[..|timeline| - 1])
      case NOTIFICATION_SENT => LatestPayment(timeline[..|timeline| - 1])
      case UNKNOWN => LatestPayment(timeline[..|timeline| - 1])
  }

  /** The latest stock result on a timeline, since the latest creation. */
  function LatestInventory(timeline: seq<LogEntry>): InventoryStatus {
    if timeline == [] then InventoryPending
    else
      match timeline[|timeline| - 1].data.kind
      case ORDER_CREATED => InventoryPending
      case INVENTORY_RESERVED => Reserved
      case INVENTORY_FAILED => OutOfStock
      case PAYMENT_COMPLETED => LatestInventory(timeline[..|timeline| - 1])
      case PAYMENT_FAILED => LatestInventory(timeline[..|timeline| - 1])
      case NOTIFICATION_SENT => LatestInventory(timeline[..|timeline| - 1])
      case UNKNOWN => LatestInventory(timeline[..|timeline| - 1])
  }

  lemma {:induction false} TimelineView(timeline: seq<LogEntry>)
    ensures var r := FoldView(timeline);
      r.Some? ==>
        && CompletionOk(r.value)
        && r.value.payment == LatestPayment(timeline) && r.value.inventory == LatestInventory(timeline)
  {
    if timeline != [] { TimelineView(timeline[..|timeline| - 1]); }
  }

  /**
   In every reachable read model, with any duplicates: a view is completed exactly when the latest payment and
   stock results since its creation both succeeded, and those are the results it shows.
   */
  lemma CompletedIff(ds: seq<Delivery>, o: OrderId)
    requires o in Fold(ds)
    ensures var v, timeline := Fold(ds)[o], Timeline(LogOf(ds), o);
      && (v.status == Completed <==> v.payment == Paid && v.inventory == Reserved)
      && (v.status == Completed <==> LatestPayment(timeline) == Paid && LatestInventory(timeline) == Reserved)
  {
    NoEmptyId(ds);
    ViewIsLocal(ds, o);
    TimelineView(Timeline(LogOf(ds), o));
  }

  // ---- what a view shows ----

  /** The latest entry of a kind since the latest creation; for a creation, that creation itself. */
  function LatestEntry(timeline: seq<LogEntry>, kind: Kind): Option<LogEntry> {
    if timeline == [] then None
    else
      var x := timeline[|timeline| - 1];
      if x.data.kind == kind then Some(x)
      else if x.data.kind == ORDER_CREATED then None
      else LatestEntry(timeline[..|timeline| - 1], kind)
  }

  /** The kinds and times of the known entries from the latest creation on. */
  function Trail(timeline: seq<LogEntry>): seq<(Kind, Time)> {
    if timeline == [] then []
    else
      var x := timeline[|timeline| - 1];
      if x.data.kind == ORDER_CREATED then [(ORDER_CREATED, x.timestamp)]
      else Trail(timeline[..|timeline| - 1]) + (if x.data.kind == UNKNOWN then [] else [(x.data.kind, x.timestamp)])
  }

  /** The kind of the latest result since the latest creation. */
  function LatestResult(timeline: seq<LogEntry>): Option<Kind> {
    if timeline == [] then None
    else
      match timeline[|timeline| - 1].data.kind
      case ORDER_CREATED => None
      case PAYMENT_COMPLETED => Some(PAYMENT_COMPLETED)
      case PAYMENT_FAILED => Some(PAYMENT_FAILED)
      case INVENTORY_RESERVED => Some(INVENTORY_RESERVED)
      case INVENTORY_FAILED => Some(INVENTORY_FAILED)
      case NOTIFICATION_SENT => LatestResult(timeline[..|timeline| - 1])
      case UNKNOWN => LatestResult(timeline[..|timeline| - 1])
  }

  /** The fields that events bring along. */
  ghost predicate ShowsFields(v: View, timeline: seq<LogEntry>) {
    var created, paid := LatestEntry(timeline, ORDER_CREATED), LatestEntry(timeline, PAYMENT_COMPLETED);
    var refused, short := LatestEntry(timeline, PAYMENT_FAILED), LatestEntry(timeline, INVENTORY_FAILED);
    && created.Some? && v.userId == created.value.data.userId && v.totalPrice == created.value.data.totalPrice
    && v.createdAt == created.value.timestamp
    && v.paymentAmount == (if paid.Some? then Some(paid.value.data.amount) else None)
    && v.paymentReason == (if refused.Some? then Some(refused.value.data.reason) else None)
    && v.inventoryReason == (if short.Some? then Some(short.value.data.reason) else None)
  }

  /** The events with their times, and the time of the last one. */
  ghost predicate ShowsTrail(v: View, timeline: seq<LogEntry>) {
    v.events == Trail(timeline) && v.events != [] && v.updatedAt == v.events[|v.events| - 1].1
  }

  /** The status, from the latest result and the latest payment and stock results. */
  ghost predicate ShowsStatus(v: View, timeline: seq<LogEntry>) {
    var last := LatestResult(timeline);
    && (last == None ==> v.status == Created)
    && (last == Some(PAYMENT_FAILED) || last == Some(INVENTORY_FAILED) ==> v.status == Cancelled)
    && (last == Some(PAYMENT_COMPLETED) ==>
          v.status == if LatestInventory(timeline) == Reserved then Completed else PaymentCompleted)
    && (last == Some(INVENTORY_RESERVED) ==>
          v.status == if LatestPayment(timeline) == Paid then Completed else InventoryReserved)
  }

  lemma {:induction false} FieldsOf(timeline: seq<LogEntry>)
    ensures FoldView(timeline).Some? ==> ShowsFields(FoldView(timeline).value, timeline)
  {
    if timeline != [] { FieldsOf(timeline[..|timeline| - 1]); }
  }

  lemma {:induction false} TrailOf(timeline: seq<LogEntry>)
    ensures FoldView(timeline).Some? ==> ShowsTrail(FoldView(timeline).value, timeline)
  {
    if timeline != [] { TrailOf(timeline[..|timeline| - 1]); }
  }

  lemma {:induction false} StatusOfTimeline(timeline: seq<LogEntry>)
    ensures FoldView(timeline).Some? ==> ShowsStatus(FoldView(timeline).value, timeline)
  {
    if timeline != [] {
      StatusOfTimeline(timeline[..|timeline| - 1]);
      TimelineView(timeline[..|timeline| - 1]);
    }
  }

  /** In every reachable read model every field of a view can be read off the order's own log entries. */
  lemma {:induction false} ViewShows(ds: seq<Delivery>, o: OrderId)
    requires o in Fold(ds)
    ensures var v, timeline := Fold(ds)[o], Timeline(LogOf(ds), o);
      ShowsFields(v, timeline) && ShowsTrail(v, timeline) && ShowsStatus(v, timeline)
  {
    NoEmptyId(ds);
    ViewIsLocal(ds, o);
    var timeline := Timeline(LogOf(ds), o);
    FieldsOf(timeline);
    TrailOf(timeline);
    StatusOfTimeline(timeline);
  }

  // ---- the write model ----

  /** The order service's copy of an order: its status and the result types it has seen. */
  datatype WriteOrder = WriteOrder(status: Status, events: seq<Kind>)

  const NEW_ORDER := WriteOrder(Created, [])

  function WriteStep(w: WriteOrder, kind: Kind): WriteOrder {
    match kind
    case PAYMENT_COMPLETED => WriteOrder(PaymentCompleted, w.events + [kind])
    case PAYMENT_FAILED => WriteOrder(Cancelled, w.events + [kind])
    case INVENTORY_RESERVED =>
      WriteOrder(if PAYMENT_COMPLETED in w.events then Completed else InventoryReserved, w.events + [kind])
    case INVENTORY_FAILED => WriteOrder(Cancelled, w.events + [kind])
    case ORDER_CREATED => w
    case NOTIFICATION_SENT => w
    case UNKNOWN => w
  }

  type WriteModel = map<OrderId, WriteOrder>

  /** An event for an unknown order is dropped. */
  function WriteModelStep(m: WriteModel, e: Event): WriteModel {
    if e.orderId in m then m[e.orderId := WriteStep(m[e.orderId], e.kind)] else m
  }

  function WriteFold(m: WriteModel, es: seq<Event>): WriteModel {
    if es == [] then m else WriteModelStep(WriteFold(m, es[..|es| - 1]), es[|es| - 1])
  }

  function WriteOrderFold(w: WriteOrder, kinds: seq<Kind>): WriteOrder {
    if kinds == [] then w else WriteStep(WriteOrderFold(w, kinds[..|kinds| - 1]), kinds[|kinds| - 1])
  }

  /** The kinds of the events of one order, in order. */
  function KindsOf(es: seq<Event>, o: OrderId): seq<Kind> {
    if es == [] then []
    else KindsOf(es[..|es| - 1], o) + (if es[|es| - 1].orderId == o then [es[|es| - 1].kind] else [])
  }

  /** The write model of an order also depends on its own events only. */
  lemma {:induction false} WriteIsLocal(m: WriteModel, es: seq<Event>, o: OrderId)
    requires o in m
    ensures WriteFold(m, es).Keys == m.Keys
    ensures o in WriteFold(m, es) && WriteFold(m, es)[o] == WriteOrderFold(m[o], KindsOf(es, o))
  {
    if es != [] {
      var front, e := es[..|es| - 1], es[|es| - 1];
      WriteIsLocal(m, front, o);
      if e.orderId == o {
        assert (KindsOf(front, o) + [e.kind])[..|KindsOf(front, o)|] == KindsOf(front, o);
      } else {
        assert KindsOf(es, o) == KindsOf(front, o);
      }
    }
  }

  // ---- agreement of the two models ----

  predicate IsPaymentResult(k: Kind) {
    k == PAYMENT_COMPLETED || k == PAYMENT_FAILED
  }

  predicate IsStockResult(k: Kind) {
    k == INVENTORY_RESERVED || k == INVENTORY_FAILED
  }

  predicate IsResult(k: Kind) {
    IsPaymentResult(k) || IsStockResult(k)
  }

  /** The results among the kinds of one order's events. */
  function Results(kinds: seq<Kind>): seq<Kind> {
    if kinds == [] then []
    else
      var k := kinds[|kinds| - 1];
      if IsResult(k) then Results(kinds[..|kinds| - 1]) + [k] else Results(kinds[..|kinds| - 1])
  }

  /** What the read model keeps of the results: status, payment and stock. */
  datatype Summary = Summary(status: Status, payment: PaymentStatus, inventory: InventoryStatus)

  function Summarize(v: View): Summary {
    Summary(v.status, v.payment, v.inventory)
  }

  function ReadStep(s: Summary, k: Kind): Summary {
    match k
    case PAYMENT_COMPLETED =>
      s.(payment := Paid, status := if s.inventory == Reserved then Completed else PaymentCompleted)
    case PAYMENT_FAILED => s.(payment := PaymentRefused, status := Cancelled)
    case INVENTORY_RESERVED =>
      s.(inventory := Reserved, status := if s.payment == Paid then Completed else InventoryReserved)
    case INVENTORY_FAILED => s.(inventory := OutOfStock, status := Cancelled)
    case ORDER_CREATED => s
    case NOTIFICATION_SENT => s
    case UNKNOWN => s
  }

  function ReadFold(results: seq<Kind>): Summary {
    if results == [] then Summary(Created, PaymentPending, InventoryPending)
    else ReadStep(ReadFold(results[..|results| - 1]), results[|results| - 1])
  }

  function EntryKinds(timeline: seq<LogEntry>): seq<Kind> {
    seq(|timeline|, i requires 0 <= i < |timeline| => timeline[i].data.kind)
  }

  /** A timeline that is one creation followed by other events. */
  ghost predicate CreatedOnceFirst(timeline: seq<LogEntry>) {
    && timeline != [] && timeline[0].data.kind == ORDER_CREATED
    && forall i :: 1 <= i < |timeline| ==> timeline[i].data.kind != ORDER_CREATED
  }

  /** The kinds of the entries after the latest creation; none when the order was never created. */
  function Since(timeline: seq<LogEntry>): Option<seq<Kind>> {
    if timeline == [] then None
    else
      var kind := timeline[|timeline| - 1].data.kind;
      if kind == ORDER_CREATED then Some([])
      else
        match Since(timeline[..|timeline| - 1])
        case None => None
        case Some(kinds) => Some(kinds + [kind])
  }

  lemma ResultsSnoc(kinds: seq<Kind>, k: Kind)
    ensures Results(kinds + [k]) == if IsResult(k) then Results(kinds) + [k] else Results(kinds)
  {
    assert (kinds + [k])[..|kinds|] == kinds;
  }

  lemma ReadFoldSnoc(results: seq<Kind>, k: Kind)
    ensures ReadFold(results + [k]) == ReadStep(ReadFold(results), k)
  {
    assert (results + [k])[..|results|] == results;
  }

  lemma StepSummary(v: Option<View>, e: Event, t: Time)
    ensures e.kind == ORDER_CREATED ==> ViewStep(v, e, t).Some? && Summarize(ViewStep(v, e, t).value) == ReadFold([])
    ensures e.kind != ORDER_CREATED && v.None? ==> ViewStep(v, e, t) == None
    ensures e.kind != ORDER_CREATED && v.Some? ==>
      ViewStep(v, e, t).Some? && Summarize(ViewStep(v, e, t).value) == ReadStep(Summarize(v.value), e.kind)
  {
  }

  lemma ResultsFoldSnoc(kinds: seq<Kind>, k: Kind)
    requires k != ORDER_CREATED
    ensures ReadFold(Results(kinds + [k])) == ReadStep(ReadFold(Results(kinds)), k)
  {
    ResultsSnoc(kinds, k);
    ReadFoldSnoc(Results(kinds), k);
  }

  lemma SinceSnoc(timeline: seq<LogEntry>, x: LogEntry)
    ensures x.data.kind == ORDER_CREATED ==> Since(timeline + [x]) == Some([])
    ensures x.data.kind != ORDER_CREATED ==>
      (Since(timeline + [x]).Some? <==> Since(timeline).Some?)
      && (Since(timeline).Some? ==> Since(timeline + [x]) == Some(Since(timeline).value + [x.data.kind]))
  {
    assert (timeline + [x])[..|timeline|] == timeline;
  }

  /** A view exists once the order was created, and summarizes the results since then. */
  ghost predicate ShowsSince(v: Option<View>, since: Option<seq<Kind>>) {
    && (v.Some? <==> since.Some?)
    && (v.Some? && since.Some? ==> Summarize(v.value) == ReadFold(Results(since.value)))
  }

  lemma {:induction false} ViewSince(timeline: seq<LogEntry>)
    ensures ShowsSince(FoldView(timeline), Since(timeline))
  {
    if timeline != [] {
      var front, x := timeline[..|timeline| - 1], timeline[|timeline| - 1];
      ViewSince(front);
      assert timeline == front + [x];
      SinceSnoc(front, x);
      FoldViewSnoc(front, x);
      StepSummary(FoldView(front), x.data, x.timestamp);
      if Since(front).Some? && x.data.kind != ORDER_CREATED {
        ResultsFoldSnoc(Since(front).value, x.data.kind);
      }
    }
  }

  ghost predicate Suffix(r: seq<Kind>, w: seq<Kind>) {
    |r| <= |w| && r == w[|w| - |r|..]
  }

  lemma SuffixSnoc(r: seq<Kind>, w: seq<Kind>, k: Kind)
    requires Suffix(r, w)
    ensures Suffix(r + [k], w + [k])
  {
  }

  lemma EntryKindsSnoc(timeline: seq<LogEntry>, x: LogEntry)
    ensures EntryKinds(timeline + [x]) == EntryKinds(timeline) + [x.data.kind]
  {
  }

  /** What one more entry that is not a creation does to the results since the creation and to all of them. */
  lemma SinceNext(front: seq<LogEntry>, x: LogEntry)
    requires Since(front).Some? && x.data.kind != ORDER_CREATED
    ensures var k := x.data.kind;
      && Since(front + [x]).Some?
      && Results(Since(front + [x]).value) == Results(Since(front).value) + (if IsResult(k) then [k] else [])
      && Results(EntryKinds(front + [x])) == Results(EntryKinds(front)) + (if IsResult(k) then [k] else [])
  {
    SinceSnoc(front, x);
    EntryKindsSnoc(front, x);
    ResultsSnoc(Since(front).value, x.data.kind);
    ResultsSnoc(EntryKinds(front), x.data.kind);
  }

  /** The results since the latest creation end the results of the whole timeline. */
  lemma {:induction false} SinceIsSuffix(timeline: seq<LogEntry>)
    requires Since(timeline).Some?
    ensures Suffix(Results(Since(timeline).value), Results(EntryKinds(timeline)))
  {
    var front, x := timeline[..|timeline| - 1], timeline[|timeline| - 1];
    assert timeline == front + [x];
    SinceSnoc(front, x);
    if x.data.kind != ORDER_CREATED {
      SinceIsSuffix(front);
      SinceNext(front, x);
      SuffixSnoc(Results(Since(front).value), Results(EntryKinds(front)), x.data.kind);
    }
  }

  lemma CreationAlone(x: LogEntry)
    requires x.data.kind == ORDER_CREATED
    ensures Since([x]) == Some([]) && Results([]) == Results(EntryKinds([x]))
  {
    assert [] + [x] == [x];
    SinceSnoc([], x);
    EntryKindsSnoc([], x);
    ResultsSnoc([], x.data.kind);
    assert EntryKinds([]) == [];
  }

  lemma CreatedFront(front: seq<LogEntry>, x: LogEntry)
    requires CreatedOnceFirst(front + [x]) && front != []
    ensures CreatedOnceFirst(front) && x.data.kind != ORDER_CREATED
  {
    assert (front + [x])[|front|] == x;
    assert forall i :: 0 <= i < |front| ==> (front + [x])[i] == front[i];
  }

  /** With one creation in front, no result came before it. */
  lemma {:induction false} CreationFirst(timeline: seq<LogEntry>)
    requires CreatedOnceFirst(timeline)
    ensures Since(timeline).Some? && Results(Since(timeline).value) == Results(EntryKinds(timeline))
  {
    var front, x := timeline[..|timeline| - 1], timeline[|timeline| - 1];
    assert timeline == front + [x];
    if front == [] {
      assert timeline == [x];
      CreationAlone(x);
    } else {
      CreatedFront(front, x);
      CreationFirst(front);
      SinceNext(front, x);
    }
  }

  lemma {:induction false} WriteIgnoresOthers(kinds: seq<Kind>)
    ensures WriteOrderFold(NEW_ORDER, kinds) == WriteOrderFold(NEW_ORDER, Results(kinds))
  {
    if kinds != [] {
      var n := |kinds| - 1;
      WriteIgnoresOthers(kinds[..n]);
      if IsResult(kinds[n]) {
        assert (Results(kinds[..n]) + [kinds[n]])[..|Results(kinds[..n])|] == Results(kinds[..n]);
      }
    }
  }

  lemma WriteStepRecords(w: WriteOrder, k: Kind)
    requires IsResult(k)
    ensures WriteStep(w, k).events == w.events + [k]
  {
  }

  /** The write model records every result it folds. */
  lemma {:induction false} WriteEvents(results: seq<Kind>)
    requires forall i :: 0 <= i < |results| ==> IsResult(results[i])
    ensures WriteOrderFold(NEW_ORDER, results).events == results
  {
    if results != [] {
      var n := |results| - 1;
      WriteEvents(results[..n]);
      WriteStepRecords(WriteOrderFold(NEW_ORDER, results[..n]), results[n]);
      assert results == results[..n] + [results[n]];
    }
  }

  /** The latest payment result of a sequence, and the latest stock result. */
  function LastPayment(results: seq<Kind>): Option<Kind> {
    if results == [] then None
    else if IsPaymentResult(results[|results| - 1]) then Some(results[|results| - 1])
    else LastPayment(results[..|results| - 1])
  }

  function LastStock(results: seq<Kind>): Option<Kind> {
    if results == [] then None
    else if IsStockResult(results[|results| - 1]) then Some(results[|results| - 1])
    else LastStock(results[..|results| - 1])
  }

  lemma {:induction false} ReadFoldShowsLatest(results: seq<Kind>)
    ensures ReadFold(results).payment == Paid <==> LastPayment(results) == Some(PAYMENT_COMPLETED)
    ensures ReadFold(results).inventory == Reserved <==> LastStock(results) == Some(INVENTORY_RESERVED)
  {
    if results != [] { ReadFoldShowsLatest(results[..|results| - 1]); }
  }

  /**
   When the two services agree on an order, by all its results and those since its latest creation at the query
   service: before any result, always; else only when some result came after the creation, and then, after a payment
   completion, unless the latest stock result before it is a reservation; after a reservation, exactly when an earlier
   completed payment is also the latest payment result since the creation; after any other last result, always.
   */
  predicate Agreeing(all: seq<Kind>, since: seq<Kind>) {
    all == [] ||
    (since != [] &&
      var last, before := since[|since| - 1], since[..|since| - 1];
      && (last == PAYMENT_COMPLETED ==> LastStock(before) != Some(INVENTORY_RESERVED))
      && (last == INVENTORY_RESERVED ==>
            (PAYMENT_COMPLETED in all[..|all| - 1] <==> LastPayment(before) == Some(PAYMENT_COMPLETED))))
  }

  lemma FoldsAgreeIff(all: seq<Kind>, since: seq<Kind>)
    requires (forall i :: 0 <= i < |all| ==> IsResult(all[i])) && Suffix(since, all)
    ensures WriteOrderFold(NEW_ORDER, all).status == ReadFold(since).status <==> Agreeing(all, since)
  {
    if all != [] {
      WriteEvents(all[..|all| - 1]);
      if since != [] {
        assert since[|since| - 1] == all[|all| - 1];
        ReadFoldShowsLatest(since[..|since| - 1]);
      }
    }
  }

  lemma {:induction false} ResultsAreResults(kinds: seq<Kind>)
    ensures forall i :: 0 <= i < |Results(kinds)| ==> IsResult(Results(kinds)[i])
  {
    if kinds != [] { ResultsAreResults(kinds[..|kinds| - 1]); }
  }

  /** The results of order o that the query service has consumed since the order's latest creation there. */
  function ResultsSince(ds: seq<Delivery>, o: OrderId): seq<Kind>
  {
    match Since(Timeline(LogOf(ds), o))
    case None => []
    case Some(kinds) => Results(kinds)
  }

  /** The two services have consumed the same results of order o, in the same order. */
  ghost predicate SameResults(ds: seq<Delivery>, es: seq<Event>, o: OrderId) {
    Results(KindsOf(es, o)) == Results(EntryKinds(Timeline(LogOf(ds), o)))
  }

  /** Both services' statuses of an order are folds of its results: of all of them, and of those since its creation. */
  lemma BothModels(ds: seq<Delivery>, m: WriteModel, es: seq<Event>, o: OrderId)
    requires o != "" && o in m && m[o] == NEW_ORDER && HasCreation(ds, o) && SameResults(ds, es, o)
    ensures o in Fold(ds) && Summarize(Fold(ds)[o]) == ReadFold(ResultsSince(ds, o))
    ensures o in WriteFold(m, es) && WriteFold(m, es)[o] == WriteOrderFold(NEW_ORDER, Results(KindsOf(es, o)))
    ensures Suffix(ResultsSince(ds, o), Results(KindsOf(es, o)))
  {
    FoldTimes(ds, o);
    ViewIsLocal(ds, o);
    ViewSince(Timeline(LogOf(ds), o));
    SinceIsSuffix(Timeline(LogOf(ds), o));
    WriteIsLocal(m, es, o);
    WriteIgnoresOthers(KindsOf(es, o));
  }

  /**
   For an order that was created at both services and any results consumed in the same order by both, the two hold
   the same status if and only if the results are agreeing, wherever creations lie between the results at the query
   service and however other orders' events lie between them in the two.
   */
  lemma {:induction false} StatusesAgreeIff(ds: seq<Delivery>, m: WriteModel, es: seq<Event>, o: OrderId)
    requires o != "" && o in m && m[o] == NEW_ORDER && HasCreation(ds, o) && SameResults(ds, es, o)
    ensures o in Fold(ds) && o in WriteFold(m, es)
    ensures Fold(ds)[o].status == WriteFold(m, es)[o].status <==>
      Agreeing(Results(KindsOf(es, o)), ResultsSince(ds, o))
  {
    BothModels(ds, m, es, o);
    ResultsAreResults(KindsOf(es, o));
    FoldsAgreeIff(Results(KindsOf(es, o)), ResultsSince(ds, o));
  }

  /** At most one payment result and one stock result, the payment result first. */
  predicate PaymentFirstOnce(results: seq<Kind>) {
    || results == []
    || (|results| == 1 && IsPaymentResult(results[0]))
    || (|results| == 2 && IsPaymentResult(results[0]) && IsStockResult(results[1]))
  }

  lemma LastOfOne(k: Kind)
    ensures LastPayment([k]) == if IsPaymentResult(k) then Some(k) else None
    ensures LastStock([k]) == if IsStockResult(k) then Some(k) else None
  {
    assert [k][..0] == [];
  }

  lemma AgreeingAfterOne(all: seq<Kind>, k: Kind)
    requires all != []
    ensures Agreeing(all, [k]) <==> (k == INVENTORY_RESERVED ==> PAYMENT_COMPLETED !in all[..|all| - 1])
  {
    assert [k][..0] == [];
  }

  lemma AgreeingAfterTwo(p: Kind, k: Kind)
    requires IsPaymentResult(p) && IsStockResult(k)
    ensures Agreeing([p, k], [p, k])
  {
    assert [p, k][..1] == [p];
    LastOfOne(p);
  }

  lemma PaymentFirstAgrees(all: seq<Kind>, since: seq<Kind>)
    requires PaymentFirstOnce(all) && Suffix(since, all)
    ensures Agreeing(all, since) <==>
      since == all || (since != [] && all != [PAYMENT_COMPLETED, INVENTORY_RESERVED])
  {
    if |since| == 2 {
      assert since == all == [all[0], all[1]];
      AgreeingAfterTwo(all[0], all[1]);
    } else if |since| == 1 {
      assert since == [all[|all| - 1]];
      AgreeingAfterOne(all, all[|all| - 1]);
      assert |all| == 2 ==> all == [all[0], all[1]] && all[..1] == [all[0]];
    }
  }

  lemma SinceCreationFirst(ds: seq<Delivery>, es: seq<Event>, o: OrderId)
    requires CreatedOnceFirst(Timeline(LogOf(ds), o)) && SameResults(ds, es, o)
    ensures ResultsSince(ds, o) == Results(KindsOf(es, o))
  {
    CreationFirst(Timeline(LogOf(ds), o));
  }

  /**
   Payment first and at most one of each: the two services hold the same status if and only if no result reached
   the query service before the creation, or only the payment result did and payment and reservation did not both
   succeed.  In particular they do when the creation came first, however the orders interleave in the two.
   */
  lemma {:induction false} ModelsAgree(ds: seq<Delivery>, m: WriteModel, es: seq<Event>, o: OrderId)
    requires o != "" && o in m && m[o] == NEW_ORDER && HasCreation(ds, o) && SameResults(ds, es, o)
    requires PaymentFirstOnce(Results(KindsOf(es, o)))
    ensures o in Fold(ds) && o in WriteFold(m, es)
    ensures var all, since := Results(KindsOf(es, o)), ResultsSince(ds, o);
      WriteFold(m, es)[o].status == Fold(ds)[o].status <==>
        since == all || (since != [] && all != [PAYMENT_COMPLETED, INVENTORY_RESERVED])
    ensures CreatedOnceFirst(Timeline(LogOf(ds), o)) ==> WriteFold(m, es)[o].status == Fold(ds)[o].status
  {
    StatusesAgreeIff(ds, m, es, o);
    BothModels(ds, m, es, o);
    PaymentFirstAgrees(Results(KindsOf(es, o)), ResultsSince(ds, o));
    if CreatedOnceFirst(Timeline(LogOf(ds), o)) {
      SinceCreationFirst(ds, es, o);
    }
  }

  predicate AtMostOneOfEach(results: seq<Kind>) {
    |results| <= 1 || (|results| == 2 && IsPaymentResult(results[0]) != IsPaymentResult(results[1]))
  }

  /**
   When the write model completes an order, the read model does too exactly when the completed payment is
   still the latest payment result.
   */
  lemma {:induction false} WriteCompletedIff(results: seq<Kind>)
    requires forall i :: 0 <= i < |results| ==> IsResult(results[i])
    ensures WriteOrderFold(NEW_ORDER, results).status == Completed <==>
      results != [] && results[|results| - 1] == INVENTORY_RESERVED && PAYMENT_COMPLETED in results[..|results| - 1]
    ensures WriteOrderFold(NEW_ORDER, results).status == Completed ==>
      (ReadFold(results).status == Completed <==> ReadFold(results).payment == Paid)
  {
    if results != [] { WriteEvents(results[..|results| - 1]); }
  }

  lemma ReadFoldOne(k: Kind)
    ensures ReadFold([k]) == ReadStep(ReadFold([]), k)
  {
    assert [k][..0] == [];
  }

  lemma ReadFoldTwo(j: Kind, k: Kind)
    ensures ReadFold([j, k]) == ReadStep(ReadStep(ReadFold([]), j), k)
  {
    assert [j, k][..1] == [j];
    ReadFoldOne(j);
  }

  lemma OnePairOnly(all: seq<Kind>, since: seq<Kind>)
    requires all == [PAYMENT_COMPLETED, INVENTORY_RESERVED] && Suffix(since, all)
    ensures ReadFold(since).status == Completed <==> since == all
  {
    if |since| == 2 {
      assert since == [PAYMENT_COMPLETED, INVENTORY_RESERVED];
      ReadFoldTwo(PAYMENT_COMPLETED, INVENTORY_RESERVED);
    } else if |since| == 1 {
      assert since == [INVENTORY_RESERVED];
      ReadFoldOne(INVENTORY_RESERVED);
    }
  }

  lemma TheOnePair(all: seq<Kind>)
    requires AtMostOneOfEach(all) && all != [] && all[|all| - 1] == INVENTORY_RESERVED
    requires PAYMENT_COMPLETED in all[..|all| - 1]
    ensures all == [PAYMENT_COMPLETED, INVENTORY_RESERVED]
  {
    assert |all| == 2 ==> all == [all[0], all[1]] && all[..1] == [all[0]];
  }

  /**
   With at most one payment result and one stock result, in either arrival order, an order that the write model has
   completed is completed in the read model if and only if neither reached the query service before the creation.
   */
  lemma {:induction false} WriteCompletedImpliesRead(ds: seq<Delivery>, m: WriteModel, es: seq<Event>, o: OrderId)
    requires o != "" && o in m && m[o] == NEW_ORDER && HasCreation(ds, o) && SameResults(ds, es, o)
    requires AtMostOneOfEach(Results(KindsOf(es, o)))
    ensures o in Fold(ds) && o in WriteFold(m, es)
    ensures WriteFold(m, es)[o].status == Completed ==>
      (Fold(ds)[o].status == Completed <==> ResultsSince(ds, o) == Results(KindsOf(es, o)))
    ensures CreatedOnceFirst(Timeline(LogOf(ds), o)) && WriteFold(m, es)[o].status == Completed ==>
      Fold(ds)[o].status == Completed
  {
    BothModels(ds, m, es, o);
    var all := Results(KindsOf(es, o));
    ResultsAreResults(KindsOf(es, o));
    WriteCompletedIff(all);
    if WriteFold(m, es)[o].status == Completed {
      TheOnePair(all);
      OnePairOnly(all, ResultsSince(ds, o));
    }
    if CreatedOnceFirst(Timeline(LogOf(ds), o)) {
      SinceCreationFirst(ds, es, o);
    }
  }

  lemma ReservationFirst(all: seq<Kind>, since: seq<Kind>)
    requires AtMostOneOfEach(all) && all != [] && all[0] == INVENTORY_RESERVED && Suffix(since, all)
    requires forall i :: 0 <= i < |all| ==> IsResult(all[i])
    ensures PAYMENT_COMPLETED in all[..|all| - 1] ==> all[|all| - 1] != INVENTORY_RESERVED
    ensures ReadFold(since).status == Completed <==> since == [INVENTORY_RESERVED, PAYMENT_COMPLETED]
  {
    if |since| == 2 {
      assert since == [INVENTORY_RESERVED, all[1]];
      ReadFoldTwo(INVENTORY_RESERVED, all[1]);
    } else if |since| == 1 {
      assert since == [since[0]];
      ReadFoldOne(since[0]);
    }
  }

  /**
   With at most one result of each, an order whose reservation arrives first is never completed by the write model;
   the read model completes it when the payment does, if the creation came first.
   */
  lemma {:induction false} ReservationFirstNeverCompletes(ds: seq<Delivery>, m: WriteModel, es: seq<Event>, o: OrderId)
    requires o != "" && o in m && m[o] == NEW_ORDER && HasCreation(ds, o) && SameResults(ds, es, o)
    requires var all := Results(KindsOf(es, o));
      AtMostOneOfEach(all) && all != [] && all[0] == INVENTORY_RESERVED
    ensures o in WriteFold(m, es) && WriteFold(m, es)[o].status != Completed
    ensures var all, since := Results(KindsOf(es, o)), ResultsSince(ds, o);
      o in Fold(ds) &&
      (Fold(ds)[o].status == Completed <==> since == [INVENTORY_RESERVED, PAYMENT_COMPLETED])
  {
    BothModels(ds, m, es, o);
    var all, since := Results(KindsOf(es, o)), ResultsSince(ds, o);
    ResultsAreResults(KindsOf(es, o));
    WriteCompletedIff(all);
    ReservationFirst(all, since);
  }

  lemma PaidAndReserved(ds: seq<Delivery>, m: WriteModel, es: seq<Event>, o: OrderId)
    requires o != "" && o in m && m[o] == NEW_ORDER && HasCreation(ds, o) && SameResults(ds, es, o)
    requires Results(KindsOf(es, o)) == [PAYMENT_COMPLETED, INVENTORY_RESERVED]
    requires ResultsSince(ds, o) == [INVENTORY_RESERVED]
    ensures o in WriteFold(m, es) && WriteFold(m, es)[o].status == Completed
    ensures o in Fold(ds) && Fold(ds)[o].status == InventoryReserved
  {
    BothModels(ds, m, es, o);
    var all := [PAYMENT_COMPLETED, INVENTORY_RESERVED];
    WriteCompletedIff(all);
    assert all[..1] == [PAYMENT_COMPLETED];
    ReadFoldOne(INVENTORY_RESERVED);
  }

  /** One more delivery of the only order there is. */
  lemma OwnDelivery(ds: seq<Delivery>, d: Delivery, log: seq<LogEntry>, o: OrderId)
    requires LogOf(ds) == log && Timeline(log, o) == log && d.event.orderId == o
    ensures LogOf(ds + [d]) == log + [Entry(d)] && Timeline(log + [Entry(d)], o) == log + [Entry(d)]
  {
    LogOfSnoc(ds + [d]);
    assert (ds + [d])[..|ds|] == ds;
    TimelineSnoc(log, Entry(d), o);
  }

  lemma ThreeEntries(a: Delivery, b: Delivery, c: Delivery, o: OrderId)
    requires a.event.orderId == o && b.event.orderId == o && c.event.orderId == o
    ensures Timeline(LogOf([a, b, c]), o) == [Entry(a), Entry(b), Entry(c)]
  {
    assert LogOf([]) == [];
    OwnDelivery([], a, [], o);
    assert [] + [a] == [a] && [] + [Entry(a)] == [Entry(a)];
    OwnDelivery([a], b, [Entry(a)], o);
    assert [a] + [b] == [a, b] && [Entry(a)] + [Entry(b)] == [Entry(a), Entry(b)];
    OwnDelivery([a, b], c, [Entry(a), Entry(b)], o);
    assert [a, b] + [c] == [a, b, c] && [Entry(a), Entry(b)] + [Entry(c)] == [Entry(a), Entry(b), Entry(c)];
  }

  lemma KindsOfTwo(e: Event, f: Event, o: OrderId)
    requires e.orderId == o && f.orderId == o
    ensures KindsOf([e, f], o) == [e.kind, f.kind]
  {
    assert [e, f][..1] == [e] && [e][..0] == [];
    assert KindsOf([e], o) == [e.kind];
  }

  lemma ResultsOfTwo(j: Kind, k: Kind)
    requires IsResult(j) && IsResult(k)
    ensures Results([j, k]) == [j, k] && Results([j]) == [j]
  {
    assert [j, k][..1] == [j] && [j][..0] == [];
    assert Results([j]) == [j];
  }

  /** The second of three entries is the latest creation. */
  lemma SinceSecond(x: LogEntry, y: LogEntry, z: LogEntry)
    requires y.data.kind == ORDER_CREATED && z.data.kind != ORDER_CREATED
    ensures Since([x, y, z]) == Some([z.data.kind])
  {
    assert [x] + [y] == [x, y] && [x, y] + [z] == [x, y, z];
    SinceSnoc([x], y);
    SinceSnoc([x, y], z);
    assert [] + [z.data.kind] == [z.data.kind];
  }

  lemma ResultsOfThree(i: Kind, j: Kind, k: Kind)
    requires IsResult(i) && !IsResult(j) && IsResult(k)
    ensures Results([i, j, k]) == [i, k]
  {
    assert [i] + [j] == [i, j] && [i, j] + [k] == [i, j, k] && [i] + [k] == [i, k];
    ResultsOfTwo(i, k);
    ResultsSnoc([i], j);
    ResultsSnoc([i, j], k);
  }

  /**
   Nothing orders the topics: a payment that reaches the query service before the creation is dropped there, and the
   order ends completed in the write model and only reserved in the read model.
   */
  lemma {:induction false} PaymentBeforeCreationIsLost(m: WriteModel, o: OrderId, pay: Delivery, create: Delivery,
                                                       reserve: Delivery)
    requires o != "" && o in m && m[o] == NEW_ORDER
    requires pay.event.orderId == o && create.event.orderId == o && reserve.event.orderId == o
    requires pay.event.kind == PAYMENT_COMPLETED && create.event.kind == ORDER_CREATED
    requires reserve.event.kind == INVENTORY_RESERVED
    ensures var ds, es := [pay, create, reserve], [pay.event, reserve.event];
      && SameResults(ds, es, o) && PaymentFirstOnce(Results(KindsOf(es, o)))
      && o in WriteFold(m, es) && WriteFold(m, es)[o].status == Completed
      && o in Fold(ds) && Fold(ds)[o].status == InventoryReserved
  {
    var ds, es := [pay, create, reserve], [pay.event, reserve.event];
    ThreeEntries(pay, create, reserve, o);
    var log := [Entry(pay), Entry(create), Entry(reserve)];
    SinceSecond(log[0], log[1], log[2]);
    ResultsOfThree(PAYMENT_COMPLETED, ORDER_CREATED, INVENTORY_RESERVED);
    assert EntryKinds(log) == [PAYMENT_COMPLETED, ORDER_CREATED, INVENTORY_RESERVED];
    KindsOfTwo(pay.event, reserve.event, o);
    ResultsOfTwo(PAYMENT_COMPLETED, INVENTORY_RESERVED);
    ResultsOfTwo(INVENTORY_RESERVED, PAYMENT_COMPLETED);
    assert Creates(ds[1], o);
    PaidAndReserved(ds, m, es, o);
  }
}
