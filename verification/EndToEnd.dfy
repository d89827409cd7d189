/**
 The whole pipeline: create_order, the relays, the broker and the deduplicating consumers in one run.
 */
module EndToEnd {
  import opened Sequences
  import O = Outbox
  import opened Broker
  import R = RelayInvariants
  import C = OrderContents
  import I = Inbox

  datatype State = System(outbox: O.State, inbox: I.State)

  datatype Action = Produce(o: O.Action) | Consume(i: I.Action)

  function Init(relays: nat, consumers: nat): State {
    System(O.Init(relays), I.Init(consumers))
  }

  predicate Enabled(part: O.OrderId -> nat, s: State, a: Action) {
    match a
    case Produce(o) => O.Enabled(s.outbox, o)
    case Consume(i) => I.Enabled(s.outbox.log, part, s.inbox, i)
  }

  function Apply(batchSize: nat, part: O.OrderId -> nat, s: State, a: Action): State
    requires Enabled(part, s, a)
  {
    match a
    case Produce(o) => s.(outbox := O.Apply(batchSize, s.outbox, o))
    case Consume(i) => s.(inbox := I.Apply(s.outbox.log, part, s.inbox, i))
  }

  function Run(batchSize: nat, part: O.OrderId -> nat, s: State, acts: seq<Action>): Option<State>
    decreases |acts|
  {
    if acts == [] then Some(s)
    else
      match Run(batchSize, part, s, acts[..|acts| - 1])
      case None => None
      case Some(t) =>
        var a := acts[|acts| - 1];
        if Enabled(part, t, a) then Some(Apply(batchSize, part, t, a)) else None
  }

  /** The states some run of the given numbers of relays and consumers leads to. */
  ghost predicate Reachable(batchSize: nat, part: O.OrderId -> nat, s: State) {
    exists relays: nat, consumers: nat, acts ::
      Run(batchSize, part, Init(relays, consumers), acts) == Some(s)
  }

  ghost predicate Inv(part: O.OrderId -> nat, s: State) {
    && R.Inv(s.outbox) && (forall e :: R.Conserved(s.outbox, e))
    && I.Inv(s.outbox.log, part, s.inbox) && I.MarksCounted(s.inbox)
    && (forall e :: I.MarkConserved(s.inbox, e))
  }

  lemma ProduceKeeps(b: nat, part: O.OrderId -> nat, s: State, a: O.Action)
    requires Inv(part, s) && O.Enabled(s.outbox, a)
    ensures Inv(part, Apply(b, part, s, Produce(a)))
  {
    var out' := O.Apply(b, s.outbox, a);
    R.StepKeepsInv(b, s.outbox, a);
    forall e ensures R.Conserved(out', e) { R.StepConserves(b, s.outbox, a, e); }
    I.LogGrowthKeeps(s.outbox.log, out'.log, part, s.inbox);
  }

  lemma MarksStep(log: seq<O.Message>, part: O.OrderId -> nat, s: I.State, a: I.Action)
    requires I.Inv(log, part, s) && I.Enabled(log, part, s, a)
    requires I.MarksCounted(s) && forall e :: I.MarkConserved(s, e)
    ensures I.MarksCounted(I.Apply(log, part, s, a))
    ensures forall e :: I.MarkConserved(I.Apply(log, part, s, a), e)
  {
    assert I.MarkConserved(s, 0);
    I.StepConservesMark(log, part, s, a, 0);
    forall e ensures I.MarkConserved(I.Apply(log, part, s, a), e) {
      I.StepConservesMark(log, part, s, a, e);
    }
  }

  lemma ConsumeKeeps(b: nat, part: O.OrderId -> nat, s: State, a: I.Action)
    requires Inv(part, s) && I.Enabled(s.outbox.log, part, s.inbox, a)
    ensures Inv(part, Apply(b, part, s, Consume(a)))
  {
    I.StepKeepsInv(s.outbox.log, part, s.inbox, a);
    MarksStep(s.outbox.log, part, s.inbox, a);
  }

  lemma IdleWindows(xs: seq<I.Consumer>, e: O.EventId)
    requires forall c :: 0 <= c < |xs| ==> xs[c].work.Polling?
    ensures I.InWindow(xs, e) == 0 && I.Windows(xs) == 0
  {
    SumZero(I.WindowCount(e), xs);
    SumZero(I.WindowSize(), xs);
  }

  lemma {:induction false} RunInvariant(b: nat, part: O.OrderId -> nat, relays: nat, consumers: nat, acts: seq<Action>)
    requires Run(b, part, Init(relays, consumers), acts).Some?
    ensures Inv(part, Run(b, part, Init(relays, consumers), acts).value)
  {
    var s0 := Init(relays, consumers);
    if acts == [] {
      R.RunInvariant(b, relays, []);
      assert O.Run(b, O.Init(relays), []) == Some(s0.outbox);
      forall e ensures I.MarkConserved(s0.inbox, e) { IdleWindows(s0.inbox.consumers, e); }
      IdleWindows(s0.inbox.consumers, 0);
    } else {
      var front, a := acts[..|acts| - 1], acts[|acts| - 1];
      RunInvariant(b, part, relays, consumers, front);
      var t := Run(b, part, s0, front).value;
      match a
      case Produce(o) => ProduceKeeps(b, part, t, o);
      case Consume(i) => ConsumeKeeps(b, part, t, i);
    }
  }

  lemma ReachableInv(b: nat, part: O.OrderId -> nat, s: State)
    requires Reachable(b, part, s)
    ensures Inv(part, s)
  {
    var relays: nat, consumers: nat, acts :| Run(b, part, Init(relays, consumers), acts) == Some(s);
    RunInvariant(b, part, relays, consumers, acts);
  }

  /**
   The inbox in every run with crashes, redeliveries and competing consumers: at most one effect per event, at
   most one missing effect per crash or open window, and no committed offset beyond an unmarked record.
   */
  lemma InboxSafety(b: nat, part: O.OrderId -> nat, s: State, p: nat, k: nat)
    requires Reachable(b, part, s)
    ensures forall e :: Copies(s.inbox.effects, e) <= (if e in s.inbox.processed then 1 else 0)
    ensures |s.inbox.processed| - |s.inbox.effects| <= s.inbox.crashes + I.Windows(s.inbox.consumers)
    ensures k < I.CommittedAt(s.inbox.committed, p) ==>
      var pl := PartitionLog(s.outbox.log, part, p);
      k < |pl| && (pl[k].eventId.Some? ==> pl[k].eventId.value in s.inbox.processed)
  {
    ReachableInv(b, part, s);
    forall e ensures Copies(s.inbox.effects, e) <= (if e in s.inbox.processed then 1 else 0) {
      assert I.MarkConserved(s.inbox, e);
    }
  }

  // ---- exactly once ----

  /** How often the effect for order o has run. */
  ghost function EffectsFor(effects: seq<O.Message>, o: O.OrderId): nat {
    if effects == [] then 0
    else EffectsFor(effects[..|effects| - 1], o) + (if effects[|effects| - 1].key == o then 1 else 0)
  }

  /** Every row is published and every partition's committed offset has reached the end of its log. */
  ghost predicate Drained(part: O.OrderId -> nat, s: State) {
    && (forall id :: id in s.outbox.outbox ==> s.outbox.outbox[id].published)
    && (forall p :: I.CommittedAt(s.inbox.committed, p) == |PartitionLog(s.outbox.log, part, p)|)
  }

  lemma MessageOfOrder(s: State, m: O.Message, id: O.RowId)
    requires R.Inv(s.outbox) && R.FromRow(s.outbox.outbox, m) && id in s.outbox.outbox
    ensures m.key == s.outbox.outbox[id].row.aggregateId <==> m.eventId == Some(s.outbox.outbox[id].row.eventId)
  {
    var i :| i in s.outbox.outbox && m == O.MessageOf(s.outbox.outbox[i].row);
  }

  lemma {:induction false} EffectsOfOrder(s: State, effects: seq<O.Message>, id: O.RowId)
    requires R.Inv(s.outbox) && id in s.outbox.outbox
    requires forall m :: m in effects ==> R.FromRow(s.outbox.outbox, m)
    ensures EffectsFor(effects, s.outbox.outbox[id].row.aggregateId)
         == Copies(effects, s.outbox.outbox[id].row.eventId)
  {
    if effects != [] {
      EffectsOfOrder(s, effects[..|effects| - 1], id);
      MessageOfOrder(s, effects[|effects| - 1], id);
    }
  }

  lemma EffectsFromRows(part: O.OrderId -> nat, s: State)
    requires Inv(part, s)
    ensures forall m :: m in s.inbox.effects ==> R.FromRow(s.outbox.outbox, m)
  {
    forall m | m in s.inbox.effects ensures R.FromRow(s.outbox.outbox, m) {
      assert m in s.outbox.log;
    }
  }

  /** A published event whose partition is fully committed has been marked. */
  lemma PublishedIsMarked(part: O.OrderId -> nat, s: State, id: O.RowId)
    requires Inv(part, s) && Drained(part, s) && id in s.outbox.outbox
    ensures s.outbox.outbox[id].row.eventId in s.inbox.processed
  {
    var e := s.outbox.outbox[id].row.eventId;
    assert R.Conserved(s.outbox, e);
    assert R.IsPublished(s.outbox.outbox, e);
    CopiesPositive(s.outbox.log, e);
    var m :| m in s.outbox.log && m.eventId == Some(e);
    var p := part(m.key);
    var pl := PartitionLog(s.outbox.log, part, p);
    SelectedMembers(s.outbox.log, InPartition(part, p), m);
    var k :| 0 <= k < |pl| && pl[k] == m;
    assert k < I.CommittedAt(s.inbox.committed, p);
    assert I.DoneUpTo(pl, s.inbox.processed, s.inbox.committed[p]);
  }

  lemma RowOfOrder(s: State, o: O.OrderId) returns (id: O.RowId)
    requires R.Inv(s.outbox) && o in s.outbox.orders
    ensures id in s.outbox.outbox && s.outbox.outbox[id].row.aggregateId == o
  {
    assert R.HasRow(s.outbox.outbox, o);
    id :| id in s.outbox.outbox && s.outbox.outbox[id].row.aggregateId == o;
  }

  /**
   Once everything is published and committed, the effect of a committed order has run exactly once, unless a
   crash lost it after the mark or a process is still between mark and effect; those are the only exceptions.
   */
  lemma OrderEffectExactlyOnce(b: nat, part: O.OrderId -> nat, s: State, o: O.OrderId)
    returns (id: O.RowId)
    requires Reachable(b, part, s) && Drained(part, s) && o in s.outbox.orders
    ensures id in s.outbox.outbox && s.outbox.outbox[id].row.aggregateId == o
    ensures var e := s.outbox.outbox[id].row.eventId;
      && EffectsFor(s.inbox.effects, o) <= 1
      && (EffectsFor(s.inbox.effects, o) == 1 <==> e !in s.inbox.lost && I.InWindow(s.inbox.consumers, e) == 0)
  {
    ReachableInv(b, part, s);
    id := RowOfOrder(s, o);
    var e := s.outbox.outbox[id].row.eventId;
    PublishedIsMarked(part, s, id);
    EffectsFromRows(part, s);
    EffectsOfOrder(s, s.inbox.effects, id);
    CountPositive(s.inbox.lost, e);
    assert I.MarkConserved(s.inbox, e);
  }

  lemma {:induction false} NoWindows(xs: seq<I.Consumer>, e: O.EventId)
    requires I.Windows(xs) == 0
    ensures I.InWindow(xs, e) == 0
  {
    if xs != [] {
      NoWindows(xs[..|xs| - 1], e);
    }
  }

  /**
   Exactly once, whatever relay rollbacks, duplicate sends and redeliveries occurred, when no consumer crashed
   between mark and effect and none stands there; and no effect belongs to anything but a committed order,
   with the order's own data.
   */
  lemma ExactlyOnce(b: nat, part: O.OrderId -> nat, s: State)
    requires Reachable(b, part, s) && Drained(part, s)
    requires s.inbox.lost == [] && I.Windows(s.inbox.consumers) == 0
    ensures forall o :: o in s.outbox.orders ==> EffectsFor(s.inbox.effects, o) == 1
    ensures forall m :: m in s.inbox.effects ==>
      && m.key in s.outbox.orders
      && m.value.items == s.outbox.orders[m.key].items
      && m.value.userId == s.outbox.orders[m.key].userId
      && m.value.totalPrice == SumOf(C.LinePrices(m.value.items))
  {
    ReachableInv(b, part, s);
    forall o | o in s.outbox.orders ensures EffectsFor(s.inbox.effects, o) == 1 {
      var id := OrderEffectExactlyOnce(b, part, s, o);
      NoWindows(s.inbox.consumers, s.outbox.outbox[id].row.eventId);
    }
    EffectsFromRows(part, s);
    forall m | m in s.inbox.effects
      ensures m.key in s.outbox.orders && m.value.items == s.outbox.orders[m.key].items
      ensures m.value.userId == s.outbox.orders[m.key].userId
      ensures m.value.totalPrice == SumOf(C.LinePrices(m.value.items))
    {
      assert R.FromRow(s.outbox.outbox, m);
      var id :| id in s.outbox.outbox && m == O.MessageOf(s.outbox.outbox[id].row);
      assert R.RowOk(s.outbox.orders, id, s.outbox.outbox[id].row);
      C.TotalIsLines(m.value.items);
    }
  }
}
