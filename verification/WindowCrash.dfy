/** The exception to exactly-once is reachable: a run with one crash between mark and effect, and one without. */
module WindowCrash {
  import opened Sequences
  import O = Outbox
  import opened Broker
  import I = Inbox
  import opened EndToEnd
  import P = RelayOrdering
  import X = RelayReordering

  lemma RunSnoc(b: nat, part: O.OrderId -> nat, s: State, acts: seq<Action>, a: Action)
    requires Run(b, part, s, acts).Some? && Enabled(part, Run(b, part, s, acts).value, a)
    ensures Run(b, part, s, acts + [a]) == Some(Apply(b, part, Run(b, part, s, acts).value, a))
  {
    assert (acts + [a])[..|acts|] == acts;
  }

  /** A run of the outbox is a run of the system. */
  lemma {:induction false} ProduceRun(b: nat, part: O.OrderId -> nat, s: State, os: seq<O.Action>)
    returns (acts: seq<Action>)
    requires O.Run(b, s.outbox, os).Some?
    ensures Run(b, part, s, acts) == Some(s.(outbox := O.Run(b, s.outbox, os).value))
  {
    acts := [];
    if os != [] {
      var n := |os| - 1;
      acts := ProduceRun(b, part, s, os[..n]);
      RunSnoc(b, part, s, acts, Produce(os[n]));
      acts := acts + [Produce(os[n])];
    }
  }

  /** A run of the consumers goes on where a run of the system stopped. */
  lemma {:induction false} ConsumeRun(b: nat, part: O.OrderId -> nat, s: State, front: seq<Action>, cs: seq<I.Action>)
    returns (acts: seq<Action>)
    requires Run(b, part, s, front).Some?
    requires var t := Run(b, part, s, front).value; I.Run(t.outbox.log, part, t.inbox, cs).Some?
    ensures var t := Run(b, part, s, front).value;
      Run(b, part, s, acts) == Some(t.(inbox := I.Run(t.outbox.log, part, t.inbox, cs).value))
    decreases |cs|
  {
    acts := front;
    if cs != [] {
      var n := |cs| - 1;
      acts := ConsumeRun(b, part, s, front, cs[..n]);
      RunSnoc(b, part, s, acts, Consume(cs[n]));
      acts := acts + [Consume(cs[n])];
    }
  }

  lemma OneMarked(row: O.Row)
    requires row.id == 0
    ensures O.MarkPublished(map[0 := O.OutRow(row, false)], [row]) == map[0 := O.OutRow(row, true)]
    ensures P.Messages([row]) == [O.MessageOf(row)]
  {
    assert row in [row];
  }

  /** One order is committed and its event published by one successful tick. */
  lemma OnePublished(b: nat, o: O.OrderId, user: string, items: seq<O.Item>, e: O.EventId)
    returns (os: seq<O.Action>, row: O.Row)
    requires b >= 1
    ensures row == O.RowFor(0, e, o, O.NewOrder(user, items)) && O.Run(b, O.Init(1), os).Some?
    ensures var t := O.Run(b, O.Init(1), os).value;
      && t.orders.Keys == {o} && t.outbox == map[0 := O.OutRow(row, true)] && t.log == [O.MessageOf(row)]
  {
    os, row := X.OneCommitted(b, 1, o, e, user, items);
    var t := O.Run(b, O.Init(1), os).value;
    X.SelectOnly(t, 0, b);
    P.SuccessfulTickRuns(b, t, 0);
    X.RunConcat(b, O.Init(1), os, P.SuccessfulTick(b, t, 0));
    os := os + P.SuccessfulTick(b, t, 0);
    OneMarked(row);
  }

  lemma OneRecord(part: O.OrderId -> nat, m: O.Message, p: nat)
    ensures PartitionLog([m], part, p) == if part(m.key) == p then [m] else []
  {
    var keep := InPartition(part, p);
    assert [m][..0] == [] && Selected([], keep) == [];
    assert keep(m.key) <==> part(m.key) == p;
    assert [] + [m] == [m];
  }

  /** One consumer and its store, with the event's id marked or not. */
  function Store1(marked: set<O.EventId>, committed: map<nat, nat>, x: I.Consumer, lost: seq<O.EventId>,
                  crashes: nat): I.State
  {
    I.Store(marked, [], committed, [x], lost, crashes)
  }

  /** From a fresh process without a commit: assignment, fetch and handling of the one record. */
  lemma FetchOne(part: O.OrderId -> nat, m: O.Message, front: seq<I.Action>, marked: set<O.EventId>,
                 lost: seq<O.EventId>, crashes: nat)
    returns (cs: seq<I.Action>)
    requires I.Run([m], part, I.Init(1), front)
          == Some(Store1(marked, map[], I.Consumer(map[], I.Polling), lost, crashes))
    ensures var p := part(m.key);
      var s := Store1(marked, map[], I.Consumer(map[p := 0], I.Handling(p, 1, 0, None)), lost, crashes);
      && I.Run([m], part, I.Init(1), cs) == Some(I.HandleNext(s, 0, m))
  {
    var p := part(m.key);
    OneRecord(part, m, p);
    var s0 := Store1(marked, map[], I.Consumer(map[], I.Polling), lost, crashes);
    I.RunSnoc([m], part, I.Init(1), front, I.Assign(0, p));
    cs := front + [I.Assign(0, p)];
    var s1 := Store1(marked, map[], I.Consumer(map[p := 0], I.Polling), lost, crashes);
    assert I.Apply([m], part, s0, I.Assign(0, p)) == s1 by {
      assert s0.consumers[0 := s1.consumers[0]] == s1.consumers;
    }
    I.RunSnoc([m], part, I.Init(1), cs, I.Fetch(0, p, 1));
    cs := cs + [I.Fetch(0, p, 1)];
    var s2 := Store1(marked, map[], I.Consumer(map[p := 0], I.Handling(p, 1, 0, None)), lost, crashes);
    assert I.Apply([m], part, s1, I.Fetch(0, p, 1)) == s2 by {
      assert s1.consumers[0 := s2.consumers[0]] == s2.consumers;
    }
    I.RunSnoc([m], part, I.Init(1), cs, I.Handle(0));
    cs := cs + [I.Handle(0)];
  }

  /** A new consumer marks the event; its effect is next. */
  lemma MarkOne(part: O.OrderId -> nat, m: O.Message) returns (cs: seq<I.Action>)
    requires m.eventId.Some?
    ensures var p := part(m.key);
      I.Run([m], part, I.Init(1), cs)
        == Some(Store1({m.eventId.value}, map[], I.Consumer(map[p := 0], I.Handling(p, 1, 0, Some(m))), [], 0))
  {
    var p := part(m.key);
    assert I.Init(1).consumers == [I.Consumer(map[], I.Polling)];
    cs := FetchOne(part, m, [], {}, [], 0);
    var x := I.Consumer(map[p := 0], I.Handling(p, 1, 0, None));
    assert [x][0 := x.(work := x.work.(window := Some(m)))] == [x.(work := x.work.(window := Some(m)))];
    assert {} + {m.eventId.value} == {m.eventId.value};
  }

  lemma CommitOne(part: O.OrderId -> nat, m: O.Message, front: seq<I.Action>, s: I.State) returns (cs: seq<I.Action>)
    requires I.Run([m], part, I.Init(1), front) == Some(s) && s.committed == map[]
    requires var p := part(m.key); s.consumers == [I.Consumer(map[p := 0], I.Handling(p, 1, 1, None))]
    ensures var p := part(m.key);
      I.Run([m], part, I.Init(1), cs)
        == Some(s.(committed := map[p := 1], consumers := [I.Consumer(map[p := 1], I.Polling)]))
  {
    var p := part(m.key);
    I.RunSnoc([m], part, I.Init(1), front, I.CommitOffset(0));
    cs := front + [I.CommitOffset(0)];
    assert s.consumers[0 := I.Consumer(map[p := 1], I.Polling)] == [I.Consumer(map[p := 1], I.Polling)];
    assert map[p := 0][p := 1] == map[p := 1];
  }

  /** It crashes before the effect, is restarted, skips the redelivered record and commits its offset. */
  lemma CrashAndSkip(part: O.OrderId -> nat, m: O.Message, front: seq<I.Action>) returns (cs: seq<I.Action>)
    requires m.eventId.Some?
    requires var p := part(m.key);
      I.Run([m], part, I.Init(1), front)
        == Some(Store1({m.eventId.value}, map[], I.Consumer(map[p := 0], I.Handling(p, 1, 0, Some(m))), [], 0))
    ensures var p := part(m.key);
      I.Run([m], part, I.Init(1), cs)
        == Some(Store1({m.eventId.value}, map[p := 1], I.Consumer(map[p := 1], I.Polling), [m.eventId.value], 1))
  {
    var p, e := part(m.key), m.eventId.value;
    var x := I.Consumer(map[p := 0], I.Handling(p, 1, 0, Some(m)));
    I.RunSnoc([m], part, I.Init(1), front, I.Crash(0));
    assert [x][0 := I.Consumer(map[], I.Polling)] == [I.Consumer(map[], I.Polling)];
    assert [] + [e] == [e];
    cs := FetchOne(part, m, front + [I.Crash(0)], {e}, [e], 1);
    var y := I.Consumer(map[p := 0], I.Handling(p, 1, 0, None));
    assert [y][0 := y.(work := y.work.(cur := 1))] == [y.(work := y.work.(cur := 1))];
    cs := CommitOne(part, m, cs, Store1({e}, map[], y.(work := y.work.(cur := 1)), [e], 1));
  }

  /** It runs the effect and commits. */
  lemma EffectAndCommit(part: O.OrderId -> nat, m: O.Message, front: seq<I.Action>) returns (cs: seq<I.Action>)
    requires m.eventId.Some?
    requires var p := part(m.key);
      I.Run([m], part, I.Init(1), front)
        == Some(Store1({m.eventId.value}, map[], I.Consumer(map[p := 0], I.Handling(p, 1, 0, Some(m))), [], 0))
    ensures var p := part(m.key);
      I.Run([m], part, I.Init(1), cs)
        == Some(I.Store({m.eventId.value}, [m], map[p := 1], [I.Consumer(map[p := 1], I.Polling)], [], 0))
  {
    var p, e := part(m.key), m.eventId.value;
    var x := I.Consumer(map[p := 0], I.Handling(p, 1, 0, Some(m)));
    var y := I.Consumer(map[p := 0], I.Handling(p, 1, 1, None));
    I.RunSnoc([m], part, I.Init(1), front, I.Effect(0));
    assert [x][0 := y] == [y] && [] + [m] == [m];
    cs := CommitOne(part, m, front + [I.Effect(0)], I.Store({e}, [m], map[], [y], [], 0));
  }

  /** What a witness run ends with: one order, everything published and committed, no open window. */
  ghost predicate DrainedWith(part: O.OrderId -> nat, s: State, o: O.OrderId) {
    Drained(part, s) && s.outbox.orders.Keys == {o} && I.Windows(s.inbox.consumers) == 0
  }

  lemma OneDrained(part: O.OrderId -> nat, s: State, o: O.OrderId, row: O.Row)
    requires s.outbox.orders.Keys == {o} && s.outbox.outbox == map[0 := O.OutRow(row, true)]
    requires s.outbox.log == [O.MessageOf(row)] && s.inbox.committed == map[part(row.aggregateId) := 1]
    requires forall c :: 0 <= c < |s.inbox.consumers| ==> s.inbox.consumers[c].work.Polling?
    ensures DrainedWith(part, s, o)
  {
    IdleWindows(s.inbox.consumers, 0);
    forall p ensures I.CommittedAt(s.inbox.committed, p) == |PartitionLog(s.outbox.log, part, p)| {
      OneRecord(part, O.MessageOf(row), p);
    }
  }

  /**
   A crash between mark and effect loses the effect for good: for every batch size, partitioning and order some run
   ends with everything published and committed, and the order without its effect.
   */
  lemma {:induction false} WindowCrashLosesEffect(b: nat, part: O.OrderId -> nat, o: O.OrderId, user: string,
                                                  items: seq<O.Item>, e: O.EventId)
    returns (acts: seq<Action>, s: State)
    requires b >= 1
    ensures Run(b, part, Init(1, 1), acts) == Some(s) && DrainedWith(part, s, o)
    ensures EffectsFor(s.inbox.effects, o) == 0 && s.inbox.lost == [e] && s.inbox.crashes == 1
  {
    var os, row := OnePublished(b, o, user, items, e);
    var front := ProduceRun(b, part, Init(1, 1), os);
    var m := O.MessageOf(row);
    var cs := MarkOne(part, m);
    cs := CrashAndSkip(part, m, cs);
    acts := ConsumeRun(b, part, Init(1, 1), front, cs);
    s := Run(b, part, Init(1, 1), acts).value;
    OneDrained(part, s, o, row);
  }

  /** Without the crash the same order gets its effect. */
  lemma {:induction false} CrashFreeDelivers(b: nat, part: O.OrderId -> nat, o: O.OrderId, user: string,
                                             items: seq<O.Item>, e: O.EventId)
    returns (acts: seq<Action>, s: State)
    requires b >= 1
    ensures Run(b, part, Init(1, 1), acts) == Some(s) && DrainedWith(part, s, o)
    ensures EffectsFor(s.inbox.effects, o) == 1 && s.inbox.lost == []
  {
    var os, row := OnePublished(b, o, user, items, e);
    var front := ProduceRun(b, part, Init(1, 1), os);
    var m := O.MessageOf(row);
    var cs := MarkOne(part, m);
    cs := EffectAndCommit(part, m, cs);
    acts := ConsumeRun(b, part, Init(1, 1), front, cs);
    s := Run(b, part, Init(1, 1), acts).value;
    OneDrained(part, s, o, row);
    assert s.inbox.effects == [m] && [m][..0] == [];
  }
}
