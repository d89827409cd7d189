/** One consumer process: the loop over fetched batches with its dedup insert, effect and offset commit. */
module InboxConsumer {
  import opened Sequences
  import opened Outbox
  import opened Broker
  import I = Inbox

  /** The marks after handling msgs in order. */
  function Marked(processed: set<EventId>, msgs: seq<Message>): set<EventId> {
    if msgs == [] then processed
    else
      var m := msgs[|msgs| - 1];
      Marked(processed, msgs[..|msgs| - 1]) + (if m.eventId.Some? then {m.eventId.value} else {})
  }

  /** The records whose event id was not marked when their turn came, in order. */
  function Fresh(processed: set<EventId>, msgs: seq<Message>): seq<Message> {
    if msgs == [] then []
    else
      var front, m := msgs[..|msgs| - 1], msgs[|msgs| - 1];
      if m.eventId.Some? && m.eventId.value !in Marked(processed, front) then Fresh(processed, front) + [m]
      else Fresh(processed, front)
  }

  lemma {:induction false} MarkedMembers(processed: set<EventId>, msgs: seq<Message>, e: EventId)
    ensures e in Marked(processed, msgs) <==> e in processed || Copies(msgs, e) > 0
  {
    if msgs != [] { MarkedMembers(processed, msgs[..|msgs| - 1], e); }
  }

  /** The effect of an event runs once if the batch carries it and it was not marked before, else not at all. */
  lemma {:induction false} FreshOncePerEvent(processed: set<EventId>, msgs: seq<Message>, e: EventId)
    ensures Copies(Fresh(processed, msgs), e) == if e !in processed && Copies(msgs, e) > 0 then 1 else 0
  {
    if msgs != [] {
      var front, m := msgs[..|msgs| - 1], msgs[|msgs| - 1];
      FreshOncePerEvent(processed, front, e);
      CopiesSnoc(Fresh(processed, front), m, e);
      MarkedMembers(processed, front, e);
    }
  }

  /** Every record in pl[from..end] that carries an event id is marked. */
  ghost predicate RangeMarked(pl: seq<Message>, from: nat, end: nat, processed: set<EventId>) {
    from <= end <= |pl| && forall k :: from <= k < end && pl[k].eventId.Some? ==> pl[k].eventId.value in processed
  }

  lemma {:induction false} MarkedCovers(processed: set<EventId>, msgs: seq<Message>)
    ensures processed <= Marked(processed, msgs) && RangeMarked(msgs, 0, |msgs|, Marked(processed, msgs))
  {
    if msgs != [] { MarkedCovers(processed, msgs[..|msgs| - 1]); }
  }

  lemma SliceMarked(pl: seq<Message>, from: nat, end: nat, processed: set<EventId>)
    requires from <= end <= |pl|
    ensures processed <= Marked(processed, pl[from..end])
    ensures RangeMarked(pl, from, end, Marked(processed, pl[from..end]))
  {
    var msgs := pl[from..end];
    MarkedCovers(processed, msgs);
    forall k | from <= k < end && pl[k].eventId.Some? ensures pl[k].eventId.value in Marked(processed, msgs) {
      assert msgs[k - from] == pl[k];
    }
  }

  ghost predicate Fetched(log: seq<Message>, part: OrderId -> nat, position: map<nat, nat>, p: nat, end: nat) {
    p in position && position[p] < end <= |PartitionLog(log, part, p)|
  }

  /** The state after a batch: every event of it marked, the effects of the new ones run, the offset committed. */
  ghost function AfterBatch(log: seq<Message>, part: OrderId -> nat, s: I.State, p: nat, end: nat): I.State
    requires |s.consumers| == 1 && Fetched(log, part, s.consumers[0].position, p, end)
  {
    var position := s.consumers[0].position;
    var msgs := PartitionLog(log, part, p)[position[p]..end];
    s.(processed := Marked(s.processed, msgs), effects := s.effects + Fresh(s.processed, msgs),
       committed := s.committed[p := end], consumers := [I.Consumer(position[p := end], I.Polling)])
  }

  /** The fetched records of one poll, partition by partition. */
  ghost function Records(log: seq<Message>, part: OrderId -> nat, position: map<nat, nat>,
                         batch: seq<(nat, nat)>): seq<Message>
    requires forall k :: 0 <= k < |batch| ==> Fetched(log, part, position, batch[k].0, batch[k].1)
  {
    if batch == [] then []
    else
      var (p, end) := batch[|batch| - 1];
      assert Fetched(log, part, position, batch[|batch| - 1].0, batch[|batch| - 1].1);
      Records(log, part, position, batch[..|batch| - 1]) + PartitionLog(log, part, p)[position[p]..end]
  }

  function OffsetsAfter(offsets: map<nat, nat>, batch: seq<(nat, nat)>): map<nat, nat> {
    if batch == [] then offsets
    else OffsetsAfter(offsets, batch[..|batch| - 1])[batch[|batch| - 1].0 := batch[|batch| - 1].1]
  }

  /** Different partitions, each with records fetched from the process's position on. */
  ghost predicate PollOk(log: seq<Message>, part: OrderId -> nat, position: map<nat, nat>, batch: seq<(nat, nat)>) {
    && (forall k :: 0 <= k < |batch| ==> Fetched(log, part, position, batch[k].0, batch[k].1))
    && (forall j, k :: 0 <= j < k < |batch| ==> batch[j].0 != batch[k].0)
  }

  /** The state after a poll: its events marked, the effects of the new ones run in order, its offsets committed. */
  ghost function AfterPoll(log: seq<Message>, part: OrderId -> nat, s: I.State, batch: seq<(nat, nat)>): I.State
    requires |s.consumers| == 1 && PollOk(log, part, s.consumers[0].position, batch)
  {
    var position := s.consumers[0].position;
    var msgs := Records(log, part, position, batch);
    s.(processed := Marked(s.processed, msgs), effects := s.effects + Fresh(s.processed, msgs),
       committed := OffsetsAfter(s.committed, batch),
       consumers := [I.Consumer(OffsetsAfter(position, batch), I.Polling)])
  }

  lemma {:induction false} OffsetsKept(offsets: map<nat, nat>, batch: seq<(nat, nat)>, p: nat)
    requires forall k :: 0 <= k < |batch| ==> batch[k].0 != p
    ensures p in OffsetsAfter(offsets, batch) <==> p in offsets
    ensures p in offsets ==> OffsetsAfter(offsets, batch)[p] == offsets[p]
  {
    if batch != [] { OffsetsKept(offsets, batch[..|batch| - 1], p); }
  }

  lemma {:induction false} MarkedConcat(processed: set<EventId>, a: seq<Message>, b: seq<Message>)
    ensures Marked(processed, a + b) == Marked(Marked(processed, a), b)
    ensures Fresh(processed, a + b) == Fresh(processed, a) + Fresh(Marked(processed, a), b)
  {
    if b == [] {
      assert a + b == a;
    } else {
      var n := |b| - 1;
      MarkedConcat(processed, a, b[..n]);
      assert (a + b)[..|a| + n] == a + b[..n];
    }
  }

  /** One more partition after a poll of the others. */
  lemma PollNext(log: seq<Message>, part: OrderId -> nat, s: I.State, batch: seq<(nat, nat)>)
    requires |s.consumers| == 1 && batch != [] && PollOk(log, part, s.consumers[0].position, batch)
    ensures var n := |batch| - 1;
      && PollOk(log, part, s.consumers[0].position, batch[..n])
      && Fetched(log, part, AfterPoll(log, part, s, batch[..n]).consumers[0].position, batch[n].0, batch[n].1)
      && AfterPoll(log, part, s, batch)
         == AfterBatch(log, part, AfterPoll(log, part, s, batch[..n]), batch[n].0, batch[n].1)
  {
    var n, position := |batch| - 1, s.consumers[0].position;
    var (p, end) := batch[n];
    OffsetsKept(position, batch[..n], p);
    var front, last := Records(log, part, position, batch[..n]), PartitionLog(log, part, p)[position[p]..end];
    MarkedConcat(s.processed, front, last);
    assert s.effects + Fresh(s.processed, front + last)
        == s.effects + Fresh(s.processed, front) + Fresh(Marked(s.processed, front), last);
  }

  /** The offset of the fetched partition is committed, and its fetched records are all marked. */
  ghost predicate Done(log: seq<Message>, part: OrderId -> nat, position: map<nat, nat>, fetch: (nat, nat),
                       processed: set<EventId>, committed: map<nat, nat>) {
    && fetch.0 in committed && committed[fetch.0] == fetch.1
    && fetch.0 in position && RangeMarked(PartitionLog(log, part, fetch.0), position[fetch.0], fetch.1, processed)
  }

  ghost predicate AllDone(log: seq<Message>, part: OrderId -> nat, position: map<nat, nat>, fetches: seq<(nat, nat)>,
                          processed: set<EventId>, committed: map<nat, nat>) {
    forall k :: 0 <= k < |fetches| ==> Done(log, part, position, fetches[k], processed, committed)
  }

  /** More marks and another partition's commit leave a finished partition finished. */
  lemma DoneStays(log: seq<Message>, part: OrderId -> nat, position: map<nat, nat>, fetch: (nat, nat),
                  processed: set<EventId>, processed': set<EventId>, committed: map<nat, nat>, p: nat, end: nat)
    requires Done(log, part, position, fetch, processed, committed) && processed <= processed' && p != fetch.0
    ensures Done(log, part, position, fetch, processed', committed[p := end])
  {
  }

  lemma AllDoneStay(log: seq<Message>, part: OrderId -> nat, position: map<nat, nat>, batch: seq<(nat, nat)>, i: nat,
                    processed: set<EventId>, processed': set<EventId>, committed: map<nat, nat>)
    requires i < |batch| && processed <= processed' && forall k :: 0 <= k < i ==> batch[k].0 != batch[i].0
    requires AllDone(log, part, position, batch[..i], processed, committed)
    requires batch[i].0 in position
      && RangeMarked(PartitionLog(log, part, batch[i].0), position[batch[i].0], batch[i].1, processed')
    ensures AllDone(log, part, position, batch[..i + 1], processed', committed[batch[i].0 := batch[i].1])
  {
    forall k | 0 <= k < i
      ensures Done(log, part, position, batch[k], processed', committed[batch[i].0 := batch[i].1])
    {
      assert Done(log, part, position, batch[..i][k], processed, committed);
      DoneStays(log, part, position, batch[k], processed, processed', committed, batch[i].0, batch[i].1);
    }
  }

  class Process {
    var processed: set<EventId>
    var effects: seq<Message>
    var committed: map<nat, nat>
    var position: map<nat, nat>

    constructor ()
      ensures processed == {} && effects == [] && committed == map[] && position == map[]
    {
      processed, effects, committed, position := {}, [], map[], map[];
    }

    /** The protocol state of this process between two batches. */
    ghost function Abs(): I.State
      reads this
    {
      I.Store(processed, effects, committed, [I.Consumer(position, I.Polling)], [], 0)
    }

    /** Records the event id; false when it was recorded before. */
    method MarkProcessed(eventId: EventId) returns (isNew: bool)
      modifies this`processed
      ensures isNew <==> eventId !in old(processed)
      ensures processed == old(processed) + {eventId}
    {
      isNew := eventId !in processed;
      processed := processed + {eventId};
    }

    /** Handles the fetched records of one partition and commits the offset behind the last one. */
    method HandlePartition(log: seq<Message>, part: OrderId -> nat, p: nat, end: nat)
      requires p in position && position[p] < end <= |PartitionLog(log, part, p)|
      modifies this
      ensures Abs() == AfterBatch(log, part, old(Abs()), p, end)
      ensures committed == old(committed)[p := end] && position == old(position)[p := end]
      ensures RangeMarked(PartitionLog(log, part, p), old(position[p]), end, processed) && old(processed) <= processed
    {
      var messages := PartitionLog(log, part, p)[position[p]..end];
      var i := 0;
      while i < |messages|
        invariant 0 <= i <= |messages|
        invariant position == old(position) && committed == old(committed)
        invariant processed == Marked(old(processed), messages[..i])
        invariant effects == old(effects) + Fresh(old(processed), messages[..i])
      {
        var msg := messages[i];
        assert messages[..i + 1][..i] == messages[..i];
        i := i + 1;
        if msg.eventId.None? {
          continue;
        }
        var isNew := MarkProcessed(msg.eventId.value);
        if !isNew {
          continue;
        }
        effects := effects + [msg];
      }
      assert messages[..|messages|] == messages;
      SliceMarked(PartitionLog(log, part, p), position[p], end, old(processed));
      committed := committed[p := end];
      position := position[p := end];
    }

    /**
     One poll: every fetched partition in turn.  The effects of the new events run in order, each event's once, and a
     partition is committed only after all its records are marked.
     */
    method Consume(log: seq<Message>, part: OrderId -> nat, batch: seq<(nat, nat)>)
      requires PollOk(log, part, position, batch)
      modifies this
      ensures Abs() == AfterPoll(log, part, old(Abs()), batch)
      ensures AllDone(log, part, old(position), batch, processed, committed)
    {
      ghost var s0 := Abs();
      var i := 0;
      while i < |batch|
        invariant 0 <= i <= |batch|
        invariant PollOk(log, part, s0.consumers[0].position, batch[..i])
        invariant Abs() == AfterPoll(log, part, s0, batch[..i])
        invariant AllDone(log, part, old(position), batch[..i], processed, committed)
      {
        assert batch[..i + 1][..i] == batch[..i];
        PollNext(log, part, s0, batch[..i + 1]);
        OffsetsKept(old(position), batch[..i], batch[i].0);
        ghost var processed0, committed0 := processed, committed;
        HandlePartition(log, part, batch[i].0, batch[i].1);
        AllDoneStay(log, part, old(position), batch, i, processed0, processed, committed0);
        i := i + 1;
      }
      assert batch[..i] == batch;
    }
  }

  /** The state in the middle of a batch, n records handled. */
  ghost function MidBatch(log: seq<Message>, part: OrderId -> nat, s: I.State, p: nat, end: nat, n: nat): I.State
    requires |s.consumers| == 1 && Fetched(log, part, s.consumers[0].position, p, end)
    requires s.consumers[0].position[p] + n <= end
  {
    var x := s.consumers[0];
    var msgs := PartitionLog(log, part, p)[x.position[p]..x.position[p] + n];
    s.(processed := Marked(s.processed, msgs), effects := s.effects + Fresh(s.processed, msgs),
       consumers := [I.Consumer(x.position, I.Handling(p, end, x.position[p] + n, None))])
  }

  ghost predicate NoCrash(acts: seq<I.Action>) {
    forall a :: a in acts ==> !a.Crash?
  }

  /** The state after one more record. */
  ghost function OneMore(s: I.State, m: Message): I.State
    requires |s.consumers| == 1 && s.consumers[0].work.Handling?
  {
    var x := s.consumers[0];
    s.(processed := Marked(s.processed, [m]), effects := s.effects + Fresh(s.processed, [m]),
       consumers := [x.(work := x.work.(cur := x.work.cur + 1))])
  }

  lemma MarkedSingle(processed: set<EventId>, m: Message)
    ensures m.eventId.None? || m.eventId.value in processed ==>
      Marked(processed, [m]) == processed && Fresh(processed, [m]) == []
    ensures m.eventId.Some? && m.eventId.value !in processed ==>
      Marked(processed, [m]) == processed + {m.eventId.value} && Fresh(processed, [m]) == [m]
  {
    assert [m][..0] == [];
    assert [] + [m] == [m];
    assert m.eventId.Some? && m.eventId.value in processed ==> processed + {m.eventId.value} == processed;
  }

  /** Handling a record is one protocol step when it is skipped, and the mark and the effect when it is new. */
  lemma HandleIsOneMore(log: seq<Message>, part: OrderId -> nat, s: I.State, m: Message)
    requires |s.consumers| == 1 && I.Enabled(log, part, s, I.Handle(0))
    requires var w := s.consumers[0].work; m == PartitionLog(log, part, w.partition)[w.cur]
    ensures m.eventId.None? || m.eventId.value in s.processed ==> I.HandleNext(s, 0, m) == OneMore(s, m)
    ensures m.eventId.Some? && m.eventId.value !in s.processed ==>
      var t := I.HandleNext(s, 0, m);
      I.Enabled(log, part, t, I.Effect(0)) && I.Apply(log, part, t, I.Effect(0)) == OneMore(s, m)
  {
    MarkedSingle(s.processed, m);
    var t, u := I.HandleNext(s, 0, m), OneMore(s, m);
    if m.eventId.None? || m.eventId.value in s.processed {
      assert s.effects + [] == s.effects;
      assert t.consumers == u.consumers;
    } else {
      assert I.Apply(log, part, t, I.Effect(0)).consumers == u.consumers;
    }
  }

  lemma HandleOne(log: seq<Message>, part: OrderId -> nat, s0: I.State, front: seq<I.Action>, s: I.State, m: Message)
    returns (acts: seq<I.Action>)
    requires I.Run(log, part, s0, front) == Some(s) && NoCrash(front)
    requires |s.consumers| == 1 && I.Enabled(log, part, s, I.Handle(0))
    requires var w := s.consumers[0].work; m == PartitionLog(log, part, w.partition)[w.cur]
    ensures NoCrash(acts) && I.Run(log, part, s0, acts) == Some(OneMore(s, m))
  {
    HandleIsOneMore(log, part, s, m);
    I.RunSnoc(log, part, s0, front, I.Handle(0));
    acts := front + [I.Handle(0)];
    if m.eventId.Some? && m.eventId.value !in s.processed {
      I.RunSnoc(log, part, s0, acts, I.Effect(0));
      acts := acts + [I.Effect(0)];
    }
  }

  lemma SliceNext(processed: set<EventId>, effects: seq<Message>, pl: seq<Message>, start: nat, n: nat)
    requires n > 0 && start + n <= |pl|
    ensures var front, m := pl[start..start + n - 1], pl[start + n - 1];
      && Marked(processed, pl[start..start + n]) == Marked(Marked(processed, front), [m])
      && effects + Fresh(processed, pl[start..start + n])
         == effects + Fresh(processed, front) + Fresh(Marked(processed, front), [m])
  {
    var front, m := pl[start..start + n - 1], pl[start + n - 1];
    assert pl[start..start + n] == front + [m];
    MarkedConcat(processed, front, [m]);
  }

  lemma MidBatchNext(log: seq<Message>, part: OrderId -> nat, s: I.State, p: nat, end: nat, n: nat)
    requires |s.consumers| == 1 && n > 0
    requires Fetched(log, part, s.consumers[0].position, p, end) && s.consumers[0].position[p] + n <= end
    ensures var m := PartitionLog(log, part, p)[s.consumers[0].position[p] + n - 1];
      MidBatch(log, part, s, p, end, n) == OneMore(MidBatch(log, part, s, p, end, n - 1), m)
  {
    var start := s.consumers[0].position[p];
    SliceNext(s.processed, s.effects, PartitionLog(log, part, p), start, n);
  }

  lemma FetchIsMidBatch(log: seq<Message>, part: OrderId -> nat, s: I.State, p: nat, end: nat)
    requires |s.consumers| == 1 && s.consumers[0].work.Polling?
    requires Fetched(log, part, s.consumers[0].position, p, end)
    ensures I.Run(log, part, s, [I.Fetch(0, p, end)]) == Some(MidBatch(log, part, s, p, end, 0))
  {
    I.RunSnoc(log, part, s, [], I.Fetch(0, p, end));
    assert [] + [I.Fetch(0, p, end)] == [I.Fetch(0, p, end)];
    var start := s.consumers[0].position[p];
    assert I.Apply(log, part, s, I.Fetch(0, p, end)).consumers == MidBatch(log, part, s, p, end, 0).consumers;
    assert PartitionLog(log, part, p)[start..start] == [];
    assert s.effects + [] == s.effects;
  }

  lemma {:induction false} MidBatchIsRun(log: seq<Message>, part: OrderId -> nat, s: I.State, p: nat, end: nat, n: nat)
    returns (acts: seq<I.Action>)
    requires |s.consumers| == 1 && s.consumers[0].work.Polling?
    requires Fetched(log, part, s.consumers[0].position, p, end) && s.consumers[0].position[p] + n <= end
    ensures NoCrash(acts)
    ensures I.Run(log, part, s, acts) == Some(MidBatch(log, part, s, p, end, n))
  {
    if n == 0 {
      acts := [I.Fetch(0, p, end)];
      FetchIsMidBatch(log, part, s, p, end);
    } else {
      var front := MidBatchIsRun(log, part, s, p, end, n - 1);
      var m := PartitionLog(log, part, p)[s.consumers[0].position[p] + n - 1];
      MidBatchNext(log, part, s, p, end, n);
      acts := HandleOne(log, part, s, front, MidBatch(log, part, s, p, end, n - 1), m);
    }
  }

  lemma CommitEndsBatch(log: seq<Message>, part: OrderId -> nat, s: I.State, p: nat, end: nat)
    requires |s.consumers| == 1 && Fetched(log, part, s.consumers[0].position, p, end)
    ensures var t := MidBatch(log, part, s, p, end, end - s.consumers[0].position[p]);
      && I.Enabled(log, part, t, I.CommitOffset(0))
      && I.Apply(log, part, t, I.CommitOffset(0)) == AfterBatch(log, part, s, p, end)
  {
    var t := MidBatch(log, part, s, p, end, end - s.consumers[0].position[p]);
    assert I.Apply(log, part, t, I.CommitOffset(0)).consumers == AfterBatch(log, part, s, p, end).consumers;
  }

  /** Handling a batch is a crash-free run of the protocol. */
  lemma BatchIsRun(log: seq<Message>, part: OrderId -> nat, s: I.State, p: nat, end: nat)
    returns (acts: seq<I.Action>)
    requires |s.consumers| == 1 && s.consumers[0].work.Polling?
    requires Fetched(log, part, s.consumers[0].position, p, end)
    ensures NoCrash(acts)
    ensures I.Run(log, part, s, acts) == Some(AfterBatch(log, part, s, p, end))
  {
    var n := end - s.consumers[0].position[p];
    acts := MidBatchIsRun(log, part, s, p, end, n);
    CommitEndsBatch(log, part, s, p, end);
    I.RunSnoc(log, part, s, acts, I.CommitOffset(0));
    acts := acts + [I.CommitOffset(0)];
  }

  function Next(log: seq<Message>, part: OrderId -> nat, r: Option<I.State>, a: I.Action): Option<I.State> {
    match r
    case None => None
    case Some(t) => if I.Enabled(log, part, t, a) then Some(I.Apply(log, part, t, a)) else None
  }

  lemma RunNext(log: seq<Message>, part: OrderId -> nat, s: I.State, acts: seq<I.Action>, a: I.Action)
    ensures I.Run(log, part, s, acts + [a]) == Next(log, part, I.Run(log, part, s, acts), a)
  {
    assert (acts + [a])[..|acts|] == acts;
  }

  lemma {:induction false} RunConcat(log: seq<Message>, part: OrderId -> nat, s: I.State,
                                     front: seq<I.Action>, more: seq<I.Action>)
    requires I.Run(log, part, s, front).Some?
    ensures I.Run(log, part, s, front + more) == I.Run(log, part, I.Run(log, part, s, front).value, more)
    decreases |more|
  {
    if more == [] {
      assert front + more == front;
    } else {
      var n := |more| - 1;
      RunConcat(log, part, s, front, more[..n]);
      RunNext(log, part, s, front + more[..n], more[n]);
      RunNext(log, part, I.Run(log, part, s, front).value, more[..n], more[n]);
      assert front + more == front + more[..n] + [more[n]] && more == more[..n] + [more[n]];
    }
  }

  /** A whole poll is a crash-free run of the protocol. */
  lemma {:induction false} PollIsRun(log: seq<Message>, part: OrderId -> nat, s: I.State, batch: seq<(nat, nat)>)
    returns (acts: seq<I.Action>)
    requires |s.consumers| == 1 && s.consumers[0].work.Polling? && PollOk(log, part, s.consumers[0].position, batch)
    ensures NoCrash(acts)
    ensures I.Run(log, part, s, acts) == Some(AfterPoll(log, part, s, batch))
    decreases |batch|
  {
    if batch == [] {
      acts := [];
      assert s.effects + [] == s.effects;
      assert s.consumers == [I.Consumer(s.consumers[0].position, I.Polling)];
    } else {
      var n := |batch| - 1;
      PollNext(log, part, s, batch);
      var front := PollIsRun(log, part, s, batch[..n]);
      var more := BatchIsRun(log, part, AfterPoll(log, part, s, batch[..n]), batch[n].0, batch[n].1);
      RunConcat(log, part, s, front, more);
      acts := front + more;
    }
  }
}
