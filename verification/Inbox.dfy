/**
 The deduplicating consumers as a step system over a growing log: any number of consumer processes, each of
 which may crash between any two steps and is then restarted from the committed offsets.
 */
module Inbox {
  import opened Sequences
  import opened Outbox
  import opened Broker

  /** `window` is the message whose event id this process has marked and whose effect has not run yet. */
  datatype Work = Polling | Handling(partition: nat, end: nat, cur: nat, window: Option<Message>)

  datatype Consumer = Consumer(position: map<nat, nat>, work: Work)

  /** `lost` records the marks whose process crashed before the effect. */
  datatype State = Store(
    processed: set<EventId>,
    effects: seq<Message>,
    committed: map<nat, nat>,
    consumers: seq<Consumer>,
    lost: seq<EventId>,
    crashes: nat)

  datatype Action =
    | Assign(c: nat, partition: nat)
    | Fetch(c: nat, partition: nat, end: nat)
    | Handle(c: nat)
    | Effect(c: nat)
    | CommitOffset(c: nat)
    | Crash(c: nat)

  function Init(consumers: nat): State {
    Store({}, [], map[], seq(consumers, _ => Consumer(map[], Polling)), [], 0)
  }

  predicate Enabled(log: seq<Message>, part: OrderId -> nat, s: State, a: Action) {
    a.c < |s.consumers| &&
    var work := s.consumers[a.c].work;
    match a
    case Assign(_, _) => work.Polling?
    case Fetch(c, p, end) =>
      && work.Polling? && p in s.consumers[c].position
      && s.consumers[c].position[p] < end <= |PartitionLog(log, part, p)|
    case Handle(_) =>
      && work.Handling? && work.window.None? && work.cur < work.end
      && work.end <= |PartitionLog(log, part, work.partition)|
    case Effect(_) => work.Handling? && work.window.Some?
    case CommitOffset(_) => work.Handling? && work.window.None? && work.cur == work.end
    case Crash(_) => true
  }

  function CommittedAt(committed: map<nat, nat>, p: nat): nat {
    if p in committed then committed[p] else 0
  }

  function SetWork(s: State, c: nat, work: Work): State
    requires c < |s.consumers|
  {
    s.(consumers := s.consumers[c := s.consumers[c].(work := work)])
  }

  /** INSERT ... ON CONFLICT DO NOTHING on the event id, or a skip when the header is missing. */
  function HandleNext(s: State, c: nat, m: Message): State
    requires c < |s.consumers| && s.consumers[c].work.Handling?
  {
    var work := s.consumers[c].work;
    if m.eventId.None? || m.eventId.value in s.processed
    then SetWork(s, c, work.(cur := work.cur + 1))
    else SetWork(s.(processed := s.processed + {m.eventId.value}), c, work.(window := Some(m)))
  }

  /** The event marked by a process that has not applied its effect yet. */
  function WindowOf(x: Consumer): seq<EventId> {
    if x.work.Handling? && x.work.window.Some? && x.work.window.value.eventId.Some?
    then [x.work.window.value.eventId.value] else []
  }

  function Apply(log: seq<Message>, part: OrderId -> nat, s: State, a: Action): State
    requires Enabled(log, part, s, a)
  {
    var x := s.consumers[a.c];
    match a
    case Assign(c, p) =>
      s.(consumers := s.consumers[c := x.(position := x.position[p := CommittedAt(s.committed, p)])])
    case Fetch(c, p, end) => SetWork(s, c, Handling(p, end, x.position[p], None))
    case Handle(c) => HandleNext(s, c, PartitionLog(log, part, x.work.partition)[x.work.cur])
    case Effect(c) =>
      SetWork(s.(effects := s.effects + [x.work.window.value]), c, x.work.(window := None, cur := x.work.cur + 1))
    case CommitOffset(c) =>
      s.(committed := s.committed[x.work.partition := x.work.end],
         consumers := s.consumers[c := Consumer(x.position[x.work.partition := x.work.end], Polling)])
    case Crash(c) =>
      s.(consumers := s.consumers[c := Consumer(map[], Polling)], crashes := s.crashes + 1,
         lost := s.lost + WindowOf(x))
  }

  /** The state after a sequence of actions over a fixed log, or None when one is not enabled where it stands. */
  function Run(log: seq<Message>, part: OrderId -> nat, s: State, acts: seq<Action>): Option<State>
    decreases |acts|
  {
    if acts == [] then Some(s)
    else
      match Run(log, part, s, acts[..|acts| - 1])
      case None => None
      case Some(t) =>
        var a := acts[|acts| - 1];
        if Enabled(log, part, t, a) then Some(Apply(log, part, t, a)) else None
  }

  lemma RunSnoc(log: seq<Message>, part: OrderId -> nat, s: State, acts: seq<Action>, a: Action)
    requires Run(log, part, s, acts).Some? && Enabled(log, part, Run(log, part, s, acts).value, a)
    ensures Run(log, part, s, acts + [a]) == Some(Apply(log, part, Run(log, part, s, acts).value, a))
  {
    assert (acts + [a])[..|acts|] == acts;
  }

  // ---- the invariant ----

  /** Every record of partition p below offset n that carries an event id is marked. */
  ghost predicate DoneUpTo(pl: seq<Message>, processed: set<EventId>, n: nat) {
    n <= |pl| && forall k :: 0 <= k < n && pl[k].eventId.Some? ==> pl[k].eventId.value in processed
  }

  ghost predicate OffsetsOk(log: seq<Message>, part: OrderId -> nat, processed: set<EventId>, offsets: map<nat, nat>) {
    forall p :: p in offsets ==> DoneUpTo(PartitionLog(log, part, p), processed, offsets[p])
  }

  ghost predicate WorkOk(pl: seq<Message>, processed: set<EventId>, work: Work) {
    work.Handling? ==>
      && work.cur <= work.end <= |pl|
      && DoneUpTo(pl, processed, work.cur)
      && (work.window.Some? ==>
            && work.cur < work.end && work.window.value == pl[work.cur]
            && work.window.value.eventId.Some? && work.window.value.eventId.value in processed)
  }

  ghost predicate ConsumerOk(log: seq<Message>, part: OrderId -> nat, processed: set<EventId>, x: Consumer) {
    && OffsetsOk(log, part, processed, x.position)
    && (x.work.Handling? ==> WorkOk(PartitionLog(log, part, x.work.partition), processed, x.work))
  }

  ghost predicate Inv(log: seq<Message>, part: OrderId -> nat, s: State) {
    && OffsetsOk(log, part, s.processed, s.committed)
    && (forall c :: 0 <= c < |s.consumers| ==> ConsumerOk(log, part, s.processed, s.consumers[c]))
    && (forall m :: m in s.effects ==> m in log && m.eventId.Some?)
  }

  ghost function WindowCount(e: EventId): Consumer -> nat {
    (x: Consumer) => Count(WindowOf(x), e)
  }

  /** The number of processes standing between the mark and the effect of event e. */
  ghost function InWindow(consumers: seq<Consumer>, e: EventId): nat {
    SumOver(WindowCount(e), consumers)
  }

  ghost function WindowSize(): Consumer -> nat {
    (x: Consumer) => |WindowOf(x)|
  }

  /** The number of processes standing between a mark and its effect. */
  ghost function Windows(consumers: seq<Consumer>): nat {
    SumOver(WindowSize(), consumers)
  }

  lemma InWindowUpdate(xs: seq<Consumer>, c: nat, x: Consumer, e: EventId)
    requires c < |xs|
    ensures InWindow(xs[c := x], e) + Count(WindowOf(xs[c]), e) == InWindow(xs, e) + Count(WindowOf(x), e)
    ensures Windows(xs[c := x]) + |WindowOf(xs[c])| == Windows(xs) + |WindowOf(x)|
  {
    SumUpdate(WindowCount(e), xs, c, x);
    SumUpdate(WindowSize(), xs, c, x);
  }

  /** A mark has led to one effect, was lost in a crash, or its process is still in the window. */
  ghost predicate MarkConserved(s: State, e: EventId) {
    (if e in s.processed then 1 else 0) == Copies(s.effects, e) + Count(s.lost, e) + InWindow(s.consumers, e)
  }

  ghost predicate MarksCounted(s: State) {
    |s.processed| == |s.effects| + |s.lost| + Windows(s.consumers) && |s.lost| <= s.crashes
  }

  // ---- preservation ----

  lemma DoneGrows(pl: seq<Message>, pl': seq<Message>, processed: set<EventId>, processed': set<EventId>, n: nat)
    requires DoneUpTo(pl, processed, n) && pl <= pl' && processed <= processed'
    ensures DoneUpTo(pl', processed', n)
  {
  }

  lemma OffsetsGrow(log: seq<Message>, log': seq<Message>, part: OrderId -> nat,
                    processed: set<EventId>, processed': set<EventId>, offsets: map<nat, nat>)
    requires OffsetsOk(log, part, processed, offsets) && log <= log' && processed <= processed'
    ensures OffsetsOk(log', part, processed', offsets)
  {
    forall p | p in offsets ensures DoneUpTo(PartitionLog(log', part, p), processed', offsets[p]) {
      SelectedPrefix(log, log', InPartition(part, p));
      DoneGrows(PartitionLog(log, part, p), PartitionLog(log', part, p), processed, processed', offsets[p]);
    }
  }

  lemma ConsumerGrows(log: seq<Message>, log': seq<Message>, part: OrderId -> nat,
                      processed: set<EventId>, processed': set<EventId>, x: Consumer)
    requires ConsumerOk(log, part, processed, x) && log <= log' && processed <= processed'
    ensures ConsumerOk(log', part, processed', x)
  {
    OffsetsGrow(log, log', part, processed, processed', x.position);
    if x.work.Handling? {
      SelectedPrefix(log, log', InPartition(part, x.work.partition));
    }
  }

  /** New records do not disturb the consumers. */
  lemma LogGrowthKeeps(log: seq<Message>, log': seq<Message>, part: OrderId -> nat, s: State)
    requires Inv(log, part, s) && log <= log'
    ensures Inv(log', part, s)
  {
    OffsetsGrow(log, log', part, s.processed, s.processed, s.committed);
    forall c | 0 <= c < |s.consumers| ensures ConsumerOk(log', part, s.processed, s.consumers[c]) {
      ConsumerGrows(log, log', part, s.processed, s.processed, s.consumers[c]);
    }
    forall m | m in s.effects ensures m in log' {
      var k :| 0 <= k < |log| && log[k] == m;
      assert log'[k] == m;
    }
  }

  lemma HandleKeeps(log: seq<Message>, part: OrderId -> nat, s: State, c: nat)
    requires Inv(log, part, s) && Enabled(log, part, s, Handle(c))
    ensures Inv(log, part, Apply(log, part, s, Handle(c)))
  {
    var s' := Apply(log, part, s, Handle(c));
    OffsetsGrow(log, log, part, s.processed, s'.processed, s.committed);
    forall d | 0 <= d < |s.consumers| ensures ConsumerOk(log, part, s'.processed, s.consumers[d]) {
      ConsumerGrows(log, log, part, s.processed, s'.processed, s.consumers[d]);
    }
    assert ConsumerOk(log, part, s'.processed, s.consumers[c]);
  }

  lemma EffectKeeps(log: seq<Message>, part: OrderId -> nat, s: State, c: nat)
    requires Inv(log, part, s) && Enabled(log, part, s, Effect(c))
    ensures Inv(log, part, Apply(log, part, s, Effect(c)))
  {
    var x := s.consumers[c];
    var pl := PartitionLog(log, part, x.work.partition);
    assert ConsumerOk(log, part, s.processed, x);
    assert pl[x.work.cur] in pl;
    SelectedMembers(log, InPartition(part, x.work.partition), pl[x.work.cur]);
    assert WorkOk(pl, s.processed, x.work.(window := None, cur := x.work.cur + 1));
  }

  lemma CommitKeeps(log: seq<Message>, part: OrderId -> nat, s: State, c: nat)
    requires Inv(log, part, s) && Enabled(log, part, s, CommitOffset(c))
    ensures Inv(log, part, Apply(log, part, s, CommitOffset(c)))
  {
    var x := s.consumers[c];
    assert ConsumerOk(log, part, s.processed, x);
    assert DoneUpTo(PartitionLog(log, part, x.work.partition), s.processed, x.work.end);
  }

  lemma FetchKeeps(log: seq<Message>, part: OrderId -> nat, s: State, a: Action)
    requires Inv(log, part, s) && Enabled(log, part, s, a) && a.Fetch?
    ensures Inv(log, part, Apply(log, part, s, a))
  {
    assert ConsumerOk(log, part, s.processed, s.consumers[a.c]);
  }

  lemma StepKeepsInv(log: seq<Message>, part: OrderId -> nat, s: State, a: Action)
    requires Inv(log, part, s) && Enabled(log, part, s, a)
    ensures Inv(log, part, Apply(log, part, s, a))
  {
    match a
    case Assign(c, p) => assert ConsumerOk(log, part, s.processed, s.consumers[c]);
    case Fetch(_, _, _) => FetchKeeps(log, part, s, a);
    case Handle(c) => HandleKeeps(log, part, s, c);
    case Effect(c) => EffectKeeps(log, part, s, c);
    case CommitOffset(c) => CommitKeeps(log, part, s, c);
    case Crash(_) =>
  }

  lemma HandleConserves(s: State, c: nat, m: Message, e: EventId)
    requires c < |s.consumers| && s.consumers[c].work.Handling? && s.consumers[c].work.window.None?
    requires MarkConserved(s, e) && MarksCounted(s)
    ensures MarkConserved(HandleNext(s, c, m), e) && MarksCounted(HandleNext(s, c, m))
  {
    var s' := HandleNext(s, c, m);
    InWindowUpdate(s.consumers, c, s'.consumers[c], e);
    if m.eventId.Some? && m.eventId.value !in s.processed {
      assert WindowOf(s'.consumers[c]) == [m.eventId.value];
    }
  }

  lemma EffectConserves(log: seq<Message>, part: OrderId -> nat, s: State, c: nat, e: EventId)
    requires Enabled(log, part, s, Effect(c)) && s.consumers[c].work.window.value.eventId.Some?
    requires MarkConserved(s, e) && MarksCounted(s)
    ensures MarkConserved(Apply(log, part, s, Effect(c)), e) && MarksCounted(Apply(log, part, s, Effect(c)))
  {
    var x := s.consumers[c];
    InWindowUpdate(s.consumers, c, x.(work := x.work.(window := None, cur := x.work.cur + 1)), e);
    CopiesSnoc(s.effects, x.work.window.value, e);
    assert WindowOf(x) == [x.work.window.value.eventId.value];
  }

  lemma CrashConserves(log: seq<Message>, part: OrderId -> nat, s: State, c: nat, e: EventId)
    requires Enabled(log, part, s, Crash(c)) && MarkConserved(s, e) && MarksCounted(s)
    ensures MarkConserved(Apply(log, part, s, Crash(c)), e) && MarksCounted(Apply(log, part, s, Crash(c)))
  {
    InWindowUpdate(s.consumers, c, Consumer(map[], Polling), e);
    CountConcat(s.lost, WindowOf(s.consumers[c]), e);
  }

  lemma StepConservesMark(log: seq<Message>, part: OrderId -> nat, s: State, a: Action, e: EventId)
    requires Inv(log, part, s) && Enabled(log, part, s, a) && MarkConserved(s, e) && MarksCounted(s)
    ensures MarkConserved(Apply(log, part, s, a), e) && MarksCounted(Apply(log, part, s, a))
  {
    var x := s.consumers[a.c];
    match a
    case Handle(c) => HandleConserves(s, c, PartitionLog(log, part, x.work.partition)[x.work.cur], e);
    case Effect(c) =>
      assert ConsumerOk(log, part, s.processed, x);
      EffectConserves(log, part, s, c, e);
    case Crash(c) => CrashConserves(log, part, s, c, e);
    case Assign(c, _) => InWindowUpdate(s.consumers, c, Apply(log, part, s, a).consumers[c], e);
    case Fetch(c, _, _) => InWindowUpdate(s.consumers, c, Apply(log, part, s, a).consumers[c], e);
    case CommitOffset(c) => InWindowUpdate(s.consumers, c, Apply(log, part, s, a).consumers[c], e);
  }

  // ---- one consumer process ----

  /** One process, whose position in every partition is the committed offset. */
  ghost predicate Resumes(s: State) {
    && |s.consumers| == 1
    && forall p :: p in s.consumers[0].position ==> s.consumers[0].position[p] == CommittedAt(s.committed, p)
  }

  lemma StepResumes(log: seq<Message>, part: OrderId -> nat, s: State, a: Action)
    requires Resumes(s) && Enabled(log, part, s, a)
    ensures Resumes(Apply(log, part, s, a))
  {
    var x, y := s.consumers[0], Apply(log, part, s, a).consumers[0];
    assert a.c == 0;
    match a
    case Assign(_, p) => assert y.position == x.position[p := CommittedAt(s.committed, p)];
    case Fetch(_, _, _) => assert y.position == x.position;
    case Handle(_) => assert y.position == x.position;
    case Effect(_) => assert y.position == x.position;
    case CommitOffset(_) => assert y.position == x.position[x.work.partition := x.work.end];
    case Crash(_) => assert y.position == map[];
  }

  /** A single consumer process always goes on from the committed offsets, after crashes too. */
  lemma {:induction false} OneConsumerResumes(log: seq<Message>, part: OrderId -> nat, acts: seq<Action>)
    requires Run(log, part, Init(1), acts).Some?
    ensures Resumes(Run(log, part, Init(1), acts).value)
  {
    if acts != [] {
      var front := acts[..|acts| - 1];
      OneConsumerResumes(log, part, front);
      StepResumes(log, part, Run(log, part, Init(1), front).value, acts[|acts| - 1]);
    }
  }
}
