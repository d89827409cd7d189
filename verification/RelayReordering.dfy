/**
 When publication leaves the id order: exactly when a row becomes visible below one that has been taken, and,
 whatever the commits, as soon as there are two relays.
 */
module RelayReordering {
  import opened Sequences
  import opened Outbox
  import opened Broker
  import opened RelayInvariants
  import opened RelayOrdering

  // ---- runs ----

  function Next(b: nat, r: Option<State>, a: Action): Option<State> {
    match r
    case None => None
    case Some(t) => if Enabled(t, a) then Some(Apply(b, t, a)) else None
  }

  lemma RunNext(b: nat, s: State, acts: seq<Action>, a: Action)
    ensures Run(b, s, acts + [a]) == Next(b, Run(b, s, acts), a)
  {
    assert (acts + [a])[..|acts|] == acts;
  }

  lemma {:induction false} RunConcat(b: nat, s: State, front: seq<Action>, more: seq<Action>)
    requires Run(b, s, front).Some?
    ensures Run(b, s, front + more) == Run(b, Run(b, s, front).value, more)
    decreases |more|
  {
    if more == [] {
      assert front + more == front;
    } else {
      var n := |more| - 1;
      RunConcat(b, s, front, more[..n]);
      RunNext(b, s, front + more[..n], more[n]);
      RunNext(b, Run(b, s, front).value, more[..n], more[n]);
      assert front + more == front + more[..n] + [more[n]] && more == more[..n] + [more[n]];
    }
  }

  lemma {:induction false} RunPrefix(b: nat, s: State, acts: seq<Action>, k: nat)
    requires k <= |acts| && Run(b, s, acts).Some?
    ensures Run(b, s, acts[..k]).Some?
  {
    if k < |acts| {
      var n := |acts| - 1;
      RunPrefix(b, s, acts[..n], k);
      assert acts[..n][..k] == acts[..k];
    } else {
      assert acts[..k] == acts;
    }
  }

  lemma Extend(b: nat, s0: State, acts: seq<Action>, a: Action) returns (more: seq<Action>)
    requires Run(b, s0, acts).Some? && Enabled(Run(b, s0, acts).value, a)
    ensures more == acts + [a] && Run(b, s0, more) == Some(Apply(b, Run(b, s0, acts).value, a))
    ensures CommitsInIdOrder(b, s0, acts) && CommitsLast(Run(b, s0, acts).value, a) ==> CommitsInIdOrder(b, s0, more)
  {
    more := acts + [a];
    RunSnoc(b, s0, acts, a);
    assert more[..|acts|] == acts;
  }

  ghost predicate CommitFree(acts: seq<Action>) {
    forall k :: 0 <= k < |acts| ==> !acts[k].Commit?
  }

  /** The state after an open tick has sent its next n rows. */
  function SentMore(s: State, w: nat, n: nat): State
    requires InTick(s, w) && s.workers[w].sent + n <= |s.workers[w].batch|
  {
    var t := s.workers[w];
    s.(workers := s.workers[w := t.(sent := t.sent + n)],
       log := s.log + Messages(t.batch[t.sent..t.sent + n]))
  }

  lemma MessagesSnoc(batch: seq<Row>, from: nat, n: nat)
    requires n > 0 && from + n <= |batch|
    ensures Messages(batch[from..from + n])
         == Messages(batch[from..from + n - 1]) + [MessageOf(batch[from + n - 1])]
  {
  }

  lemma SendOneMore(b: nat, s: State, w: nat, n: nat)
    requires InTick(s, w) && n > 0 && s.workers[w].sent + n <= |s.workers[w].batch|
    ensures Enabled(SentMore(s, w, n - 1), Send(w))
    ensures Apply(b, SentMore(s, w, n - 1), Send(w)) == SentMore(s, w, n)
  {
    var t := s.workers[w];
    MessagesSnoc(t.batch, t.sent, n);
    assert s.workers[w := t.(sent := t.sent + n - 1)][w := t.(sent := t.sent + n)]
        == s.workers[w := t.(sent := t.sent + n)];
    assert s.log + Messages(t.batch[t.sent..t.sent + n])
        == s.log + Messages(t.batch[t.sent..t.sent + n - 1]) + [MessageOf(t.batch[t.sent + n - 1])];
  }

  /** An open tick can send its next n rows. */
  lemma {:induction false} SendMore(b: nat, s: State, w: nat, n: nat)
    requires InTick(s, w) && s.workers[w].sent + n <= |s.workers[w].batch|
    ensures Run(b, s, Sends(w, n)) == Some(SentMore(s, w, n))
  {
    if n == 0 {
      assert s.log + Messages([]) == s.log;
      assert s.workers[w := s.workers[w]] == s.workers;
    } else {
      SendMore(b, s, w, n - 1);
      SendOneMore(b, s, w, n);
      assert Sends(w, n) == Sends(w, n - 1) + [Send(w)];
      RunSnoc(b, s, Sends(w, n - 1), Send(w));
    }
  }

  // ---- a row in front of one already published ----

  /** Row i has been published although the smaller row id has not. */
  ghost predicate Overtaken(s: State, id: RowId, i: RowId) {
    && id in s.outbox && i in s.outbox && id < i
    && MessageOf(s.outbox[i].row) in s.log && MessageOf(s.outbox[id].row) !in s.log
  }

  /** The place of a row in the outbox. */
  lemma {:induction false} RowPlace(outbox: map<RowId, OutRow>, id: RowId, hi: nat) returns (y: nat)
    requires forall x :: x in outbox ==> outbox[x].row.id == x
    requires id in outbox && id < hi
    ensures y < |RowsTo(outbox, hi)| && RowsTo(outbox, hi)[y] == outbox[id].row
  {
    y := |RowsTo(outbox, id)|;
    RowsToPrefix(outbox, id + 1, hi);
    assert RowsTo(outbox, id + 1)[y] == outbox[id].row;
  }

  /** In id order, a published row stands in the log's first occurrences where it stands in the outbox. */
  lemma LoggedPlace(s: State, i: RowId) returns (x: nat)
    requires Inv(s) && InIdOrder(s) && i in s.outbox && MessageOf(s.outbox[i].row) in s.log
    ensures x < |FirstOccurrences(LogEvents(s.log))| && x < |Rows(s)| && Rows(s)[x].id == i
  {
    var first, e := FirstOccurrences(LogEvents(s.log)), s.outbox[i].row.eventId;
    LoggedRow(s, i);
    FirstOccurrencesMembers(LogEvents(s.log), e);
    x :| 0 <= x < |first| && first[x] == e;
    assert EventIds(Rows(s))[x] == e;
    RowsToRow(s.outbox, s.nextId, x);
  }

  lemma PlacesAscend(rows: seq<Row>, x: nat, y: nat)
    requires Ascending(rows) && x < |rows| && y < |rows| && rows[y].id < rows[x].id
    ensures y < x
  {
  }

  lemma InPrefix(first: seq<EventId>, rows: seq<Row>, y: nat)
    requires first <= EventIds(rows) && y < |first|
    ensures rows[y].eventId in first
  {
    assert first[y] == EventIds(rows)[y];
  }

  /** In id order a published row has all smaller ones published before it. */
  lemma SmallerIsLogged(s: State, id: RowId, i: RowId)
    requires Inv(s) && InIdOrder(s) && id in s.outbox && i in s.outbox && id < i
    requires MessageOf(s.outbox[i].row) in s.log
    ensures MessageOf(s.outbox[id].row) in s.log
  {
    var x := LoggedPlace(s, i);
    var y := RowPlace(s.outbox, id, s.nextId);
    RowsToAscending(s.outbox, s.nextId);
    PlacesAscend(Rows(s), x, y);
    InPrefix(FirstOccurrences(LogEvents(s.log)), Rows(s), y);
    FirstOccurrencesMembers(LogEvents(s.log), s.outbox[id].row.eventId);
    LoggedRow(s, id);
  }

  lemma OvertakenBreaksOrder(s: State, id: RowId, i: RowId)
    requires Inv(s) && Overtaken(s, id, i)
    ensures !InIdOrder(s)
  {
    if InIdOrder(s) { SmallerIsLogged(s, id, i); }
  }

  // ---- the order is lost exactly by a commit below a taken row ----

  /** The row about to be committed cannot be in the log. */
  lemma NotYetLogged(t: State, id: RowId)
    requires Inv(t) && Enabled(t, Commit(id))
    ensures MessageOf(t.open[id].row) !in t.log
  {
    forall k | 0 <= k < |t.log| ensures t.log[k] != MessageOf(t.open[id].row) {
      assert FromRow(t.outbox, t.log[k]);
    }
  }

  lemma PublishLimbo(b: nat, s: State, r: Row, other: Row) returns (more: seq<Action>)
    requires r in s.limbo && MessageOf(other) != MessageOf(r) && MessageOf(other) !in s.log
    ensures CommitFree(more) && Run(b, s, more).Some? && Run(b, s, more).value.outbox == s.outbox
    ensures MessageOf(r) in Run(b, s, more).value.log && MessageOf(other) !in Run(b, s, more).value.log
  {
    var x :| 0 <= x < |s.limbo| && s.limbo[x] == r;
    more := [LateAppend(x)];
    RunSnoc(b, s, [], LateAppend(x));
    assert [] + [LateAppend(x)] == more;
  }

  lemma LockedPlace(t: State, i: RowId) returns (w: nat, k: nat)
    requires Inv(t) && i in t.outbox && IsLocked(t.workers, i)
    ensures InTick(t, w) && k < |t.workers[w].batch| && t.workers[w].batch[k] == t.outbox[i].row
  {
    w :| 0 <= w < |t.workers| && Locks(t.workers[w], i);
    assert WorkerOk(t.outbox, t.workers[w]);
    var q :| q in t.workers[w].batch && q.id == i;
    k :| 0 <= k < |t.workers[w].batch| && t.workers[w].batch[k] == q;
  }

  /** A live tick has put the rows it has sent into the log. */
  lemma SentIsLogged(t: State, w: nat, r: Row)
    requires Inv(t) && Conserved(t, r.eventId) && InTick(t, w) && r in t.workers[w].batch[..t.workers[w].sent]
    ensures MessageOf(r) in t.log
  {
    var tick, e := t.workers[w], r.eventId;
    var k :| 0 <= k < tick.sent && tick.batch[k] == r;
    assert SentEvents(tick)[k] == e;
    CountPositive(SentEvents(tick), e);
    SumRemove(SendsOf(e), t.workers, w);
    CopiesPositive(t.log, e);
    LogEventsMembers(t.log, e);
    assert tick.batch[k] in tick.batch;
    LoggedRow(t, r.id);
  }

  lemma NotSentYet(t: State, w: nat, k: nat)
    requires Inv(t) && (forall e :: Conserved(t, e)) && InTick(t, w) && k < |t.workers[w].batch|
    requires MessageOf(t.workers[w].batch[k]) !in t.log
    ensures t.workers[w].sent <= k
  {
    var tick := t.workers[w];
    if k < tick.sent {
      assert WorkerOk(t.outbox, tick);
      assert tick.batch[..tick.sent][k] == tick.batch[k];
      assert Conserved(t, tick.batch[k].eventId);
      SentIsLogged(t, w, tick.batch[k]);
    }
  }

  lemma LastIsAmong(batch: seq<Row>, from: nat, k: nat)
    requires from <= k < |batch|
    ensures MessageOf(batch[k]) in Messages(batch[from..from + (k + 1 - from)])
  {
    assert Messages(batch[from..k + 1])[k - from] == MessageOf(batch[k]);
  }

  /** A row that was not committed when the tick locked its batch is not sent by it. */
  lemma NotAmong(t: State, w: nat, from: nat, n: nat, r: Row)
    requires Inv(t) && InTick(t, w) && from + n <= |t.workers[w].batch| && !EventIdUsed(t.outbox, r.eventId)
    ensures MessageOf(r) !in Messages(t.workers[w].batch[from..from + n])
  {
    var batch := t.workers[w].batch;
    forall k | from <= k < from + n ensures MessageOf(batch[k]) != MessageOf(r) {
      assert batch[k] in batch;
    }
  }

  lemma PublishLocked(b: nat, t: State, s: State, w: nat, k: nat, other: Row) returns (more: seq<Action>)
    requires Inv(t) && InTick(t, w) && t.workers[w].sent <= k < |t.workers[w].batch|
    requires s.workers == t.workers && s.log == t.log
    requires !EventIdUsed(t.outbox, other.eventId) && MessageOf(other) !in s.log
    ensures CommitFree(more) && Run(b, s, more).Some? && Run(b, s, more).value.outbox == s.outbox
    ensures MessageOf(t.workers[w].batch[k]) in Run(b, s, more).value.log
    ensures MessageOf(other) !in Run(b, s, more).value.log
  {
    var tick := t.workers[w];
    var n := k + 1 - tick.sent;
    more := Sends(w, n);
    SendMore(b, s, w, n);
    LastIsAmong(tick.batch, tick.sent, k);
    NotAmong(t, w, tick.sent, n, other);
  }

  /** From the committed state, a taken row that is not in the log can be sent without sending row id. */
  lemma PublishTaken(b: nat, t: State, s: State, id: RowId, i: RowId) returns (more: seq<Action>)
    requires Inv(t) && (forall e :: Conserved(t, e)) && Enabled(t, Commit(id)) && s == Apply(b, t, Commit(id))
    requires Taken(t, i) && MessageOf(t.outbox[i].row) !in t.log && MessageOf(t.open[id].row) !in t.log
    ensures CommitFree(more) && Run(b, s, more).Some? && Run(b, s, more).value.outbox == s.outbox
    ensures MessageOf(t.outbox[i].row) in Run(b, s, more).value.log
    ensures MessageOf(t.open[id].row) !in Run(b, s, more).value.log
  {
    var r := t.outbox[i].row;
    if r in s.limbo {
      more := PublishLimbo(b, s, r, t.open[id].row);
    } else {
      var w, k := LockedPlace(t, i);
      NotSentYet(t, w, k);
      more := PublishLocked(b, t, s, w, k, t.open[id].row);
    }
  }

  /** Committing below a taken row breaks the order at once or after some further sends. */
  lemma EarlyCommitReorders(b: nat, relays: nat, acts: seq<Action>, id: RowId, i: RowId) returns (more: seq<Action>)
    requires Run(b, Init(relays), acts).Some?
    requires var t := Run(b, Init(relays), acts).value;
      Enabled(t, Commit(id)) && Taken(t, i) && id < i
    ensures CommitFree(more) && Run(b, Init(relays), acts + [Commit(id)] + more).Some?
    ensures !InIdOrder(Run(b, Init(relays), acts + [Commit(id)] + more).value)
  {
    RunInvariant(b, relays, acts);
    RunSnoc(b, Init(relays), acts, Commit(id));
    RunInvariant(b, relays, acts + [Commit(id)]);
    var t := Run(b, Init(relays), acts).value;
    var s := Apply(b, t, Commit(id));
    assert OpenOk(t.open, t.outbox, t.nextId);
    NotYetLogged(t, id);
    if MessageOf(t.outbox[i].row) in t.log {
      more := [];
    } else {
      more := PublishTaken(b, t, s, id, i);
    }
    RunConcat(b, Init(relays), acts + [Commit(id)], more);
    var u := Run(b, s, more).value;
    assert Overtaken(u, id, i);
    RunInvariant(b, relays, acts + [Commit(id)] + more);
    OvertakenBreaksOrder(u, id, i);
  }

  /** The state after the first k actions and then some commit-free ones, if those can run, is in order. */
  ghost predicate OrderedAfter(b: nat, relays: nat, acts: seq<Action>, k: nat, more: seq<Action>)
    requires k <= |acts|
  {
    CommitFree(more) && Run(b, Init(relays), acts[..k] + more).Some? ==>
      InIdOrder(Run(b, Init(relays), acts[..k] + more).value)
  }

  /** Every state of the run, and every state it could go on to without a further commit, is in order. */
  ghost predicate StaysInIdOrder(b: nat, relays: nat, acts: seq<Action>) {
    forall k, more :: 0 <= k <= |acts| ==> OrderedAfter(b, relays, acts, k, more)
  }

  lemma {:induction false} NothingOvertakenPrefix(b: nat, s: State, acts: seq<Action>, k: nat)
    requires NothingOvertaken(b, s, acts) && k <= |acts|
    ensures NothingOvertaken(b, s, acts[..k])
    decreases |acts|
  {
    if k < |acts| {
      var n := |acts| - 1;
      NothingOvertakenPrefix(b, s, acts[..n], k);
      assert acts[..n][..k] == acts[..k];
    } else {
      assert acts[..k] == acts;
    }
  }

  lemma {:induction false} CommitFreeOvertakesNothing(b: nat, s: State, front: seq<Action>, more: seq<Action>)
    requires NothingOvertaken(b, s, front) && CommitFree(more)
    ensures NothingOvertaken(b, s, front + more)
    decreases |more|
  {
    if more == [] {
      assert front + more == front;
    } else {
      var n := |more| - 1;
      CommitFreeOvertakesNothing(b, s, front, more[..n]);
      assert (front + more)[..|front| + n] == front + more[..n];
    }
  }

  /** The step of a run at which a row is committed below a taken one. */
  lemma {:induction false} FirstOvertaking(b: nat, s: State, acts: seq<Action>) returns (k: nat)
    requires Run(b, s, acts).Some? && !NothingOvertaken(b, s, acts)
    ensures k < |acts| && Run(b, s, acts[..k]).Some?
    ensures Enabled(Run(b, s, acts[..k]).value, acts[k]) && !CommitsAboveTaken(Run(b, s, acts[..k]).value, acts[k])
    decreases |acts|
  {
    k := |acts| - 1;
    if !NothingOvertaken(b, s, acts[..k]) {
      var n := k;
      k := FirstOvertaking(b, s, acts[..n]);
      assert acts[..n][..k] == acts[..k];
    }
  }

  lemma OrderedWhileNothingOvertaken(b: nat, acts: seq<Action>, k: nat, more: seq<Action>)
    requires NothingOvertaken(b, Init(1), acts) && k <= |acts|
    ensures OrderedAfter(b, 1, acts, k, more)
  {
    if CommitFree(more) && Run(b, Init(1), acts[..k] + more).Some? {
      NothingOvertakenPrefix(b, Init(1), acts, k);
      CommitFreeOvertakesNothing(b, Init(1), acts[..k], more);
      PublishedInIdOrder(b, 1, acts[..k] + more);
    }
  }

  lemma NothingOvertakenStays(b: nat, acts: seq<Action>)
    requires NothingOvertaken(b, Init(1), acts)
    ensures StaysInIdOrder(b, 1, acts)
  {
    forall k, more | 0 <= k <= |acts| ensures OrderedAfter(b, 1, acts, k, more) {
      OrderedWhileNothingOvertaken(b, acts, k, more);
    }
  }

  lemma OvertakingStep(b: nat, relays: nat, front: seq<Action>, a: Action) returns (more: seq<Action>)
    requires Run(b, Init(relays), front).Some?
    requires Enabled(Run(b, Init(relays), front).value, a) && !CommitsAboveTaken(Run(b, Init(relays), front).value, a)
    ensures CommitFree(more) && Run(b, Init(relays), front + [a] + more).Some?
    ensures !InIdOrder(Run(b, Init(relays), front + [a] + more).value)
  {
    var t := Run(b, Init(relays), front).value;
    var i: RowId :| Taken(t, i) && a.id <= i;
    RunInvariant(b, relays, front);
    assert a.id !in t.outbox;
    more := EarlyCommitReorders(b, relays, front, a.id, i);
  }

  lemma NotOrderedAfter(b: nat, relays: nat, acts: seq<Action>, k: nat, more: seq<Action>)
    requires k < |acts| && CommitFree(more) && Run(b, Init(relays), acts[..k] + [acts[k]] + more).Some?
    requires !InIdOrder(Run(b, Init(relays), acts[..k] + [acts[k]] + more).value)
    ensures !OrderedAfter(b, relays, acts, k + 1, more)
  {
    assert acts[..k + 1] == acts[..k] + [acts[k]];
  }

  lemma OvertakingReorders(b: nat, relays: nat, acts: seq<Action>)
    requires Run(b, Init(relays), acts).Some? && !NothingOvertaken(b, Init(relays), acts)
    ensures !StaysInIdOrder(b, relays, acts)
  {
    var k := FirstOvertaking(b, Init(relays), acts);
    var more := OvertakingStep(b, relays, acts[..k], acts[k]);
    NotOrderedAfter(b, relays, acts, k, more);
  }

  /**
   With one relay, a run stays in id order, now and however it could go on without further commits, if and only if
   none of its commits was below a row already in the log, in limbo or in the open batch.
   */
  lemma {:induction false} OneRelayOrderIff(b: nat, acts: seq<Action>)
    requires Run(b, Init(1), acts).Some?
    ensures NothingOvertaken(b, Init(1), acts) <==> StaysInIdOrder(b, 1, acts)
  {
    if NothingOvertaken(b, Init(1), acts) {
      NothingOvertakenStays(b, acts);
    } else {
      OvertakingReorders(b, 1, acts);
    }
  }

  /** Two open transactions, of which the later one has committed. */
  lemma LaterCommits(b: nat, e0: EventId, e1: EventId, user: string, items: seq<Item>) returns (acts: seq<Action>)
    requires e0 != e1
    ensures Run(b, Init(1), acts).Some?
    ensures var s := Run(b, Init(1), acts).value;
      && s.outbox == map[1 := OutRow(RowFor(1, e1, 1, NewOrder(user, items)), false)]
      && s.open.Keys == {0} && s.open[0] == Txn(0, NewOrder(user, items), RowFor(0, e0, 0, NewOrder(user, items)))
      && s.orders.Keys == {1} && s.nextId == 2 && s.workers == [Idle] && s.log == []
  {
    acts := Extend(b, Init(1), [], Begin(0, user, items, e0));
    acts := Extend(b, Init(1), acts, Begin(1, user, items, e1));
    acts := Extend(b, Init(1), acts, Commit(1));
  }

  lemma {:induction false} SelectOnlyFrom(s: State, id: RowId, b: nat, lo: nat)
    requires b >= 1 && lo <= id && s.nextId == id + 1 && Available(s, id)
    requires forall x: RowId :: lo <= x < id ==> !Available(s, x)
    ensures Select(s, lo, b) == [s.outbox[id].row]
    decreases id - lo
  {
    if lo < id { SelectOnlyFrom(s, id, b, lo + 1); }
  }

  /** When the last row is the only one available, the batch is that row. */
  lemma SelectOnly(s: State, id: RowId, b: nat)
    requires b >= 1 && s.nextId == id + 1 && Available(s, id) && forall x: RowId :: x < id ==> !Available(s, x)
    ensures Select(s, 0, b) == [s.outbox[id].row]
  {
    SelectOnlyFrom(s, id, b, 0);
  }

  /** For every batch size one relay can be made to reorder by two transactions that commit the other way round. */
  lemma {:induction false} LateCommitReorders(b: nat, e0: EventId, e1: EventId, user: string, items: seq<Item>)
    returns (acts: seq<Action>)
    requires b >= 1 && e0 != e1
    ensures Run(b, Init(1), acts).Some? && !InIdOrder(Run(b, Init(1), acts).value)
  {
    acts := LaterCommits(b, e0, e1, user, items);
    var s := Run(b, Init(1), acts).value;
    var r1 := s.outbox[1].row;
    SelectOnly(s, 1, b);
    RunSnoc(b, Init(1), acts, Lock(0));
    var t := Apply(b, s, Lock(0));
    assert t.workers == [Tick([r1], 0)];
    assert r1 in [r1];
    assert Locks(t.workers[0], 1);
    var more := EarlyCommitReorders(b, 1, acts + [Lock(0)], 0, 1);
    acts := acts + [Lock(0)] + [Commit(0)] + more;
  }

  // ---- the number of relays ----

  /** The only committed row is 0. */
  lemma OneCommitted(b: nat, relays: nat, o0: OrderId, e0: EventId, user: string, items: seq<Item>)
    returns (acts: seq<Action>, r0: Row)
    ensures Run(b, Init(relays), acts).Some? && CommitsInIdOrder(b, Init(relays), acts)
    ensures r0 == RowFor(0, e0, o0, NewOrder(user, items))
    ensures Run(b, Init(relays), acts).value
      == Init(relays).(orders := map[o0 := NewOrder(user, items)], outbox := map[0 := OutRow(r0, false)], nextId := 1)
  {
    r0 := RowFor(0, e0, o0, NewOrder(user, items));
    acts := Extend(b, Init(relays), [], Begin(o0, user, items, e0));
    acts := Extend(b, Init(relays), acts, Commit(0));
  }

  /** The first relay holds row 0 and a second row has been committed. */
  lemma FirstRelayHolds(b: nat, relays: nat, o0: OrderId, o1: OrderId, e0: EventId, e1: EventId,
                        user: string, items: seq<Item>)
    returns (acts: seq<Action>, r0: Row, r1: Row)
    requires b >= 1 && relays >= 2 && o0 != o1 && e0 != e1
    ensures Run(b, Init(relays), acts).Some? && CommitsInIdOrder(b, Init(relays), acts)
    ensures r0 == RowFor(0, e0, o0, NewOrder(user, items)) && r1 == RowFor(1, e1, o1, NewOrder(user, items))
    ensures var s := Run(b, Init(relays), acts).value;
      && s.outbox == map[0 := OutRow(r0, false), 1 := OutRow(r1, false)] && s.nextId == 2 && s.log == []
      && s.workers == Init(relays).workers[0 := Tick([r0], 0)]
  {
    r1 := RowFor(1, e1, o1, NewOrder(user, items));
    acts, r0 := OneCommitted(b, relays, o0, e0, user, items);
    SelectOnly(Run(b, Init(relays), acts).value, 0, b);
    acts := Extend(b, Init(relays), acts, Lock(0));
    acts := Extend(b, Init(relays), acts, Begin(o1, user, items, e1));
    acts := Extend(b, Init(relays), acts, Commit(1));
  }

  lemma SecondRelaySkips(b: nat, s: State, r0: Row, r1: Row)
    requires b >= 1 && r0.id == 0 && r1.id == 1 && |s.workers| >= 2 && s.nextId == 2
    requires s.outbox == map[0 := OutRow(r0, false), 1 := OutRow(r1, false)]
    requires s.workers[0] == Tick([r0], 0) && forall w :: 1 <= w < |s.workers| ==> s.workers[w].Idle?
    ensures Select(s, 0, b) == [r1]
  {
    assert r0 in [r0];
    assert Locks(s.workers[0], 0);
    assert !IsLocked(s.workers, 1);
    SelectOnly(s, 1, b);
  }

  /** Only the second of two rows has been published. */
  ghost predicate SecondAlone(s: State, r0: Row, r1: Row) {
    && s.outbox == map[0 := OutRow(r0, false), 1 := OutRow(r1, false)] && s.nextId == 2
    && s.log == [MessageOf(r1)]
  }

  /** With two relays or more, the second skips the row the first has locked and sends the next. */
  lemma SecondRelayFirst(b: nat, relays: nat, o0: OrderId, o1: OrderId, e0: EventId, e1: EventId,
                         user: string, items: seq<Item>)
    returns (acts: seq<Action>, r0: Row, r1: Row)
    requires b >= 1 && relays >= 2 && o0 != o1 && e0 != e1
    ensures Run(b, Init(relays), acts).Some? && CommitsInIdOrder(b, Init(relays), acts)
    ensures r0 == RowFor(0, e0, o0, NewOrder(user, items)) && r1 == RowFor(1, e1, o1, NewOrder(user, items))
    ensures SecondAlone(Run(b, Init(relays), acts).value, r0, r1)
  {
    acts, r0, r1 := FirstRelayHolds(b, relays, o0, o1, e0, e1, user, items);
    SecondRelaySkips(b, Run(b, Init(relays), acts).value, r0, r1);
    acts := Extend(b, Init(relays), acts, Lock(1));
    acts := Extend(b, Init(relays), acts, Send(1));
    assert Run(b, Init(relays), acts).value.log == [] + [MessageOf(r1)];
  }

  lemma SelectedOne(m: Message, keep: OrderId -> bool)
    requires keep(m.key) && m.eventId.Some?
    ensures Selected([m], keep) == [m] && LogEvents([m]) == [m.eventId.value]
  {
    assert [m][..0] == [];
    LogEventsSnoc([], m);
    assert [] + [m] == [m] && [] + [m.eventId.value] == [m.eventId.value];
  }

  lemma FirstOfOne(e: EventId)
    ensures FirstOccurrences([e]) == [e]
  {
    FirstOccurrencesSnoc([], e);
    assert [] + [e] == [e];
  }

  lemma SecondAloneWithin(s: State, r0: Row, r1: Row, keep: OrderId -> bool)
    requires SecondAlone(s, r0, r1) && keep(r0.aggregateId) && keep(r1.aggregateId) && r0.eventId != r1.eventId
    ensures !InIdOrderWithin(s, keep)
  {
    SelectedRowsNext(s.outbox, 2, keep);
    SelectedRowsNext(s.outbox, 1, keep);
    assert SelectedRows(Rows(s), keep) == [r0, r1];
    SelectedOne(MessageOf(r1), keep);
    FirstOfOne(r1.eventId);
    assert EventIds([r0, r1])[0] == r0.eventId;
  }

  /** With two relays or more the order is lost for every batch size, whatever the keys. */
  lemma {:induction false} TwoRelaysReorder(b: nat, relays: nat, o0: OrderId, o1: OrderId, e0: EventId, e1: EventId,
                                            user: string, items: seq<Item>)
    returns (acts: seq<Action>)
    requires b >= 1 && relays >= 2 && o0 != o1 && e0 != e1
    ensures Run(b, Init(relays), acts).Some? && CommitsInIdOrder(b, Init(relays), acts)
    ensures !InIdOrder(Run(b, Init(relays), acts).value)
    ensures forall keep: OrderId -> bool :: keep(o0) && keep(o1) ==>
      !InIdOrderWithin(Run(b, Init(relays), acts).value, keep)
  {
    var r0, r1;
    acts, r0, r1 := SecondRelayFirst(b, relays, o0, o1, e0, e1, user, items);
    var s := Run(b, Init(relays), acts).value;
    RunInvariant(b, relays, acts);
    OvertakenBreaksOrder(s, 0, 1);
    forall keep: OrderId -> bool | keep(o0) && keep(o1) ensures !InIdOrderWithin(s, keep) {
      SecondAloneWithin(s, r0, r1, keep);
    }
  }

  /** Every run that commits its rows in id order publishes them in id order. */
  ghost predicate RelaysKeepOrder(b: nat, relays: nat) {
    forall acts :: Run(b, Init(relays), acts).Some? && CommitsInIdOrder(b, Init(relays), acts) ==>
      InIdOrder(Run(b, Init(relays), acts).value)
  }

  /** For every batch size, rows committed in id order are published in it if and only if there is at most one relay. */
  lemma {:induction false} RelayCountIff(b: nat, relays: nat)
    requires b >= 1
    ensures RelaysKeepOrder(b, relays) <==> relays <= 1
  {
    if relays <= 1 {
      forall acts | Run(b, Init(relays), acts).Some? && CommitsInIdOrder(b, Init(relays), acts)
        ensures InIdOrder(Run(b, Init(relays), acts).value)
      {
        IdOrderOvertakesNothing(b, Init(relays), acts);
        PublishedInIdOrder(b, relays, acts);
      }
    } else {
      var acts := TwoRelaysReorder(b, relays, 0, 1, 0, 1, "", []);
    }
  }

  // ---- one partition at a time ----

  /** No two keys share a partition. */
  ghost predicate KeysApart(part: OrderId -> nat) {
    forall o, o' :: part(o) == part(o') ==> o == o'
  }

  /** Every run that commits its rows in id order publishes them in id order within every partition. */
  ghost predicate PartitionsKeepOrder(b: nat, relays: nat, part: OrderId -> nat) {
    forall acts, p :: Run(b, Init(relays), acts).Some? && CommitsInIdOrder(b, Init(relays), acts) ==>
      InIdOrderWithin(Run(b, Init(relays), acts).value, InPartition(part, p))
  }

  lemma {:induction false} SelectedRowsHas(rows: seq<Row>, keep: OrderId -> bool, y: nat)
    requires y < |rows| && keep(rows[y].aggregateId)
    ensures rows[y] in SelectedRows(rows, keep)
  {
    var n := |rows| - 1;
    if y < n { SelectedRowsHas(rows[..n], keep, y); }
  }

  ghost predicate AllAre(es: seq<EventId>, e: EventId) {
    forall i :: 0 <= i < |es| ==> es[i] == e
  }

  lemma {:induction false} AllTheSame(es: seq<EventId>, e: EventId)
    requires AllAre(es, e)
    ensures FirstOccurrences(es) == if es == [] then [] else [e]
  {
    if es != [] {
      var n := |es| - 1;
      AllTheSame(es[..n], e);
      assert n > 0 ==> es[..n][0] == e;
    }
  }

  /** A selected record has its row among the selected rows. */
  lemma SelectedRecordRow(s: State, keep: OrderId -> bool, e: EventId)
    requires Inv(s) && e in LogEvents(Selected(s.log, keep))
    ensures exists r :: r in SelectedRows(Rows(s), keep) && r.eventId == e
  {
    LogEventsMembers(Selected(s.log, keep), e);
    var m :| m in Selected(s.log, keep) && m.eventId == Some(e);
    SelectedMembers(s.log, keep, m);
    assert FromRow(s.outbox, m);
    var id :| id in s.outbox && m == MessageOf(s.outbox[id].row);
    var y := RowPlace(s.outbox, id, s.nextId);
    SelectedRowsHas(Rows(s), keep, y);
  }

  /** Records whose events are all that of a single row are in order. */
  lemma SingleInOrder(rows: seq<Row>, es: seq<EventId>)
    requires es == [] || (|rows| == 1 && AllAre(es, rows[0].eventId))
    ensures FirstOccurrences(es) <= EventIds(rows)
  {
    if es != [] {
      AllTheSame(es, rows[0].eventId);
      assert EventIds(rows) == [rows[0].eventId];
    }
  }

  lemma OneKeyRecord(s: State, keep: OrderId -> bool, e: EventId)
    requires Inv(s) && OneKey(keep) && e in LogEvents(Selected(s.log, keep))
    ensures var rows := SelectedRows(Rows(s), keep); |rows| == 1 && e == rows[0].eventId
  {
    OneRowBelow(s, s.nextId, keep);
    SelectedRecordRow(s, keep, e);
  }

  lemma OneKeyRecords(s: State, keep: OrderId -> bool, rows: seq<Row>, es: seq<EventId>)
    requires Inv(s) && OneKey(keep) && rows == SelectedRows(Rows(s), keep) && es == LogEvents(Selected(s.log, keep))
    ensures es == [] || (|rows| == 1 && AllAre(es, rows[0].eventId))
  {
    if es != [] {
      OneKeyRecord(s, keep, es[0]);
      var e := rows[0].eventId;
      forall i | 0 <= i < |es| ensures es[i] == e {
        OneKeyRecord(s, keep, es[i]);
      }
    }
  }

  /** Within a single key there is one event, so no order to lose, whatever the relays do. */
  lemma OneKeyInOrder(s: State, keep: OrderId -> bool)
    requires Inv(s) && OneKey(keep)
    ensures InIdOrderWithin(s, keep)
  {
    var rows, es := SelectedRows(Rows(s), keep), LogEvents(Selected(s.log, keep));
    OneKeyRecords(s, keep, rows, es);
    SingleInOrder(rows, es);
  }

  lemma PartitionInOrder(b: nat, relays: nat, acts: seq<Action>, part: OrderId -> nat, p: nat)
    requires Run(b, Init(relays), acts).Some? && CommitsInIdOrder(b, Init(relays), acts)
    requires relays <= 1 || KeysApart(part)
    ensures InIdOrderWithin(Run(b, Init(relays), acts).value, InPartition(part, p))
  {
    if relays <= 1 {
      IdOrderOvertakesNothing(b, Init(relays), acts);
      PublishedInIdOrderPerPartition(b, relays, acts, InPartition(part, p));
    } else {
      RunInvariant(b, relays, acts);
      OneKeyInOrder(Run(b, Init(relays), acts).value, InPartition(part, p));
    }
  }

  /**
   For every batch size, rows committed in id order are published in id order within every partition if and only if
   there is at most one relay or no two keys share a partition.
   */
  lemma {:induction false} PartitionCountIff(b: nat, relays: nat, part: OrderId -> nat)
    requires b >= 1
    ensures PartitionsKeepOrder(b, relays, part) <==> relays <= 1 || KeysApart(part)
  {
    if relays <= 1 || KeysApart(part) {
      forall acts, p | Run(b, Init(relays), acts).Some? && CommitsInIdOrder(b, Init(relays), acts)
        ensures InIdOrderWithin(Run(b, Init(relays), acts).value, InPartition(part, p))
      {
        PartitionInOrder(b, relays, acts, part, p);
      }
    } else {
      var o0, o1 :| part(o0) == part(o1) && o0 != o1;
      var acts := TwoRelaysReorder(b, relays, o0, o1, 0, 1, "", []);
      assert !InIdOrderWithin(Run(b, Init(relays), acts).value, InPartition(part, part(o0)));
    }
  }
}
