/**
 Publication order with a single relay, and the draining of a backlog.
 */
module RelayOrdering {
  import opened Sequences
  import opened Outbox
  import opened Broker
  import opened RelayInvariants

  /** The committed rows with an id below hi, in id order. */
  function RowsTo(outbox: map<RowId, OutRow>, hi: nat): seq<Row> {
    if hi == 0 then []
    else if hi - 1 in outbox then RowsTo(outbox, hi - 1) + [outbox[hi - 1].row]
    else RowsTo(outbox, hi - 1)
  }

  function Rows(s: State): seq<Row> {
    RowsTo(s.outbox, s.nextId)
  }

  // ---- the outbox in id order ----

  lemma {:induction false} RowsToRow(outbox: map<RowId, OutRow>, hi: nat, k: nat)
    requires forall id :: id in outbox ==> outbox[id].row.id == id
    requires k < |RowsTo(outbox, hi)|
    ensures IsRow(outbox, RowsTo(outbox, hi)[k]) && RowsTo(outbox, hi)[k].id < hi
  {
    if k < |RowsTo(outbox, hi - 1)| { RowsToRow(outbox, hi - 1, k); }
  }

  lemma {:induction false} RowsToAscending(outbox: map<RowId, OutRow>, hi: nat)
    requires forall id :: id in outbox ==> outbox[id].row.id == id
    ensures Ascending(RowsTo(outbox, hi))
  {
    if hi > 0 {
      RowsToAscending(outbox, hi - 1);
      var front := RowsTo(outbox, hi - 1);
      forall k | 0 <= k < |front| ensures front[k].id < hi - 1 {
        RowsToRow(outbox, hi - 1, k);
      }
    }
  }

  lemma {:induction false} RowsToPrefix(outbox: map<RowId, OutRow>, lo: nat, hi: nat)
    requires lo <= hi
    ensures RowsTo(outbox, lo) <= RowsTo(outbox, hi)
  {
    if lo < hi { RowsToPrefix(outbox, lo, hi - 1); }
  }

  /** The rows with an id below id are those in front of it. */
  lemma {:induction false} RowsToIndex(outbox: map<RowId, OutRow>, id: RowId, hi: nat, i: nat)
    requires forall x :: x in outbox ==> outbox[x].row.id == x
    requires id <= hi && i < |RowsTo(outbox, hi)|
    ensures i < |RowsTo(outbox, id)| <==> RowsTo(outbox, hi)[i].id < id
  {
    RowsToPrefix(outbox, id, hi);
    if id < hi {
      if i < |RowsTo(outbox, hi - 1)| {
        RowsToIndex(outbox, id, hi - 1, i);
        RowsToPrefix(outbox, hi - 1, hi);
      } else {
        RowsToPrefix(outbox, id, hi - 1);
      }
    } else {
      RowsToRow(outbox, hi, i);
    }
  }

  function InsertAt<T>(s: seq<T>, q: nat, x: T): seq<T>
    requires q <= |s|
  {
    s[..q] + [x] + s[q..]
  }

  /** A newly committed row takes its place behind the rows with smaller ids. */
  lemma {:induction false} RowsToCommit(outbox: map<RowId, OutRow>, id: RowId, r: OutRow, hi: nat)
    requires id !in outbox
    ensures id >= hi ==> RowsTo(outbox[id := r], hi) == RowsTo(outbox, hi)
    ensures id < hi ==>
      && |RowsTo(outbox, id)| <= |RowsTo(outbox, hi)|
      && RowsTo(outbox[id := r], hi) == InsertAt(RowsTo(outbox, hi), |RowsTo(outbox, id)|, r.row)
  {
    if hi > 0 {
      RowsToCommit(outbox, id, r, hi - 1);
    }
  }

  lemma {:induction false} RowsToMark(outbox: map<RowId, OutRow>, batch: seq<Row>, hi: nat)
    ensures RowsTo(MarkPublished(outbox, batch), hi) == RowsTo(outbox, hi)
  {
    if hi > 0 { RowsToMark(outbox, batch, hi - 1); }
  }

  /** The unpublished rows with an id of at least lo, in id order. */
  function UnpublishedFrom(outbox: map<RowId, OutRow>, lo: nat, hi: nat): seq<Row>
    decreases hi - lo
  {
    if lo >= hi then []
    else if lo in outbox && !outbox[lo].published
    then [outbox[lo].row] + UnpublishedFrom(outbox, lo + 1, hi)
    else UnpublishedFrom(outbox, lo + 1, hi)
  }

  function Backlog(s: State): seq<Row> {
    UnpublishedFrom(s.outbox, 0, s.nextId)
  }

  /** With no row locked, the relay's query returns the first n unpublished rows. */
  lemma {:induction false} SelectUnlocked(s: State, lo: nat, n: nat)
    requires forall w :: 0 <= w < |s.workers| ==> s.workers[w].Idle?
    ensures var u := UnpublishedFrom(s.outbox, lo, s.nextId);
      Select(s, lo, n) == u[..Min(n, |u|)]
    decreases s.nextId - lo
  {
    if n != 0 && lo < s.nextId {
      SelectUnlocked(s, lo + 1, if Available(s, lo) then n - 1 else n);
    }
  }

  /** Rows k, k+1, ... of the outbox are the unpublished ones. */
  ghost predicate PublishedPrefix(outbox: map<RowId, OutRow>, rows: seq<Row>, k: nat) {
    forall i :: 0 <= i < |rows| ==> rows[i].id in outbox && (outbox[rows[i].id].published <==> i < k)
  }

  lemma {:induction false} UnpublishedIsSuffix(outbox: map<RowId, OutRow>, lo: nat, hi: nat, k: nat)
    requires forall id :: id in outbox ==> outbox[id].row.id == id
    requires lo <= hi && k <= |RowsTo(outbox, hi)|
    requires PublishedPrefix(outbox, RowsTo(outbox, hi), k)
    ensures var rows, i := RowsTo(outbox, hi), |RowsTo(outbox, lo)|;
      i <= |rows| && UnpublishedFrom(outbox, lo, hi) == rows[if i < k then k else i..]
    decreases hi - lo
  {
    RowsToPrefix(outbox, lo, hi);
    if lo < hi {
      RowsToPrefix(outbox, lo + 1, hi);
      UnpublishedIsSuffix(outbox, lo + 1, hi, k);
      var rows, i := RowsTo(outbox, hi), |RowsTo(outbox, lo)|;
      if lo in outbox {
        assert rows[i] == RowsTo(outbox, lo + 1)[i] == outbox[lo].row;
      }
    }
  }

  // ---- one relay publishes in id order ----

  function OnlyWorker(workers: seq<Worker>): Worker {
    if |workers| == 1 then workers[0] else Idle
  }

  ghost predicate TickAt(t: Worker, rows: seq<Row>, k: nat, j: nat) {
    t.Tick? ==>
      && k + |t.batch| <= |rows| && t.batch == rows[k..k + |t.batch|]
      && t.sent <= |t.batch| && k + t.sent <= j
  }

  ghost predicate LimboBelow(limbo: seq<Row>, rows: seq<Row>, j: nat) {
    forall r :: r in limbo ==> exists i :: 0 <= i < |rows| && i <= j && rows[i] == r
  }

  /**
   k rows are marked, j rows have reached the log at least once, and keeping the first occurrence of each
   event in the log gives the first j rows of the outbox in id order.
   */
  ghost predicate InOrder(s: State, k: nat, j: nat) {
    var rows := Rows(s);
    && |s.workers| <= 1
    && k <= j <= |rows|
    && PublishedPrefix(s.outbox, rows, k)
    && TickAt(OnlyWorker(s.workers), rows, k, j)
    && LimboBelow(s.limbo, rows, j)
    && FirstOccurrences(LogEvents(s.log)) == EventIds(rows[..j])
  }

  lemma EventAmong(rows: seq<Row>, j: nat, p: nat)
    requires p <= j <= |rows| && p < |rows| && Distinct(EventIds(rows))
    ensures rows[p].eventId in EventIds(rows[..j]) <==> p < j
  {
    assert forall i :: 0 <= i < j ==> EventIds(rows[..j])[i] == EventIds(rows)[i];
    assert EventIds(rows)[p] == rows[p].eventId;
    if p < j { assert EventIds(rows[..j])[p] == rows[p].eventId; }
  }

  lemma EventIdsSnoc(rows: seq<Row>, j: nat)
    requires j < |rows|
    ensures EventIds(rows[..j + 1]) == EventIds(rows[..j]) + [rows[j].eventId]
  {
  }

  /** Appending row p <= j to the log keeps the order: it is either a duplicate or the next row. */
  lemma AppendInOrder(rows: seq<Row>, log: seq<Message>, j: nat, p: nat)
    requires p <= j <= |rows| && p < |rows| && Distinct(EventIds(rows))
    requires FirstOccurrences(LogEvents(log)) == EventIds(rows[..j])
    ensures var j' := if p == j then j + 1 else j;
      FirstOccurrences(LogEvents(log + [MessageOf(rows[p])])) == EventIds(rows[..j'])
  {
    var e := rows[p].eventId;
    LogEventsSnoc(log, MessageOf(rows[p]));
    FirstOccurrencesSnoc(LogEvents(log), e);
    FirstOccurrencesMembers(LogEvents(log), e);
    EventAmong(rows, j, p);
    if p == j { EventIdsSnoc(rows, j); }
  }

  lemma RowEventsDistinct(s: State)
    requires Inv(s)
    ensures Distinct(EventIds(Rows(s)))
  {
    var rows := Rows(s);
    RowsToAscending(s.outbox, s.nextId);
    forall i, j | 0 <= i < j < |rows| ensures EventIds(rows)[i] != EventIds(rows)[j] {
      RowsToRow(s.outbox, s.nextId, i);
      RowsToRow(s.outbox, s.nextId, j);
    }
  }

  /** A row has been taken once it is in the log, locked by a tick, or possibly on its way to the broker. */
  ghost predicate Taken(s: State, id: RowId) {
    && id in s.outbox
    && (MessageOf(s.outbox[id].row) in s.log || s.outbox[id].row in s.limbo || IsLocked(s.workers, id))
  }

  /** The hypothesis of the ordering theorem: no row becomes visible below one that has been taken. */
  ghost predicate CommitsAboveTaken(s: State, a: Action) {
    a.Commit? ==> forall i: RowId :: Taken(s, i) ==> i < a.id
  }

  ghost predicate NothingOvertaken(b: nat, s: State, acts: seq<Action>)
    decreases |acts|
  {
    acts == [] ||
    var front := acts[..|acts| - 1];
    && NothingOvertaken(b, s, front)
    && match Run(b, s, front) case None => true case Some(t) => CommitsAboveTaken(t, acts[|acts| - 1])
  }

  /** A stronger hypothesis that does not look at the relay: rows become visible in id order. */
  predicate CommitsLast(s: State, a: Action) {
    a.Commit? ==> forall i :: i in s.outbox ==> i < a.id
  }

  predicate CommitsInIdOrder(b: nat, s: State, acts: seq<Action>)
    decreases |acts|
  {
    acts == [] ||
    var front := acts[..|acts| - 1];
    && CommitsInIdOrder(b, s, front)
    && match Run(b, s, front) case None => true case Some(t) => CommitsLast(t, acts[|acts| - 1])
  }

  lemma {:induction false} IdOrderOvertakesNothing(b: nat, s: State, acts: seq<Action>)
    requires CommitsInIdOrder(b, s, acts)
    ensures NothingOvertaken(b, s, acts)
    decreases |acts|
  {
    if acts != [] { IdOrderOvertakesNothing(b, s, acts[..|acts| - 1]); }
  }

  /** The batch a single idle relay locks is the next stretch of the outbox. */
  lemma NextBatch(b: nat, s: State, k: nat) returns (n: nat)
    requires TablesOk(s.orders, s.outbox, s.nextId)
    requires forall w :: 0 <= w < |s.workers| ==> s.workers[w].Idle?
    requires k <= |Rows(s)| && PublishedPrefix(s.outbox, Rows(s), k)
    ensures n == |Select(s, 0, b)| && k + n <= |Rows(s)| && Select(s, 0, b) == Rows(s)[k..k + n]
  {
    SelectUnlocked(s, 0, b);
    UnpublishedIsSuffix(s.outbox, 0, s.nextId, k);
    n := |Select(s, 0, b)|;
    assert Rows(s)[k..][..n] == Rows(s)[k..k + n];
  }

  lemma LockInOrder(b: nat, s: State, w: nat, k: nat, j: nat)
    requires TablesOk(s.orders, s.outbox, s.nextId) && InOrder(s, k, j) && Enabled(s, Lock(w))
    ensures InOrder(Apply(b, s, Lock(w)), k, j)
  {
    var n := NextBatch(b, s, k);
  }

  /** A larger j leaves room for more. */
  lemma InOrderLater(t: Worker, limbo: seq<Row>, rows: seq<Row>, k: nat, j: nat, j': nat)
    requires TickAt(t, rows, k, j) && LimboBelow(limbo, rows, j) && j <= j'
    ensures TickAt(t, rows, k, j') && LimboBelow(limbo, rows, j')
  {
    forall r | r in limbo ensures exists i :: 0 <= i < |rows| && i <= j' && rows[i] == r {
      var i :| 0 <= i < |rows| && i <= j && rows[i] == r;
      assert i <= j';
    }
  }

  lemma SendMoves(b: nat, s: State, w: nat, k: nat, j: nat, j': nat)
    requires InOrder(s, k, j) && Enabled(s, Send(w)) && j <= j' <= |Rows(s)|
    requires var t := OnlyWorker(s.workers);
      && k + t.sent < j' && LimboBelow(s.limbo, Rows(s), j')
      && FirstOccurrences(LogEvents(s.log + [MessageOf(t.batch[t.sent])])) == EventIds(Rows(s)[..j'])
    ensures InOrder(Apply(b, s, Send(w)), k, j')
  {
    assert OnlyWorker(s.workers) == s.workers[w];
  }

  lemma NextOfBatch(t: Worker, rows: seq<Row>, k: nat, j: nat)
    requires t.Tick? && TickAt(t, rows, k, j) && t.sent < |t.batch|
    ensures k + t.sent < |rows| && t.batch[t.sent] == rows[k + t.sent]
  {
  }

  lemma SendInOrder(b: nat, s: State, w: nat, k: nat, j: nat) returns (j': nat)
    requires Distinct(EventIds(Rows(s))) && InOrder(s, k, j) && Enabled(s, Send(w))
    ensures InOrder(Apply(b, s, Send(w)), k, j')
  {
    var rows, t := Rows(s), OnlyWorker(s.workers);
    NextOfBatch(t, rows, k, j);
    AppendInOrder(rows, s.log, j, k + t.sent);
    j' := if k + t.sent == j then j + 1 else j;
    InOrderLater(t, s.limbo, rows, k, j, j');
    SendMoves(b, s, w, k, j, j');
  }

  lemma LimboShrinks(limbo: seq<Row>, i: nat, rows: seq<Row>, j: nat)
    requires i < |limbo| && LimboBelow(limbo, rows, j)
    ensures LimboBelow(RemoveAt(limbo, i), rows, j)
  {
    forall r | r in RemoveAt(limbo, i) ensures r in limbo {
    }
  }

  lemma LateAppendInOrder(b: nat, s: State, i: nat, k: nat, j: nat) returns (j': nat)
    requires Distinct(EventIds(Rows(s))) && InOrder(s, k, j) && Enabled(s, LateAppend(i))
    ensures InOrder(Apply(b, s, LateAppend(i)), k, j')
  {
    var rows, r := Rows(s), s.limbo[i];
    assert r in s.limbo;
    var p :| 0 <= p < |rows| && p <= j && rows[p] == r;
    AppendInOrder(rows, s.log, j, p);
    j' := if p == j then j + 1 else j;
    InOrderLater(OnlyWorker(s.workers), s.limbo, rows, k, j, j');
    LimboShrinks(s.limbo, i, rows, j');
  }

  lemma RaiseInOrder(b: nat, s: State, w: nat, k: nat, j: nat)
    requires InOrder(s, k, j) && Enabled(s, Raise(w))
    ensures InOrder(Apply(b, s, Raise(w)), k, j)
  {
    var rows, t := Rows(s), s.workers[w];
    assert t.batch[t.sent] == rows[k + t.sent];
  }

  /** Marking the next batch lengthens the published prefix. */
  lemma MarkPrefix(outbox: map<RowId, OutRow>, rows: seq<Row>, batch: seq<Row>, k: nat)
    requires PublishedPrefix(outbox, rows, k) && Ascending(rows)
    requires k + |batch| <= |rows| && batch == rows[k..k + |batch|]
    ensures PublishedPrefix(MarkPublished(outbox, batch), rows, k + |batch|)
  {
    forall i | 0 <= i < |rows|
      ensures (exists r :: r in batch && r.id == rows[i].id) <==> k <= i < k + |batch|
    {
      if k <= i < k + |batch| {
        assert batch[i - k] in batch && batch[i - k] == rows[i];
      }
      forall r | r in batch && r.id == rows[i].id ensures k <= i < k + |batch| {
        var q :| 0 <= q < |batch| && batch[q] == r;
        assert r == rows[k + q];
      }
    }
  }

  lemma MarkInOrder(b: nat, s: State, w: nat, k: nat, j: nat) returns (k': nat)
    requires TablesOk(s.orders, s.outbox, s.nextId) && InOrder(s, k, j) && Enabled(s, Mark(w))
    ensures InOrder(Apply(b, s, Mark(w)), k', j)
  {
    var batch := s.workers[w].batch;
    k' := k + |batch|;
    RowsToMark(s.outbox, batch, s.nextId);
    RowsToAscending(s.outbox, s.nextId);
    MarkPrefix(s.outbox, Rows(s), batch, k);
  }

  lemma CommitPrefix(outbox: map<RowId, OutRow>, rows: seq<Row>, q: nat, r: Row, k: nat)
    requires PublishedPrefix(outbox, rows, k) && r.id !in outbox && k <= q <= |rows|
    ensures PublishedPrefix(outbox[r.id := OutRow(r, false)], InsertAt(rows, q, r), k)
  {
    var rows' := InsertAt(rows, q, r);
    forall i | 0 <= i < |rows'| && i != q ensures rows'[i] == rows[if i < q then i else i - 1] {
    }
  }

  lemma LimboGrows(limbo: seq<Row>, rows: seq<Row>, q: nat, x: Row, j: nat)
    requires LimboBelow(limbo, rows, j) && q <= |rows|
    requires forall i :: 0 <= i < |rows| && rows[i] in limbo ==> i < q
    ensures LimboBelow(limbo, InsertAt(rows, q, x), j)
  {
    var rows' := InsertAt(rows, q, x);
    forall r | r in limbo ensures exists i :: 0 <= i < |rows'| && i <= j && rows'[i] == r {
      var i :| 0 <= i < |rows| && i <= j && rows[i] == r;
      assert rows'[i] == r;
    }
  }

  lemma {:induction false} LogEventsMembers(log: seq<Message>, e: EventId)
    ensures e in LogEvents(log) <==> exists m :: m in log && m.eventId == Some(e)
  {
    if log != [] {
      var n := |log| - 1;
      LogEventsMembers(log[..n], e);
      assert log == log[..n] + [log[n]];
      assert log[n] in log;
    }
  }

  /** An event is in the log only as the message of its row. */
  lemma LoggedRow(s: State, id: RowId)
    requires Inv(s) && id in s.outbox
    ensures s.outbox[id].row.eventId in LogEvents(s.log) <==> MessageOf(s.outbox[id].row) in s.log
  {
    var e := s.outbox[id].row.eventId;
    LogEventsMembers(s.log, e);
    if e in LogEvents(s.log) {
      var m :| m in s.log && m.eventId == Some(e);
      assert FromRow(s.outbox, m);
      var i :| i in s.outbox && m == MessageOf(s.outbox[i].row);
    }
  }

  /** The first j rows are in the log, so they have been taken. */
  lemma SentIsTaken(s: State, k: nat, j: nat, i: nat)
    requires Inv(s) && InOrder(s, k, j) && i < j
    ensures Taken(s, Rows(s)[i].id)
  {
    var e := Rows(s)[i].eventId;
    RowsToRow(s.outbox, s.nextId, i);
    assert EventIds(Rows(s)[..j])[i] == e;
    FirstOccurrencesMembers(LogEvents(s.log), e);
    LoggedRow(s, Rows(s)[i].id);
  }

  /** A row of the open batch has been taken. */
  lemma LockedIsTaken(s: State, k: nat, j: nat, i: nat)
    requires Inv(s) && InOrder(s, k, j)
    requires var t := OnlyWorker(s.workers); t.Tick? && k <= i < k + |t.batch|
    ensures i < |Rows(s)| && Taken(s, Rows(s)[i].id)
  {
    var t := s.workers[0];
    assert t.batch[i - k] == Rows(s)[i] && t.batch[i - k] in t.batch;
    RowsToRow(s.outbox, s.nextId, i);
    assert Locks(s.workers[0], Rows(s)[i].id);
  }

  ghost predicate AllTakenBelow(s: State, id: RowId) {
    forall i: RowId :: Taken(s, i) ==> i < id
  }

  lemma SentBelow(s: State, id: RowId, k: nat, j: nat)
    requires Inv(s) && InOrder(s, k, j) && AllTakenBelow(s, id) && j > 0
    ensures Rows(s)[j - 1].id < id
  {
    SentIsTaken(s, k, j, j - 1);
  }

  lemma BatchBelow(s: State, id: RowId, k: nat, j: nat)
    requires Inv(s) && InOrder(s, k, j) && AllTakenBelow(s, id)
    requires OnlyWorker(s.workers).Tick? && |OnlyWorker(s.workers).batch| > 0
    ensures var n := k + |OnlyWorker(s.workers).batch|;
      n <= |Rows(s)| && Rows(s)[n - 1].id < id
  {
    var i := k + |OnlyWorker(s.workers).batch| - 1;
    LockedIsTaken(s, k, j, i);
    assert Taken(s, Rows(s)[i].id);
  }

  lemma LimboRowsBelow(s: State, id: RowId)
    requires LimboOk(s.outbox, s.limbo) && AllTakenBelow(s, id)
    ensures forall r :: r in s.limbo ==> r.id < id
  {
    forall r | r in s.limbo ensures r.id < id {
      assert IsRow(s.outbox, r);
      assert Taken(s, r.id);
    }
  }

  /** A stretch of rows whose last id is smaller lies in front of the place of id. */
  lemma PlaceBehind(outbox: map<RowId, OutRow>, id: RowId, hi: nat, n: nat)
    requires forall x :: x in outbox ==> outbox[x].row.id == x
    requires id <= hi && n <= |RowsTo(outbox, hi)| && (n > 0 ==> RowsTo(outbox, hi)[n - 1].id < id)
    ensures n <= |RowsTo(outbox, id)|
  {
    if n > 0 { RowsToIndex(outbox, id, hi, n - 1); }
  }

  lemma PlaceBehindLimbo(outbox: map<RowId, OutRow>, limbo: seq<Row>, id: RowId, hi: nat)
    requires forall x :: x in outbox ==> outbox[x].row.id == x
    requires id <= hi && forall r :: r in limbo ==> r.id < id
    ensures forall i :: 0 <= i < |RowsTo(outbox, hi)| && RowsTo(outbox, hi)[i] in limbo ==> i < |RowsTo(outbox, id)|
  {
    forall i | 0 <= i < |RowsTo(outbox, hi)| && RowsTo(outbox, hi)[i] in limbo ensures i < |RowsTo(outbox, id)| {
      RowsToIndex(outbox, id, hi, i);
    }
  }

  /** A row committed above all taken ones has its place behind the first j rows, behind the batch, behind limbo. */
  lemma BehindSent(s: State, id: RowId, k: nat, j: nat)
    requires Inv(s) && InOrder(s, k, j) && AllTakenBelow(s, id) && id <= s.nextId
    ensures j <= |RowsTo(s.outbox, id)| <= |Rows(s)|
  {
    RowsToPrefix(s.outbox, id, s.nextId);
    if j > 0 { SentBelow(s, id, k, j); }
    PlaceBehind(s.outbox, id, s.nextId, j);
  }

  lemma BehindRow(s: State, id: RowId, n: nat)
    requires TablesOk(s.orders, s.outbox, s.nextId) && id <= s.nextId
    requires 0 < n <= |Rows(s)| && Rows(s)[n - 1].id < id
    ensures n <= |RowsTo(s.outbox, id)|
  {
    PlaceBehind(s.outbox, id, s.nextId, n);
  }

  lemma BehindLimbo(s: State, id: RowId)
    requires Inv(s) && AllTakenBelow(s, id) && id <= s.nextId
    ensures forall i :: 0 <= i < |Rows(s)| && Rows(s)[i] in s.limbo ==> i < |RowsTo(s.outbox, id)|
  {
    LimboRowsBelow(s, id);
    PlaceBehindLimbo(s.outbox, s.limbo, id, s.nextId);
  }

  lemma CommitAtPlace(b: nat, s: State, id: RowId, k: nat, j: nat, q: nat)
    requires OpenOk(s.open, s.outbox, s.nextId) && InOrder(s, k, j) && Enabled(s, Commit(id))
    requires q == |RowsTo(s.outbox, id)| && j <= q <= |Rows(s)|
    requires var t := OnlyWorker(s.workers); t.Tick? && |t.batch| > 0 ==> k + |t.batch| <= q
    requires forall i :: 0 <= i < |Rows(s)| && Rows(s)[i] in s.limbo ==> i < q
    ensures InOrder(Apply(b, s, Commit(id)), k, j)
  {
    var r, rows := s.open[id].row, Rows(s);
    RowsToCommit(s.outbox, id, OutRow(r, false), s.nextId);
    var rows' := InsertAt(rows, q, r);
    assert rows'[..j] == rows[..j];
    CommitPrefix(s.outbox, rows, q, r, k);
    LimboGrows(s.limbo, rows, q, r, j);
    var t := OnlyWorker(s.workers);
    if t.Tick? {
      assert rows'[k..k + |t.batch|] == rows[k..k + |t.batch|];
    }
  }

  lemma CommitInOrder(b: nat, s: State, id: RowId, k: nat, j: nat)
    requires Inv(s) && InOrder(s, k, j) && Enabled(s, Commit(id)) && CommitsAboveTaken(s, Commit(id))
    ensures InOrder(Apply(b, s, Commit(id)), k, j)
  {
    assert AllTakenBelow(s, id);
    BehindSent(s, id, k, j);
    var t := OnlyWorker(s.workers);
    if t.Tick? && |t.batch| > 0 {
      BatchBelow(s, id, k, j);
      BehindRow(s, id, k + |t.batch|);
    }
    BehindLimbo(s, id);
    CommitAtPlace(b, s, id, k, j, |RowsTo(s.outbox, id)|);
  }

  lemma BeginInOrder(b: nat, s: State, a: Action, k: nat, j: nat)
    requires TablesOk(s.orders, s.outbox, s.nextId) && InOrder(s, k, j) && a.Begin?
    ensures InOrder(Apply(b, s, a), k, j)
  {
    assert s.nextId !in s.outbox;
    assert Rows(Apply(b, s, a)) == Rows(s);
  }

  lemma StepInOrder(b: nat, s: State, a: Action, k: nat, j: nat) returns (k': nat, j': nat)
    requires Inv(s) && InOrder(s, k, j) && Enabled(s, a) && CommitsAboveTaken(s, a)
    ensures InOrder(Apply(b, s, a), k', j')
  {
    k', j' := k, j;
    RowEventsDistinct(s);
    match a
    case Begin(_, _, _, _) => BeginInOrder(b, s, a, k, j);
    case Commit(id) => CommitInOrder(b, s, id, k, j);
    case Abort(id) =>
    case Lock(w) => LockInOrder(b, s, w, k, j);
    case Send(w) => j' := SendInOrder(b, s, w, k, j);
    case Raise(w) => RaiseInOrder(b, s, w, k, j);
    case Rollback(w) =>
    case Mark(w) => k' := MarkInOrder(b, s, w, k, j);
    case LateAppend(i) => j' := LateAppendInOrder(b, s, i, k, j);
  }

  lemma {:induction false} RunInOrder(b: nat, relays: nat, acts: seq<Action>) returns (k: nat, j: nat)
    requires relays <= 1 && Run(b, Init(relays), acts).Some? && NothingOvertaken(b, Init(relays), acts)
    ensures InOrder(Run(b, Init(relays), acts).value, k, j)
  {
    if acts == [] {
      k, j := 0, 0;
    } else {
      var front := acts[..|acts| - 1];
      RunInvariant(b, relays, front);
      k, j := RunInOrder(b, relays, front);
      k, j := StepInOrder(b, Run(b, Init(relays), front).value, acts[|acts| - 1], k, j);
    }
  }

  /** The log without its repetitions is a prefix of the outbox in id order. */
  ghost predicate InIdOrder(s: State) {
    FirstOccurrences(LogEvents(s.log)) <= EventIds(Rows(s))
  }

  /**
   With one relay and no row committed below one already taken, the log without its repetitions is in every
   reachable state a prefix of the outbox in id order.
   */
  lemma {:induction false} PublishedInIdOrder(b: nat, relays: nat, acts: seq<Action>)
    requires relays <= 1 && Run(b, Init(relays), acts).Some? && NothingOvertaken(b, Init(relays), acts)
    ensures InIdOrder(Run(b, Init(relays), acts).value)
  {
    var k, j := RunInOrder(b, relays, acts);
    var rows := Rows(Run(b, Init(relays), acts).value);
    assert EventIds(rows[..j]) == EventIds(rows)[..j];
  }

  // ---- the same order within a partition ----

  function SelectedRows(rows: seq<Row>, keep: OrderId -> bool): seq<Row> {
    if rows == [] then []
    else
      var last := rows[|rows| - 1];
      SelectedRows(rows[..|rows| - 1], keep) + (if keep(last.aggregateId) then [last] else [])
  }

  function SelectedEvents(outbox: map<RowId, OutRow>, keep: OrderId -> bool): set<EventId> {
    set id | id in outbox && keep(outbox[id].row.aggregateId) :: outbox[id].row.eventId
  }

  lemma RowSelected(s: State, id: RowId, keep: OrderId -> bool)
    requires Inv(s) && id in s.outbox
    ensures s.outbox[id].row.eventId in SelectedEvents(s.outbox, keep) <==> keep(s.outbox[id].row.aggregateId)
  {
  }

  lemma MessageSelected(s: State, m: Message, keep: OrderId -> bool)
    requires Inv(s) && FromRow(s.outbox, m)
    ensures m.eventId.Some? && (m.eventId.value in SelectedEvents(s.outbox, keep) <==> keep(m.key))
  {
    var id :| id in s.outbox && m == MessageOf(s.outbox[id].row);
    RowSelected(s, id, keep);
  }

  lemma {:induction false} SelectedLogEvents(log: seq<Message>, keep: OrderId -> bool, events: set<EventId>)
    requires forall m :: m in log ==> m.eventId.Some? && (m.eventId.value in events <==> keep(m.key))
    ensures LogEvents(Selected(log, keep)) == Filter(LogEvents(log), events)
  {
    if log != [] {
      var front, m := log[..|log| - 1], log[|log| - 1];
      SelectedLogEvents(front, keep, events);
      LogEventsSnoc(Selected(front, keep), m);
      FilterSnoc(LogEvents(front), m.eventId.value, events);
      assert Selected(log, keep) == if keep(m.key) then Selected(front, keep) + [m] else Selected(front, keep);
    }
  }

  lemma {:induction false} SelectedRowEvents(rows: seq<Row>, keep: OrderId -> bool, events: set<EventId>)
    requires forall i :: 0 <= i < |rows| ==> (rows[i].eventId in events <==> keep(rows[i].aggregateId))
    ensures EventIds(SelectedRows(rows, keep)) == Filter(EventIds(rows), events)
  {
    if rows != [] {
      var n := |rows| - 1;
      SelectedRowEvents(rows[..n], keep, events);
      assert EventIds(rows)[..n] == EventIds(rows[..n]);
    }
  }

  /** The records of the selected keys, without repetitions, are a prefix of their rows in id order. */
  ghost predicate InIdOrderWithin(s: State, keep: OrderId -> bool) {
    FirstOccurrences(LogEvents(Selected(s.log, keep))) <= EventIds(SelectedRows(Rows(s), keep))
  }

  lemma SelectionInIdOrder(s: State, keep: OrderId -> bool)
    requires Inv(s) && InIdOrder(s)
    ensures InIdOrderWithin(s, keep)
  {
    var events := SelectedEvents(s.outbox, keep);
    forall m | m in s.log ensures m.eventId.Some? && (m.eventId.value in events <==> keep(m.key)) {
      MessageSelected(s, m, keep);
    }
    SelectedLogEvents(s.log, keep, events);
    FirstOccurrencesFilter(LogEvents(s.log), events);
    FilterPrefix(FirstOccurrences(LogEvents(s.log)), EventIds(Rows(s)), events);
    forall i | 0 <= i < |Rows(s)| ensures Rows(s)[i].eventId in events <==> keep(Rows(s)[i].aggregateId) {
      RowsToRow(s.outbox, s.nextId, i);
      RowSelected(s, Rows(s)[i].id, keep);
    }
    SelectedRowEvents(Rows(s), keep, events);
  }

  /** The order also holds within every partition, or any other selection of keys. */
  lemma {:induction false} PublishedInIdOrderPerPartition(b: nat, relays: nat, acts: seq<Action>, keep: OrderId -> bool)
    requires relays <= 1 && Run(b, Init(relays), acts).Some? && NothingOvertaken(b, Init(relays), acts)
    ensures InIdOrderWithin(Run(b, Init(relays), acts).value, keep)
  {
    RunInvariant(b, relays, acts);
    PublishedInIdOrder(b, relays, acts);
    SelectionInIdOrder(Run(b, Init(relays), acts).value, keep);
  }

  // ---- rows of one key ----

  ghost predicate OneKey(keep: OrderId -> bool) {
    forall o, o' :: keep(o) && keep(o') ==> o == o'
  }

  lemma SelectedRowsNext(outbox: map<RowId, OutRow>, hi: nat, keep: OrderId -> bool)
    requires hi > 0
    ensures SelectedRows(RowsTo(outbox, hi), keep) == SelectedRows(RowsTo(outbox, hi - 1), keep)
      + (if hi - 1 in outbox && keep(outbox[hi - 1].row.aggregateId) then [outbox[hi - 1].row] else [])
  {
    if hi - 1 in outbox {
      var rows := RowsTo(outbox, hi);
      assert rows[..|rows| - 1] == RowsTo(outbox, hi - 1);
    }
  }

  lemma {:induction false} OneRowBelow(s: State, hi: nat, keep: OrderId -> bool)
    requires TablesOk(s.orders, s.outbox, s.nextId) && OneKey(keep)
    ensures var own := SelectedRows(RowsTo(s.outbox, hi), keep);
      |own| <= 1 && (own != [] ==> own[0].id < hi && IsRow(s.outbox, own[0]) && keep(own[0].aggregateId))
  {
    if hi > 0 {
      OneRowBelow(s, hi - 1, keep);
      SelectedRowsNext(s.outbox, hi, keep);
    }
  }

  /** With any number of relays a key has at most one row, so within a key there is one event to order. */
  lemma OneRowPerKey(b: nat, relays: nat, acts: seq<Action>, key: OrderId)
    requires Run(b, Init(relays), acts).Some?
    ensures |SelectedRows(Rows(Run(b, Init(relays), acts).value), (o: OrderId) => o == key)| <= 1
  {
    RunInvariant(b, relays, acts);
    var s := Run(b, Init(relays), acts).value;
    OneRowBelow(s, s.nextId, (o: OrderId) => o == key);
  }

  // ---- draining a backlog ----

  function Sends(w: nat, n: nat): seq<Action> {
    seq(n, _ => Send(w))
  }

  /** The actions of a tick in which nothing raises: lock a batch, send it, mark it. */
  function SuccessfulTick(b: nat, s: State, w: nat): seq<Action> {
    var n := |Select(s, 0, b)|;
    if n == 0 then [Lock(w)] else [Lock(w)] + Sends(w, n) + [Mark(w)]
  }

  lemma RunSnoc(b: nat, s: State, acts: seq<Action>, a: Action)
    requires Run(b, s, acts).Some? && Enabled(Run(b, s, acts).value, a)
    ensures Run(b, s, acts + [a]) == Some(Apply(b, Run(b, s, acts).value, a))
  {
    assert (acts + [a])[..|acts|] == acts;
  }

  ghost predicate AllIdle(s: State) {
    forall v :: 0 <= v < |s.workers| ==> s.workers[v].Idle?
  }

  function Messages(rows: seq<Row>): seq<Message> {
    seq(|rows|, i requires 0 <= i < |rows| => MessageOf(rows[i]))
  }

  /** The state with n rows of a batch sent. */
  function MidTick(s: State, w: nat, batch: seq<Row>, n: nat): State
    requires w < |s.workers| && n <= |batch|
  {
    s.(workers := s.workers[w := Tick(batch, n)], log := s.log + Messages(batch[..n]))
  }

  lemma NextSend(b: nat, s: State, w: nat, batch: seq<Row>, n: nat)
    requires w < |s.workers| && 0 < n <= |batch|
    ensures Enabled(MidTick(s, w, batch, n - 1), Send(w))
    ensures Apply(b, MidTick(s, w, batch, n - 1), Send(w)) == MidTick(s, w, batch, n)
  {
    assert Messages(batch[..n]) == Messages(batch[..n - 1]) + [MessageOf(batch[n - 1])];
    assert s.workers[w := Tick(batch, n - 1)][w := Tick(batch, n)] == s.workers[w := Tick(batch, n)];
  }

  /** The state in the middle of a tick: n rows of the batch are sent. */
  lemma {:induction false} LockAndSends(b: nat, s: State, w: nat, n: nat)
    requires AllIdle(s) && w < |s.workers| && 0 < |Select(s, 0, b)| && n <= |Select(s, 0, b)|
    ensures Run(b, s, [Lock(w)] + Sends(w, n)) == Some(MidTick(s, w, Select(s, 0, b), n))
  {
    var batch := Select(s, 0, b);
    if n == 0 {
      assert [Lock(w)] + Sends(w, 0) == [] + [Lock(w)];
      RunSnoc(b, s, [], Lock(w));
      assert s.log + Messages(batch[..0]) == s.log;
    } else {
      LockAndSends(b, s, w, n - 1);
      assert [Lock(w)] + Sends(w, n) == [Lock(w)] + Sends(w, n - 1) + [Send(w)];
      NextSend(b, s, w, batch, n);
      RunSnoc(b, s, [Lock(w)] + Sends(w, n - 1), Send(w));
    }
  }

  /** Marking publishes a row exactly when the batch holds one with its id. */
  lemma MarkAt(outbox: map<RowId, OutRow>, batch: seq<Row>, id: RowId)
    requires id in outbox
    ensures forall i :: 0 <= i < |batch| && batch[i].id == id ==> MarkPublished(outbox, batch)[id].published
    ensures (forall i :: 0 <= i < |batch| ==> batch[i].id != id) ==> MarkPublished(outbox, batch)[id] == outbox[id]
  {
    forall i | 0 <= i < |batch| && batch[i].id == id ensures MarkPublished(outbox, batch)[id].published {
      assert batch[i] in batch;
    }
  }

  /** Marking the rows of a batch, of which those from c on are the first with ids from lo on, leaves the others. */
  lemma {:induction false} MarkDropsBacklog(outbox: map<RowId, OutRow>, batch: seq<Row>, c: nat, lo: nat, hi: nat)
    requires forall id :: id in outbox ==> outbox[id].row.id == id
    requires c <= |batch| && batch[c..] <= UnpublishedFrom(outbox, lo, hi)
    requires forall i :: 0 <= i < c ==> batch[i].id < lo
    ensures UnpublishedFrom(MarkPublished(outbox, batch), lo, hi) == UnpublishedFrom(outbox, lo, hi)[|batch| - c..]
    decreases hi - lo
  {
    if lo < hi {
      if lo !in outbox || outbox[lo].published {
        MarkDropsBacklog(outbox, batch, c, lo + 1, hi);
      } else {
        MarkAt(outbox, batch, lo);
        var u, u' := UnpublishedFrom(outbox, lo, hi), UnpublishedFrom(outbox, lo + 1, hi);
        assert u[1..] == u';
        if c < |batch| {
          assert batch[c] == batch[c..][0] == u[0];
          assert batch[c + 1..] == batch[c..][1..];
          MarkDropsBacklog(outbox, batch, c + 1, lo + 1, hi);
        } else {
          MarkDropsBacklog(outbox, batch, c, lo + 1, hi);
        }
      }
    }
  }

  /** A successful tick appends its batch to the log, in id order, and marks it. */
  lemma SuccessfulTickRuns(b: nat, s: State, w: nat)
    requires AllIdle(s) && w < |s.workers|
    ensures var batch := Select(s, 0, b);
      Run(b, s, SuccessfulTick(b, s, w))
        == Some(s.(log := s.log + Messages(batch), outbox := MarkPublished(s.outbox, batch)))
  {
    var batch := Select(s, 0, b);
    var n := |batch|;
    if n == 0 {
      RunSnoc(b, s, [], Lock(w));
      assert [] + [Lock(w)] == [Lock(w)];
      assert s.log + Messages(batch) == s.log;
      assert MarkPublished(s.outbox, batch) == s.outbox;
    } else {
      LockAndSends(b, s, w, n);
      RunSnoc(b, s, [Lock(w)] + Sends(w, n), Mark(w));
      assert s.workers[w := Tick(batch, n)][w := Idle] == s.workers;
      assert batch[..n] == batch;
    }
  }

  lemma {:induction false} RunKeepsInv(b: nat, s: State, acts: seq<Action>)
    requires Inv(s) && Run(b, s, acts).Some?
    ensures Inv(Run(b, s, acts).value)
  {
    if acts != [] {
      var front := acts[..|acts| - 1];
      RunKeepsInv(b, s, front);
      StepKeepsInv(b, Run(b, s, front).value, acts[|acts| - 1]);
    }
  }

  /** A successful tick publishes the first b rows of the backlog. */
  lemma SuccessfulTickDrains(b: nat, s: State, w: nat)
    requires Inv(s) && AllIdle(s) && w < |s.workers|
    ensures var r := Run(b, s, SuccessfulTick(b, s, w));
      && r.Some? && Inv(r.value) && r.value.workers == s.workers
      && Backlog(r.value) == Backlog(s)[Min(b, |Backlog(s)|)..]
  {
    SuccessfulTickRuns(b, s, w);
    RunKeepsInv(b, s, SuccessfulTick(b, s, w));
    SelectUnlocked(s, 0, b);
    var batch := Select(s, 0, b);
    assert batch[0..] == batch;
    MarkDropsBacklog(s.outbox, batch, 0, 0, s.nextId);
  }

  /** The state after n successful ticks of worker w. */
  function AfterTicks(b: nat, s: State, w: nat, n: nat): Option<State> {
    if n == 0 then Some(s)
    else
      match AfterTicks(b, s, w, n - 1)
      case None => None
      case Some(t) => Run(b, t, SuccessfulTick(b, t, w))
  }

  lemma {:induction false} TicksDrain(b: nat, s: State, w: nat, n: nat)
    requires Inv(s) && AllIdle(s) && w < |s.workers|
    ensures var r := AfterTicks(b, s, w, n);
      && r.Some? && Inv(r.value) && r.value.workers == s.workers
      && Backlog(r.value) == Backlog(s)[Min(n * b, |Backlog(s)|)..]
  {
    if n > 0 {
      TicksDrain(b, s, w, n - 1);
      SuccessfulTickDrains(b, AfterTicks(b, s, w, n - 1).value, w);
      assert n * b == (n - 1) * b + b;
    }
  }

  function CeilDiv(n: nat, b: nat): nat
    requires b > 0
  {
    (n + b - 1) / b
  }

  lemma DivBounds(x: nat, b: nat)
    requires b > 0
    ensures x / b * b <= x < x / b * b + b
  {
  }

  lemma ProductMonotone(k: nat, q: nat, b: nat)
    requires q <= k
    ensures q * b <= k * b
  {
    assert k * b == q * b + (k - q) * b;
  }

  lemma CeilDivLeast(n: nat, b: nat, k: nat)
    requires b > 0
    ensures k * b >= n <==> k >= CeilDiv(n, b)
  {
    var q := CeilDiv(n, b);
    DivBounds(n + b - 1, b);
    if k >= q {
      ProductMonotone(k, q, b);
    } else {
      ProductMonotone(q, k + 1, b);
      assert (k + 1) * b == k * b + b;
    }
  }

  /** A backlog of n rows is empty after k successful ticks exactly when k is at least n / b rounded up. */
  lemma BacklogEmptiesExactly(b: nat, s: State, w: nat, k: nat)
    requires Inv(s) && AllIdle(s) && w < |s.workers| && b > 0
    ensures AfterTicks(b, s, w, k).Some?
    ensures Backlog(AfterTicks(b, s, w, k).value) == [] <==> k >= CeilDiv(|Backlog(s)|, b)
  {
    TicksDrain(b, s, w, k);
    CeilDivLeast(|Backlog(s)|, b, k);
  }
}
