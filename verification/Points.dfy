/**
 The points consumer of chapter 08: look the key up, credit, mark the key, commit.  One consumer process over
 several partitions, which may crash between any two steps and then restarts from the committed offsets.
 */
module Points {
  import opened Sequences

  datatype Message = Message(key: Option<string>, user: Option<string>, points: int)

  const KEY_PREFIX := "idempotency:"

  /** The key used in the store; a missing key is stored as if it were the text "None". */
  function KeyInStore(key: Option<string>): string {
    KEY_PREFIX + (if key.Some? then key.value else "None")
  }

  /** Two keys the store cannot tell apart: the same key, or a missing one and the text "None". */
  predicate SameKey(k: Option<string>, k': Option<string>) {
    k == k' || ((k == None || k == Some("None")) && (k' == None || k' == Some("None")))
  }

  lemma PrefixCancels(p: string, x: string, y: string)
    requires p + x == p + y
    ensures x == y
  {
    assert x == (p + x)[|p|..] && y == (p + y)[|p|..];
  }

  /** Different keys stay different in the store, but for a missing key and the text "None". */
  lemma KeyInStoreIff(k: Option<string>, k': Option<string>)
    ensures KeyInStore(k) == KeyInStore(k') <==> SameKey(k, k')
  {
    var x, y := if k.Some? then k.value else "None", if k'.Some? then k'.value else "None";
    if KeyInStore(k) == KeyInStore(k') { PrefixCancels(KEY_PREFIX, x, y); }
  }

  function StoreKey(m: Message): string {
    KeyInStore(m.key)
  }

  type Balances = map<Option<string>, int>

  datatype Work =
    | Idle
    | Checking(message: Message, partition: nat)
    | Crediting(message: Message, partition: nat)
    | Marking(message: Message, partition: nat)
    | Committing

  /**
   `handled` lists the messages found to be duplicates or marked, in order; `extras` the credits whose mark was
   prevented by a crash.
   */
  datatype State = State(
    processed: set<string>,
    balances: Balances,
    position: map<nat, nat>,
    committed: map<nat, nat>,
    work: Work,
    handled: seq<Message>,
    extras: seq<Message>,
    windowCrashes: nat,
    crashes: nat)

  datatype Action = Poll(partition: nat) | Check | Credit | Mark | Commit | Crash

  /** The partitions of the topic. */
  type Logs = seq<seq<Message>>

  const INIT := State({}, map[], map[], map[], Idle, [], [], 0, 0)

  function OffsetAt(offsets: map<nat, nat>, p: nat): nat {
    if p in offsets then offsets[p] else 0
  }

  function Balance(b: Balances, u: Option<string>): int {
    if u in b then b[u] else 0
  }

  predicate Enabled(logs: Logs, s: State, a: Action) {
    match a
    case Poll(p) => s.work.Idle? && p < |logs| && OffsetAt(s.position, p) < |logs[p]|
    case Check => s.work.Checking?
    case Credit => s.work.Crediting?
    case Mark => s.work.Marking?
    case Commit => s.work.Committing?
    case Crash => true
  }

  /** The credit that has not been marked yet. */
  function Pending(work: Work): seq<Message> {
    if work.Marking? then [work.message] else []
  }

  function Apply(logs: Logs, s: State, a: Action): State
    requires Enabled(logs, s, a)
  {
    match a
    case Poll(p) =>
      var k := OffsetAt(s.position, p);
      s.(position := s.position[p := k + 1], work := Checking(logs[p][k], p))
    case Check =>
      var m := s.work.message;
      if StoreKey(m) in s.processed then s.(work := Committing, handled := s.handled + [m])
      else s.(work := Crediting(m, s.work.partition))
    case Credit =>
      var m := s.work.message;
      s.(balances := s.balances[m.user := Balance(s.balances, m.user) + m.points],
         work := Marking(m, s.work.partition))
    case Mark =>
      var m := s.work.message;
      s.(processed := s.processed + {StoreKey(m)}, work := Committing, handled := s.handled + [m])
    case Commit => s.(committed := s.position, work := Idle)
    case Crash =>
      s.(position := s.committed, work := Idle, crashes := s.crashes + 1,
         extras := s.extras + Pending(s.work), windowCrashes := s.windowCrashes + |Pending(s.work)|)
  }

  function Run(logs: Logs, s: State, acts: seq<Action>): Option<State>
    decreases |acts|
  {
    if acts == [] then Some(s)
    else
      match Run(logs, s, acts[..|acts| - 1])
      case None => None
      case Some(t) =>
        var a := acts[|acts| - 1];
        if Enabled(logs, t, a) then Some(Apply(logs, t, a)) else None
  }

  lemma RunSnoc(logs: Logs, s: State, acts: seq<Action>, a: Action)
    requires Run(logs, s, acts).Some? && Enabled(logs, Run(logs, s, acts).value, a)
    ensures Run(logs, s, acts + [a]) == Some(Apply(logs, Run(logs, s, acts).value, a))
  {
    assert (acts + [a])[..|acts|] == acts;
  }

  // ---- sums over messages ----

  function Keys(ms: seq<Message>): set<string> {
    if ms == [] then {} else Keys(ms[..|ms| - 1]) + {StoreKey(ms[|ms| - 1])}
  }

  ghost predicate HasKey(ms: seq<Message>, k: string) {
    exists i :: 0 <= i < |ms| && StoreKey(ms[i]) == k
  }

  lemma {:induction false} KeyMembers(ms: seq<Message>, k: string)
    ensures k in Keys(ms) <==> HasKey(ms, k)
  {
    if ms != [] {
      var n := |ms| - 1;
      KeyMembers(ms[..n], k);
      if HasKey(ms[..n], k) {
        var i :| 0 <= i < n && StoreKey(ms[..n][i]) == k;
        assert StoreKey(ms[i]) == k;
      }
      if HasKey(ms, k) && StoreKey(ms[n]) != k {
        var i :| 0 <= i < |ms| && StoreKey(ms[i]) == k;
        assert StoreKey(ms[..n][i]) == k;
      }
    }
  }

  /** A message with the same key occurs among ms. */
  predicate Repeated(ms: seq<Message>, m: Message) {
    exists i | 0 <= i < |ms| :: SameKey(ms[i].key, m.key)
  }

  lemma RepeatedIff(ms: seq<Message>, m: Message)
    ensures Repeated(ms, m) <==> StoreKey(m) in Keys(ms)
  {
    KeyMembers(ms, StoreKey(m));
    forall i | 0 <= i < |ms| ensures StoreKey(ms[i]) == StoreKey(m) <==> SameKey(ms[i].key, m.key) {
      KeyInStoreIff(ms[i].key, m.key);
    }
  }

  /** The messages whose own key occurs there for the first time. */
  function FirstByKey(ms: seq<Message>): seq<Message> {
    if ms == [] then []
    else
      var front, m := ms[..|ms| - 1], ms[|ms| - 1];
      if Repeated(front, m) then FirstByKey(front) else FirstByKey(front) + [m]
  }

  /** The points given to one user. */
  function Total(ms: seq<Message>, u: Option<string>): int {
    if ms == [] then 0
    else Total(ms[..|ms| - 1], u) + (if ms[|ms| - 1].user == u then ms[|ms| - 1].points else 0)
  }

  lemma TotalSnoc(ms: seq<Message>, m: Message, u: Option<string>)
    ensures Total(ms + [m], u) == Total(ms, u) + (if m.user == u then m.points else 0)
  {
    assert (ms + [m])[..|ms|] == ms;
  }

  lemma TotalOne(m: Message, u: Option<string>)
    ensures Total([m], u) == if m.user == u then m.points else 0
  {
    assert [m][..0] == [];
  }

  lemma FirstByKeySnoc(ms: seq<Message>, m: Message)
    ensures FirstByKey(ms + [m]) == if StoreKey(m) in Keys(ms) then FirstByKey(ms) else FirstByKey(ms) + [m]
    ensures Keys(ms + [m]) == Keys(ms) + {StoreKey(m)}
  {
    assert (ms + [m])[..|ms|] == ms;
    RepeatedIff(ms, m);
  }

  // ---- the invariant ----

  ghost predicate BalanceOk(s: State, u: Option<string>) {
    Balance(s.balances, u) == Total(FirstByKey(s.handled), u) + Total(s.extras, u) + Total(Pending(s.work), u)
  }

  ghost predicate BalancesOk(s: State) {
    forall u :: BalanceOk(s, u)
  }

  ghost predicate InLogs(logs: Logs, m: Message) {
    exists p :: 0 <= p < |logs| && m in logs[p]
  }

  /** Below the offset every key of partition p is marked, except perhaps at the message in hand. */
  ghost predicate DoneBelow(logs: Logs, processed: set<string>, p: nat, n: nat)
    requires p < |logs|
  {
    n <= |logs[p]| && forall k :: 0 <= k < n ==> StoreKey(logs[p][k]) in processed
  }

  ghost predicate CommittedOk(logs: Logs, s: State) {
    forall p :: 0 <= p < |logs| ==> DoneBelow(logs, s.processed, p, OffsetAt(s.committed, p))
  }

  predicate InHand(work: Work) {
    work.Checking? || work.Crediting? || work.Marking?
  }

  /** The position, less the message in hand. */
  function Settled(s: State, p: nat): nat {
    var k := OffsetAt(s.position, p);
    if InHand(s.work) && s.work.partition == p && k > 0 then k - 1 else k
  }

  ghost predicate PositionOk(logs: Logs, s: State) {
    forall p :: 0 <= p < |logs| ==> DoneBelow(logs, s.processed, p, Settled(s, p))
  }

  /** The message in hand is the one before the position; once looked up, its key is unmarked. */
  ghost predicate WorkOk(logs: Logs, s: State) {
    InHand(s.work) ==>
      var p := s.work.partition;
      && p < |logs| && 0 < OffsetAt(s.position, p) <= |logs[p]|
      && logs[p][OffsetAt(s.position, p) - 1] == s.work.message
      && (!s.work.Checking? ==> StoreKey(s.work.message) !in s.processed)
  }

  ghost predicate HistoryOk(logs: Logs, s: State) {
    && s.processed == Keys(s.handled)
    && |s.extras| == s.windowCrashes <= s.crashes
    && (forall m :: m in s.handled || m in s.extras ==> InLogs(logs, m))
  }

  ghost predicate Inv(logs: Logs, s: State) {
    BalancesOk(s) && CommittedOk(logs, s) && PositionOk(logs, s) && WorkOk(logs, s) && HistoryOk(logs, s)
  }

  lemma CreditKeepsBalance(logs: Logs, s: State, u: Option<string>)
    requires BalanceOk(s, u) && s.work.Crediting?
    ensures BalanceOk(Apply(logs, s, Credit), u)
  {
    TotalOne(s.work.message, u);
  }

  lemma MarkKeepsBalance(logs: Logs, s: State, u: Option<string>)
    requires BalanceOk(s, u) && s.work.Marking? && StoreKey(s.work.message) !in Keys(s.handled)
    ensures BalanceOk(Apply(logs, s, Mark), u)
  {
    var m := s.work.message;
    FirstByKeySnoc(s.handled, m);
    TotalSnoc(FirstByKey(s.handled), m, u);
    TotalOne(m, u);
  }

  lemma CrashKeepsBalance(logs: Logs, s: State, u: Option<string>)
    requires BalanceOk(s, u)
    ensures BalanceOk(Apply(logs, s, Crash), u)
  {
    if s.work.Marking? {
      TotalOne(s.work.message, u);
      TotalSnoc(s.extras, s.work.message, u);
    } else {
      assert s.extras + [] == s.extras;
    }
  }

  lemma StepKeepsBalance(logs: Logs, s: State, a: Action, u: Option<string>)
    requires Enabled(logs, s, a) && BalanceOk(s, u) && s.processed == Keys(s.handled)
    requires s.work.Crediting? || s.work.Marking? ==> StoreKey(s.work.message) !in s.processed
    ensures BalanceOk(Apply(logs, s, a), u)
  {
    match a
    case Poll(_) =>
    case Commit =>
    case Check => FirstByKeySnoc(s.handled, s.work.message);
    case Credit => CreditKeepsBalance(logs, s, u);
    case Mark => MarkKeepsBalance(logs, s, u);
    case Crash => CrashKeepsBalance(logs, s, u);
  }

  lemma StepKeepsOffsets(logs: Logs, s: State, a: Action)
    requires Enabled(logs, s, a) && CommittedOk(logs, s) && PositionOk(logs, s) && WorkOk(logs, s)
    ensures CommittedOk(logs, Apply(logs, s, a)) && PositionOk(logs, Apply(logs, s, a))
    ensures WorkOk(logs, Apply(logs, s, a))
  {
    var t := Apply(logs, s, a);
    forall p | 0 <= p < |logs| ensures DoneBelow(logs, t.processed, p, Settled(t, p)) {
      assert DoneBelow(logs, s.processed, p, Settled(s, p));
      assert DoneBelow(logs, s.processed, p, OffsetAt(s.committed, p));
    }
    forall p | 0 <= p < |logs| ensures DoneBelow(logs, t.processed, p, OffsetAt(t.committed, p)) {
      assert DoneBelow(logs, s.processed, p, Settled(s, p));
      assert DoneBelow(logs, s.processed, p, OffsetAt(s.committed, p));
    }
  }

  lemma StepKeepsHistory(logs: Logs, s: State, a: Action)
    requires Enabled(logs, s, a) && WorkOk(logs, s) && HistoryOk(logs, s)
    ensures HistoryOk(logs, Apply(logs, s, a))
  {
    if InHand(s.work) {
      FirstByKeySnoc(s.handled, s.work.message);
      assert InLogs(logs, s.work.message);
    }
  }

  lemma {:induction false} RunInvariant(logs: Logs, acts: seq<Action>)
    ensures var r := Run(logs, INIT, acts); r.Some? ==> Inv(logs, r.value)
  {
    if acts != [] && Run(logs, INIT, acts).Some? {
      var front := acts[..|acts| - 1];
      RunInvariant(logs, front);
      var s, a := Run(logs, INIT, front).value, acts[|acts| - 1];
      forall u ensures BalanceOk(Apply(logs, s, a), u) {
        assert BalanceOk(s, u);
        StepKeepsBalance(logs, s, a, u);
      }
      StepKeepsOffsets(logs, s, a);
      StepKeepsHistory(logs, s, a);
    }
  }

  /**
   In every reachable state a balance is the points of the first handled message of each key, plus the extra
   credits: one per crash between credit and mark, and the one not marked yet.
   */
  lemma {:induction false} BalanceFormula(logs: Logs, acts: seq<Action>, u: Option<string>)
    requires Run(logs, INIT, acts).Some?
    ensures var s := Run(logs, INIT, acts).value;
      && Balance(s.balances, u)
         == Total(FirstByKey(s.handled), u) + Total(s.extras, u) + Total(Pending(s.work), u)
      && |s.extras| == s.windowCrashes <= s.crashes
  {
    RunInvariant(logs, acts);
    assert BalanceOk(Run(logs, INIT, acts).value, u);
  }

  /** No committed offset passes a message whose key is not marked, by a message with the same key that was handled. */
  lemma CommittedIsMarked(logs: Logs, acts: seq<Action>, p: nat, k: nat)
    requires Run(logs, INIT, acts).Some? && p < |logs|
    requires k < OffsetAt(Run(logs, INIT, acts).value.committed, p)
    ensures k < |logs[p]| && StoreKey(logs[p][k]) in Run(logs, INIT, acts).value.processed
    ensures Repeated(Run(logs, INIT, acts).value.handled, logs[p][k])
  {
    RunInvariant(logs, acts);
    var s := Run(logs, INIT, acts).value;
    assert DoneBelow(logs, s.processed, p, OffsetAt(s.committed, p));
    RepeatedIff(s.handled, logs[p][k]);
  }

  // ---- exactness ----

  function Concat(logs: Logs): seq<Message> {
    if logs == [] then [] else Concat(logs[..|logs| - 1]) + logs[|logs| - 1]
  }

  lemma {:induction false} ConcatMembers(logs: Logs, m: Message)
    ensures m in Concat(logs) <==> InLogs(logs, m)
  {
    if logs != [] {
      var n := |logs| - 1;
      ConcatMembers(logs[..n], m);
      if InLogs(logs[..n], m) {
        var p :| 0 <= p < n && m in logs[..n][p];
        assert m in logs[p];
      }
      if InLogs(logs, m) {
        var p :| 0 <= p < |logs| && m in logs[p];
        if p < n { assert m in logs[..n][p]; }
      }
    }
  }

  /** Copies of a key agree: the duplicates are duplicates of one request. */
  ghost predicate Consistent(ms: seq<Message>) {
    forall i, j :: 0 <= i < |ms| && 0 <= j < |ms| && SameKey(ms[i].key, ms[j].key) ==>
      ms[i].user == ms[j].user && ms[i].points == ms[j].points
  }

  ghost predicate DistinctKeys(ms: seq<Message>) {
    forall i, j :: 0 <= i < j < |ms| ==> StoreKey(ms[i]) != StoreKey(ms[j])
  }

  lemma DistinctSnoc(ms: seq<Message>, m: Message)
    requires DistinctKeys(ms) && StoreKey(m) !in Keys(ms)
    ensures DistinctKeys(ms + [m])
  {
    KeyMembers(ms, StoreKey(m));
  }

  lemma {:induction false} FirstByKeyFacts(ms: seq<Message>)
    ensures DistinctKeys(FirstByKey(ms)) && Keys(FirstByKey(ms)) == Keys(ms)
    ensures forall m :: m in FirstByKey(ms) ==> m in ms
  {
    if ms != [] {
      var n := |ms| - 1;
      FirstByKeyFacts(ms[..n]);
      RepeatedIff(ms[..n], ms[n]);
      if StoreKey(ms[n]) !in Keys(ms[..n]) {
        FirstByKeySnoc(FirstByKey(ms[..n]), ms[n]);
        DistinctSnoc(FirstByKey(ms[..n]), ms[n]);
      } else {
        assert Keys(ms) == Keys(ms[..n]);
      }
    }
  }

  lemma {:induction false} TotalRemoveAt(ms: seq<Message>, i: nat, u: Option<string>)
    requires i < |ms|
    ensures Total(ms, u) == Total(RemoveAt(ms, i), u) + (if ms[i].user == u then ms[i].points else 0)
  {
    var n := |ms| - 1;
    if i < n {
      TotalRemoveAt(ms[..n], i, u);
      assert RemoveAt(ms, i) == RemoveAt(ms[..n], i) + [ms[n]];
      TotalSnoc(RemoveAt(ms[..n], i), ms[n], u);
    } else {
      assert RemoveAt(ms, i) == ms[..n];
    }
  }

  lemma NoKeys(ms: seq<Message>)
    ensures Keys(ms) == {} <==> ms == []
  {
  }

  lemma DistinctWithout(b: seq<Message>, i: nat)
    requires i < |b| && DistinctKeys(b)
    ensures DistinctKeys(RemoveAt(b, i))
  {
    var r := RemoveAt(b, i);
    forall j, k | 0 <= j < k < |r| ensures StoreKey(r[j]) != StoreKey(r[k]) {
      assert r[j] == b[if j < i then j else j + 1];
      assert r[k] == b[if k < i then k else k + 1];
    }
  }

  lemma KeyWithout(b: seq<Message>, i: nat, k: string)
    requires i < |b| && DistinctKeys(b)
    ensures HasKey(RemoveAt(b, i), k) <==> HasKey(b, k) && k != StoreKey(b[i])
  {
    if HasKey(b, k) && k != StoreKey(b[i]) {
      var j :| 0 <= j < |b| && StoreKey(b[j]) == k;
      assert RemoveAt(b, i)[if j < i then j else j - 1] == b[j];
    }
    if HasKey(RemoveAt(b, i), k) {
      var j :| 0 <= j < |b| - 1 && StoreKey(RemoveAt(b, i)[j]) == k;
      assert b[if j < i then j else j + 1] == RemoveAt(b, i)[j];
    }
  }

  lemma KeysWithout(b: seq<Message>, i: nat)
    requires i < |b| && DistinctKeys(b)
    ensures Keys(RemoveAt(b, i)) == Keys(b) - {StoreKey(b[i])}
  {
    forall k ensures k in Keys(RemoveAt(b, i)) <==> k in Keys(b) && k != StoreKey(b[i]) {
      KeyMembers(b, k);
      KeyMembers(RemoveAt(b, i), k);
      KeyWithout(b, i, k);
    }
  }

  lemma SubsetConsistent(ms: seq<Message>, xs: seq<Message>)
    requires Consistent(ms) && forall x :: x in xs ==> x in ms
    ensures Consistent(xs)
  {
    forall i, j | 0 <= i < |xs| && 0 <= j < |xs| && SameKey(xs[i].key, xs[j].key)
      ensures xs[i].user == xs[j].user && xs[i].points == xs[j].points
    {
      assert xs[i] in ms && xs[j] in ms;
      var k :| 0 <= k < |ms| && ms[k] == xs[i];
      var l :| 0 <= l < |ms| && ms[l] == xs[j];
    }
  }

  lemma RestConsistent(a: seq<Message>, b: seq<Message>, n: nat, i: nat)
    requires n <= |a| && i < |b| && Consistent(a + b)
    ensures Consistent(a[..n] + RemoveAt(b, i))
  {
    forall x | x in a[..n] + RemoveAt(b, i) ensures x in a + b {
      assert x in a[..n] || x in RemoveAt(b, i);
    }
    SubsetConsistent(a + b, a[..n] + RemoveAt(b, i));
  }

  lemma RestHasRest(a: seq<Message>, b: seq<Message>, i: nat)
    requires a != [] && i < |b| && StoreKey(b[i]) == StoreKey(a[|a| - 1])
    requires DistinctKeys(a) && DistinctKeys(b) && Keys(a) == Keys(b) && Consistent(a + b)
    ensures var n := |a| - 1;
      && DistinctKeys(a[..n]) && DistinctKeys(RemoveAt(b, i)) && Keys(a[..n]) == Keys(RemoveAt(b, i))
      && Consistent(a[..n] + RemoveAt(b, i))
  {
    var n := |a| - 1;
    assert RemoveAt(a, n) == a[..n];
    KeysWithout(a, n);
    DistinctWithout(a, n);
    KeysWithout(b, i);
    DistinctWithout(b, i);
    RestConsistent(a, b, n, i);
  }

  /** Two lists with one message for each of the same keys give the same totals, whatever their orders. */
  lemma {:induction false} SameKeysSameTotal(a: seq<Message>, b: seq<Message>, u: Option<string>)
    requires DistinctKeys(a) && DistinctKeys(b) && Keys(a) == Keys(b)
    requires Consistent(a + b)
    ensures Total(a, u) == Total(b, u)
    decreases |a|
  {
    if a == [] {
      NoKeys(b);
    } else {
      var n := |a| - 1;
      KeyMembers(b, StoreKey(a[n]));
      var i :| 0 <= i < |b| && StoreKey(b[i]) == StoreKey(a[n]);
      KeyInStoreIff(a[n].key, b[i].key);
      assert (a + b)[n] == a[n] && (a + b)[|a| + i] == b[i];
      TotalRemoveAt(b, i, u);
      RestHasRest(a, b, i);
      SameKeysSameTotal(a[..n], RemoveAt(b, i), u);
    }
  }

  /** Every partition is committed to its end. */
  ghost predicate Drained(logs: Logs, s: State) {
    forall p :: 0 <= p < |logs| ==> OffsetAt(s.committed, p) == |logs[p]|
  }

  lemma KeyDone(logs: Logs, s: State, m: Message)
    requires CommittedOk(logs, s) && Drained(logs, s) && InLogs(logs, m)
    ensures StoreKey(m) in s.processed
  {
    var p :| 0 <= p < |logs| && m in logs[p];
    var i :| 0 <= i < |logs[p]| && logs[p][i] == m;
    assert DoneBelow(logs, s.processed, p, OffsetAt(s.committed, p));
  }

  lemma DrainedHandledAll(logs: Logs, s: State)
    requires CommittedOk(logs, s) && HistoryOk(logs, s) && Drained(logs, s)
    ensures Keys(s.handled) == Keys(Concat(logs))
    ensures forall m :: m in s.handled || m in s.extras ==> m in Concat(logs)
  {
    forall m ensures m in Concat(logs) <==> InLogs(logs, m) {
      ConcatMembers(logs, m);
    }
    forall k ensures k in Keys(Concat(logs)) <==> k in Keys(s.handled) {
      KeyMembers(Concat(logs), k);
      KeyMembers(s.handled, k);
      if HasKey(Concat(logs), k) {
        var i :| 0 <= i < |Concat(logs)| && StoreKey(Concat(logs)[i]) == k;
        KeyDone(logs, s, Concat(logs)[i]);
      }
      if HasKey(s.handled, k) {
        var i :| 0 <= i < |s.handled| && StoreKey(s.handled[i]) == k;
        assert s.handled[i] in Concat(logs);
        var j :| 0 <= j < |Concat(logs)| && Concat(logs)[j] == s.handled[i];
        assert StoreKey(Concat(logs)[j]) == k;
      }
    }
  }

  /**
   Once every partition is committed to its end, a balance is one credit per distinct key of the topic plus the
   credits of crashes between credit and mark, whatever was duplicated, redelivered or interleaved; without
   such a crash it is exact.
   */
  lemma {:induction false} DrainedBalance(logs: Logs, acts: seq<Action>, u: Option<string>)
    requires Run(logs, INIT, acts).Some? && Consistent(Concat(logs))
    requires var s := Run(logs, INIT, acts).value; s.work.Idle? && Drained(logs, s)
    ensures var s := Run(logs, INIT, acts).value;
      && Balance(s.balances, u) == Total(FirstByKey(Concat(logs)), u) + Total(s.extras, u)
      && (s.windowCrashes == 0 ==> Balance(s.balances, u) == Total(FirstByKey(Concat(logs)), u))
  {
    RunInvariant(logs, acts);
    var s := Run(logs, INIT, acts).value;
    DrainedHandledAll(logs, s);
    FirstByKeyFacts(s.handled);
    FirstByKeyFacts(Concat(logs));
    SubsetConsistent(Concat(logs), FirstByKey(s.handled) + FirstByKey(Concat(logs)));
    SameKeysSameTotal(FirstByKey(s.handled), FirstByKey(Concat(logs)), u);
    BalanceFormula(logs, acts, u);
  }

  /** Every message has a key, and no two the same. */
  ghost predicate KeysDiffer(ms: seq<Message>) {
    && (forall i :: 0 <= i < |ms| ==> ms[i].key.Some?)
    && (forall i, j :: 0 <= i < j < |ms| ==> ms[i].key != ms[j].key)
  }

  lemma {:induction false} AllAreFirst(ms: seq<Message>)
    requires KeysDiffer(ms)
    ensures FirstByKey(ms) == ms
  {
    if ms != [] {
      var n := |ms| - 1;
      AllAreFirst(ms[..n]);
      assert !Repeated(ms[..n], ms[n]);
      assert ms == ms[..n] + [ms[n]];
    }
  }

  lemma DifferentIsConsistent(ms: seq<Message>)
    requires KeysDiffer(ms)
    ensures Consistent(ms)
  {
    forall i, j | 0 <= i < |ms| && 0 <= j < |ms| && SameKey(ms[i].key, ms[j].key)
      ensures ms[i].user == ms[j].user && ms[i].points == ms[j].points
    {
      assert ms[i].key == ms[j].key;
      assert !(i < j) && !(j < i);
    }
  }

  /** When every message of a drained topic has a key of its own, each is credited, and once without a window crash. */
  lemma {:induction false} DifferentKeysAllCredited(logs: Logs, acts: seq<Action>, u: Option<string>)
    requires Run(logs, INIT, acts).Some? && KeysDiffer(Concat(logs))
    requires var s := Run(logs, INIT, acts).value; s.work.Idle? && Drained(logs, s)
    ensures var s := Run(logs, INIT, acts).value;
      && Balance(s.balances, u) == Total(Concat(logs), u) + Total(s.extras, u)
      && (s.windowCrashes == 0 ==> Balance(s.balances, u) == Total(Concat(logs), u))
  {
    DifferentIsConsistent(Concat(logs));
    AllAreFirst(Concat(logs));
    DrainedBalance(logs, acts, u);
  }

  lemma {:induction false} NoDebit(ms: seq<Message>, u: Option<string>)
    requires forall j :: 0 <= j < |ms| ==> ms[j].points > 0
    ensures Total(ms, u) >= 0
  {
    if ms != [] { NoDebit(ms[..|ms| - 1], u); }
  }

  lemma {:induction false} TotalPositive(ms: seq<Message>, i: nat)
    requires i < |ms| && forall j :: 0 <= j < |ms| ==> ms[j].points > 0
    ensures Total(ms, ms[i].user) > 0
  {
    TotalRemoveAt(ms, i, ms[i].user);
    NoDebit(RemoveAt(ms, i), ms[i].user);
  }

  /** Every user has exactly one credit per distinct key of the topic. */
  ghost predicate AllExact(logs: Logs, s: State) {
    forall u :: Balance(s.balances, u) == Total(FirstByKey(Concat(logs)), u)
  }

  /**
   When every message credits something, all balances are exact at the end if and only if no crash fell between a
   credit and its mark.
   */
  lemma {:induction false} BalancesExactIff(logs: Logs, acts: seq<Action>)
    requires Run(logs, INIT, acts).Some? && Consistent(Concat(logs))
    requires var s := Run(logs, INIT, acts).value; s.work.Idle? && Drained(logs, s)
    requires forall m :: m in Concat(logs) ==> m.points > 0
    ensures var s := Run(logs, INIT, acts).value; AllExact(logs, s) <==> s.windowCrashes == 0
  {
    RunInvariant(logs, acts);
    var s := Run(logs, INIT, acts).value;
    DrainedHandledAll(logs, s);
    forall u ensures Balance(s.balances, u) == Total(FirstByKey(Concat(logs)), u) + Total(s.extras, u) {
      DrainedBalance(logs, acts, u);
    }
    if s.extras != [] {
      forall j | 0 <= j < |s.extras| ensures s.extras[j].points > 0 {
        assert s.extras[j] in s.extras;
      }
      TotalPositive(s.extras, 0);
    }
  }

  /** One crash in the window is enough to credit twice. */
  lemma CrashInWindowCreditsTwice(m: Message)
    requires m.points != 0
    ensures var r := Run([[m]], INIT, [Poll(0), Check, Credit, Crash, Poll(0), Check, Credit, Mark, Commit]);
      && r.Some? && r.value.work.Idle? && Drained([[m]], r.value)
      && Balance(r.value.balances, m.user) == 2 * m.points && r.value.windowCrashes == 1
  {
    var logs := [[m]];
    var acts: seq<Action> := [];
    assert Run(logs, INIT, acts) == Some(INIT);
    RunSnoc(logs, INIT, acts, Poll(0));
    acts := acts + [Poll(0)];
    RunSnoc(logs, INIT, acts, Check);
    acts := acts + [Check];
    RunSnoc(logs, INIT, acts, Credit);
    acts := acts + [Credit];
    RunSnoc(logs, INIT, acts, Crash);
    acts := acts + [Crash];
    RunSnoc(logs, INIT, acts, Poll(0));
    acts := acts + [Poll(0)];
    RunSnoc(logs, INIT, acts, Check);
    acts := acts + [Check];
    RunSnoc(logs, INIT, acts, Credit);
    acts := acts + [Credit];
    RunSnoc(logs, INIT, acts, Mark);
    acts := acts + [Mark];
    RunSnoc(logs, INIT, acts, Commit);
    assert acts + [Commit] == [Poll(0), Check, Credit, Crash, Poll(0), Check, Credit, Mark, Commit];
  }

  // ---- the consumer ----

  /** The state after one message is handled without interruption, when the process is idle. */
  function AfterMessage(logs: Logs, s: State, p: nat): State
    requires Enabled(logs, s, Poll(p))
  {
    var k := OffsetAt(s.position, p);
    var m := logs[p][k];
    var position := s.position[p := k + 1];
    if StoreKey(m) in s.processed
    then s.(position := position, committed := position, handled := s.handled + [m])
    else s.(processed := s.processed + {StoreKey(m)},
            balances := s.balances[m.user := Balance(s.balances, m.user) + m.points],
            position := position, committed := position, handled := s.handled + [m])
  }

  /** It is a run of the step system: a duplicate is looked up and committed, a new key credited and marked too. */
  lemma MessageIsRun(logs: Logs, acts: seq<Action>, s: State, p: nat) returns (more: seq<Action>)
    requires Run(logs, INIT, acts) == Some(s) && Enabled(logs, s, Poll(p))
    ensures Run(logs, INIT, more) == Some(AfterMessage(logs, s, p))
  {
    RunSnoc(logs, INIT, acts, Poll(p));
    more := acts + [Poll(p)];
    RunSnoc(logs, INIT, more, Check);
    more := more + [Check];
    if StoreKey(logs[p][OffsetAt(s.position, p)]) !in s.processed {
      RunSnoc(logs, INIT, more, Credit);
      more := more + [Credit];
      RunSnoc(logs, INIT, more, Mark);
      more := more + [Mark];
    }
    RunSnoc(logs, INIT, more, Commit);
    more := more + [Commit];
  }

  ghost predicate Reachable(logs: Logs, s: State) {
    exists acts :: Run(logs, INIT, acts) == Some(s)
  }

  lemma ReachableAfter(logs: Logs, s: State, p: nat)
    requires Reachable(logs, s) && Enabled(logs, s, Poll(p))
    ensures Reachable(logs, AfterMessage(logs, s, p))
  {
    var acts :| Run(logs, INIT, acts) == Some(s);
    var more := MessageIsRun(logs, acts, s, p);
  }

  /** The key store; keys do not expire here. */
  class IdempotencyStore {
    var keys: set<string>

    constructor ()
      ensures keys == {}
    {
      keys := {};
    }

    /** Whether the store holds the key. */
    ghost predicate Has(key: Option<string>)
      reads this
    {
      KeyInStore(key) in keys
    }

    method IsProcessed(key: Option<string>) returns (r: bool)
      ensures r <==> Has(key)
    {
      r := KEY_PREFIX + (if key.Some? then key.value else "None") in keys;
    }

    /** Records the key, and no other. */
    method MarkProcessed(key: Option<string>)
      modifies this
      ensures keys == old(keys) + {KeyInStore(key)}
      ensures forall k :: Has(k) <==> KeyInStore(k) in old(keys) || SameKey(k, key)
    {
      keys := keys + {KEY_PREFIX + (if key.Some? then key.value else "None")};
      forall k ensures KeyInStore(k) == KeyInStore(key) <==> SameKey(k, key) {
        KeyInStoreIff(k, key);
      }
    }
  }

  /** The consumer process with its balances. */
  class PointsConsumer {
    const logs: Logs
    const store: IdempotencyStore
    var balances: Balances
    var position: map<nat, nat>
    var committed: map<nat, nat>
    ghost var handled: seq<Message>

    ghost function Abstract(): State
      reads this, store
    {
      State(store.keys, balances, position, committed, Idle, handled, [], 0, 0)
    }

    ghost predicate Valid()
      reads this, store
    {
      Reachable(logs, Abstract())
    }

    constructor (logs: Logs)
      ensures Valid() && Abstract() == INIT && this.logs == logs && fresh(store)
    {
      this.logs := logs;
      store := new IdempotencyStore();
      balances, position, committed, handled := map[], map[], map[], [];
      new;
      assert Run(logs, INIT, []) == Some(INIT);
    }

    /** Adds the points to the user's balance, from zero for a new user. */
    method Credit(message: Message)
      modifies this`balances
      ensures balances == old(balances)[message.user := Balance(old(balances), message.user) + message.points]
    {
      var previous := if message.user in balances then balances[message.user] else 0;
      balances := balances[message.user := previous + message.points];
    }

    method ProcessMessage(p: nat)
      requires Valid() && p < |logs| && OffsetAt(position, p) < |logs[p]|
      modifies this, store
      ensures Abstract() == AfterMessage(logs, old(Abstract()), p) && Valid()
    {
      ReachableAfter(logs, Abstract(), p);
      var k := if p in position then position[p] else 0;
      var message := logs[p][k];
      position := position[p := k + 1];
      handled := handled + [message];
      var seen := store.IsProcessed(message.key);
      if seen {
        committed := position;
        return;
      }
      Credit(message);
      store.MarkProcessed(message.key);
      committed := position;
    }

    /** The consumer loop over a broker's choice of partitions; a partition without messages is passed over. */
    method Consume(schedule: seq<nat>)
      requires Valid()
      modifies this, store
      ensures Valid()
      ensures forall u :: Balance(balances, u) == Total(FirstByKey(handled), u)
      ensures forall p :: 0 <= p < |logs| ==>
        && OffsetAt(committed, p) <= |logs[p]|
        && forall k :: 0 <= k < OffsetAt(committed, p) ==> StoreKey(logs[p][k]) in store.keys
    {
      var i := 0;
      while i < |schedule|
        invariant 0 <= i <= |schedule| && Valid()
      {
        var p := schedule[i];
        if p < |logs| && OffsetAt(position, p) < |logs[p]| {
          ProcessMessage(p);
        }
        i := i + 1;
      }
      ghost var acts :| Run(logs, INIT, acts) == Some(Abstract());
      RunInvariant(logs, acts);
      forall u ensures Balance(balances, u) == Total(FirstByKey(handled), u) {
        BalanceFormula(logs, acts, u);
      }
      assert CommittedOk(logs, Abstract());
      forall p | 0 <= p < |logs| ensures DoneBelow(logs, store.keys, p, OffsetAt(committed, p)) {
      }
    }
  }
}
