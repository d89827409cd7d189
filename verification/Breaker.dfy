/** The circuit breaker: its transition functions, the class that performs them, and what every run keeps. */
module Breaker {
  import opened Sequences

  datatype CircuitState = CLOSED | OPEN | HALF_OPEN

  datatype Circuit = Circuit(state: CircuitState, failures: nat, openedAt: Option<real>)

  datatype Config = Config(failureThreshold: nat, recoveryTimeout: real)

  datatype Outcome = Success | ExpectedFailure | OtherFailure

  const INITIAL := Circuit(CLOSED, 0, None)

  predicate ShouldAttemptRecovery(cfg: Config, c: Circuit, now: real) {
    c.openedAt.None? || now - c.openedAt.value >= cfg.recoveryTimeout
  }

  /** Whether a call that reaches the breaker at time now goes through. */
  predicate Admits(cfg: Config, c: Circuit, now: real) {
    c.state != OPEN || ShouldAttemptRecovery(cfg, c, now)
  }

  function BeforeCall(cfg: Config, c: Circuit, now: real): Circuit {
    if c.state == OPEN && ShouldAttemptRecovery(cfg, c, now) then c.(state := HALF_OPEN) else c
  }

  function Opened(c: Circuit, now: real): Circuit {
    c.(state := OPEN, openedAt := Some(now))
  }

  function OnFailure(cfg: Config, c: Circuit, now: real): Circuit {
    if c.state == HALF_OPEN then Opened(c, now)
    else
      var c' := c.(failures := c.failures + 1);
      if c'.failures >= cfg.failureThreshold then Opened(c', now) else c'
  }

  function OnSuccess(c: Circuit): Circuit {
    Circuit(CLOSED, 0, None)
  }

  /** The effect of a settled call; an exception outside expected_exception leaves the circuit alone. */
  function Settled(cfg: Config, c: Circuit, o: Outcome, now: real): Circuit {
    match o
    case Success => OnSuccess(c)
    case ExpectedFailure => OnFailure(cfg, c, now)
    case OtherFailure => c
  }

  datatype CallResult = Returned | Rejected | Raised

  class CircuitBreaker {
    const cfg: Config
    var state: CircuitState
    var failureCount: nat
    var openedAt: Option<real>

    constructor (cfg: Config)
      ensures this.cfg == cfg && Abs() == INITIAL
    {
      this.cfg := cfg;
      state, failureCount, openedAt := CLOSED, 0, None;
    }

    function Abs(): Circuit
      reads this
    {
      Circuit(state, failureCount, openedAt)
    }

    /** False stands for raising CircuitBreakerOpenError. */
    method Enter(now: real) returns (admitted: bool)
      modifies this
      ensures admitted == Admits(cfg, old(Abs()), now)
      ensures Abs() == BeforeCall(cfg, old(Abs()), now)
    {
      admitted := true;
      if state == OPEN {
        if openedAt.None? || now - openedAt.value >= cfg.recoveryTimeout {
          state := HALF_OPEN;
        } else {
          admitted := false;
        }
      }
    }

    method Open(now: real)
      modifies this
      ensures Abs() == Opened(old(Abs()), now)
    {
      state := OPEN;
      openedAt := Some(now);
    }

    method RecordSuccess()
      modifies this
      ensures Abs() == OnSuccess(old(Abs()))
    {
      state := CLOSED;
      failureCount := 0;
      openedAt := None;
    }

    method RecordFailure(now: real)
      modifies this
      ensures Abs() == OnFailure(cfg, old(Abs()), now)
    {
      if state == HALF_OPEN {
        Open(now);
        return;
      }
      failureCount := failureCount + 1;
      if failureCount >= cfg.failureThreshold {
        Open(now);
      }
    }

    /** One call, not overlapped by another: admitted at `at`, settled at `done` with the given outcome. */
    method Call(at: real, done: real, outcome: Outcome) returns (r: CallResult)
      modifies this
      ensures r == (if !Admits(cfg, old(Abs()), at) then Rejected
                    else if outcome.Success? then Returned else Raised)
      ensures Abs() == (if r == Rejected then old(Abs())
                        else Settled(cfg, BeforeCall(cfg, old(Abs()), at), outcome, done))
    {
      var admitted := Enter(at);
      if !admitted {
        return Rejected;
      }
      match outcome {
        case Success => RecordSuccess(); r := Returned;
        case ExpectedFailure => RecordFailure(done); r := Raised;
        case OtherFailure => r := Raised;
      }
    }
  }

  // ---- any number of concurrent calls, admitted, run and settled in any interleaving ----

  /** `running[i]` holds while call i is between its admission and its settlement. */
  datatype System = System(circuit: Circuit, clock: real, running: seq<bool>)

  datatype Action =
    | Wait(d: real)
    | Begin(i: nat)
    | Settle(i: nat, outcome: Outcome)

  function Init(calls: nat): System {
    System(INITIAL, 0.0, seq(calls, _ => false))
  }

  predicate Enabled(s: System, a: Action) {
    match a
    case Wait(d) => d >= 0.0
    case Begin(i) => i < |s.running| && !s.running[i]
    case Settle(i, _) => i < |s.running| && s.running[i]
  }

  function Apply(cfg: Config, s: System, a: Action): System
    requires Enabled(s, a)
  {
    match a
    case Wait(d) => s.(clock := s.clock + d)
    case Begin(i) =>
      s.(circuit := BeforeCall(cfg, s.circuit, s.clock),
         running := s.running[i := Admits(cfg, s.circuit, s.clock)])
    case Settle(i, o) =>
      s.(circuit := Settled(cfg, s.circuit, o, s.clock), running := s.running[i := false])
  }

  function Run(cfg: Config, s: System, acts: seq<Action>): Option<System>
    decreases |acts|
  {
    if acts == [] then Some(s)
    else
      match Run(cfg, s, acts[..|acts| - 1])
      case None => None
      case Some(t) =>
        var a := acts[|acts| - 1];
        if Enabled(t, a) then Some(Apply(cfg, t, a)) else None
  }

  /** The expected failures settled since the last settled success. */
  function FailuresSinceSuccess(acts: seq<Action>): nat {
    if acts == [] then 0
    else
      var front, a := acts[..|acts| - 1], acts[|acts| - 1];
      if a.Settle? && a.outcome.Success? then 0
      else FailuresSinceSuccess(front) + (if a.Settle? && a.outcome.ExpectedFailure? then 1 else 0)
  }

  ghost predicate CircuitOk(cfg: Config, c: Circuit) {
    && (c.state == CLOSED <==> c.failures < cfg.failureThreshold)
    && (c.state == CLOSED <==> c.openedAt.None?)
  }

  /**
   In every interleaving: CLOSED iff fewer failures than the threshold iff no opening time; and the circuit
   is CLOSED exactly while fewer expected failures than the threshold have settled since the last success,
   with the failure count telling how many.
   */
  lemma {:induction false} BreakerInvariant(cfg: Config, calls: nat, acts: seq<Action>)
    requires cfg.failureThreshold >= 1 && Run(cfg, Init(calls), acts).Some?
    ensures var s := Run(cfg, Init(calls), acts).value;
      && CircuitOk(cfg, s.circuit)
      && (s.circuit.openedAt.Some? ==> s.circuit.openedAt.value <= s.clock)
      && (s.circuit.state == CLOSED <==> FailuresSinceSuccess(acts) < cfg.failureThreshold)
      && (s.circuit.state == CLOSED ==> s.circuit.failures == FailuresSinceSuccess(acts))
  {
    if acts != [] {
      BreakerInvariant(cfg, calls, acts[..|acts| - 1]);
    }
  }

  /** A circuit leaves CLOSED exactly at the settlement that completes a run of threshold failures. */
  lemma OpensExactlyAtThreshold(cfg: Config, calls: nat, acts: seq<Action>, a: Action)
    requires cfg.failureThreshold >= 1 && Run(cfg, Init(calls), acts + [a]).Some?
    ensures Run(cfg, Init(calls), acts).Some?
    ensures var s, s' := Run(cfg, Init(calls), acts).value, Run(cfg, Init(calls), acts + [a]).value;
      s.circuit.state == CLOSED ==>
        && s'.circuit.state != HALF_OPEN
        && (s'.circuit.state == OPEN <==>
              a.Settle? && a.outcome.ExpectedFailure? && FailuresSinceSuccess(acts) == cfg.failureThreshold - 1)
  {
    assert (acts + [a])[..|acts|] == acts;
    BreakerInvariant(cfg, calls, acts);
    BreakerInvariant(cfg, calls, acts + [a]);
  }

  // ---- what the history of calls says ----

  /** The time that has passed in a run. */
  function Elapsed(acts: seq<Action>): real {
    if acts == [] then 0.0
    else
      var a := acts[|acts| - 1];
      Elapsed(acts[..|acts| - 1]) + (if a.Wait? then a.d else 0.0)
  }

  /** When an expected failure settled last. */
  function LastFailureAt(acts: seq<Action>): Option<real> {
    if acts == [] then None
    else
      var front, a := acts[..|acts| - 1], acts[|acts| - 1];
      if a.Settle? && a.outcome.ExpectedFailure? then Some(Elapsed(front)) else LastFailureAt(front)
  }

  lemma {:induction false} FailedBefore(acts: seq<Action>)
    ensures FailuresSinceSuccess(acts) > 0 ==> LastFailureAt(acts).Some?
  {
    if acts != [] { FailedBefore(acts[..|acts| - 1]); }
  }

  /**
   In every interleaving a circuit that is not closed dates from the last expected failure that settled, late ones on
   an open circuit included; and it is half open only from the recovery timeout after that on.
   */
  lemma {:induction false} OpenedAtLastFailure(cfg: Config, calls: nat, acts: seq<Action>)
    requires cfg.failureThreshold >= 1 && Run(cfg, Init(calls), acts).Some?
    ensures var s := Run(cfg, Init(calls), acts).value;
      && s.clock == Elapsed(acts)
      && (s.circuit.state != CLOSED ==> LastFailureAt(acts).Some? && s.circuit.openedAt == LastFailureAt(acts))
      && (s.circuit.state == HALF_OPEN ==> Elapsed(acts) - LastFailureAt(acts).value >= cfg.recoveryTimeout)
  {
    if acts != [] {
      var front := acts[..|acts| - 1];
      OpenedAtLastFailure(cfg, calls, front);
      BreakerInvariant(cfg, calls, front);
    }
  }

  /**
   A call that begins is rejected if and only if at least threshold expected failures have settled since the last
   success, and the last of them less than the recovery timeout ago.
   */
  lemma RejectedIff(cfg: Config, calls: nat, acts: seq<Action>, i: nat)
    requires cfg.failureThreshold >= 1 && Run(cfg, Init(calls), acts + [Begin(i)]).Some?
    ensures FailuresSinceSuccess(acts) > 0 ==> LastFailureAt(acts).Some?
    ensures i < |Run(cfg, Init(calls), acts + [Begin(i)]).value.running|
    ensures !Run(cfg, Init(calls), acts + [Begin(i)]).value.running[i] <==>
      && FailuresSinceSuccess(acts) >= cfg.failureThreshold
      && Elapsed(acts) - LastFailureAt(acts).value < cfg.recoveryTimeout
  {
    assert (acts + [Begin(i)])[..|acts|] == acts;
    FailedBefore(acts);
    BreakerInvariant(cfg, calls, acts);
    OpenedAtLastFailure(cfg, calls, acts);
  }

  // ---- load on a failing service ----

  /** A call that reaches the breaker at `at` and, when admitted, fails at `done`. */
  datatype FailingCall = FailingCall(at: real, done: real)

  /** The calls do not overlap and lie in the window. */
  ghost predicate Sequential(calls: seq<FailingCall>, start: real, end: real)
    decreases |calls|
  {
    if calls == [] then start <= end
    else start <= calls[0].at <= calls[0].done && Sequential(calls[1..], calls[0].done, end)
  }

  /** The number of calls that get through, when each of those fails with the expected exception. */
  function RealCalls(cfg: Config, c: Circuit, calls: seq<FailingCall>): nat
    decreases |calls|
  {
    if calls == [] then 0
    else if Admits(cfg, c, calls[0].at)
    then 1 + RealCalls(cfg, OnFailure(cfg, BeforeCall(cfg, c, calls[0].at), calls[0].done), calls[1..])
    else RealCalls(cfg, c, calls[1..])
  }

  lemma {:induction false} SequentialEnd(calls: seq<FailingCall>, start: real, end: real)
    requires Sequential(calls, start, end)
    ensures start <= end
  {
    if calls != [] { SequentialEnd(calls[1..], calls[0].done, end); }
  }

  /** The length of n recovery timeouts in a row. */
  function Timeouts(cfg: Config, n: nat): real {
    if n == 0 then 0.0 else Timeouts(cfg, n - 1) + cfg.recoveryTimeout
  }

  lemma {:induction false} TimeoutsIs(cfg: Config, n: nat)
    ensures Timeouts(cfg, n) == n as real * cfg.recoveryTimeout
  {
    if n > 0 { TimeoutsIs(cfg, n - 1); }
  }

  /** Once open, each further real call costs a recovery timeout. */
  lemma {:induction false} OpenLoad(cfg: Config, c: Circuit, calls: seq<FailingCall>, start: real, end: real)
    requires CircuitOk(cfg, c) && c.state == OPEN && c.openedAt.value <= start
    requires cfg.recoveryTimeout > 0.0 && Sequential(calls, start, end)
    ensures Timeouts(cfg, RealCalls(cfg, c, calls)) <= end - c.openedAt.value
    decreases |calls|
  {
    SequentialEnd(calls, start, end);
    if calls != [] {
      if Admits(cfg, c, calls[0].at) {
        var c' := OnFailure(cfg, BeforeCall(cfg, c, calls[0].at), calls[0].done);
        OpenLoad(cfg, c', calls[1..], calls[0].done, end);
        assert RealCalls(cfg, c, calls) == 1 + RealCalls(cfg, c', calls[1..]);
      } else {
        OpenLoad(cfg, c, calls[1..], calls[0].done, end);
      }
    }
  }

  /** While closed, the failures still missing to the threshold get through, and then the open load. */
  lemma {:induction false} ClosedLoad(cfg: Config, c: Circuit, calls: seq<FailingCall>, start: real, end: real)
    returns (extra: nat)
    requires CircuitOk(cfg, c) && c.state == CLOSED
    requires cfg.recoveryTimeout > 0.0 && Sequential(calls, start, end)
    ensures RealCalls(cfg, c, calls) <= cfg.failureThreshold - c.failures + extra
    ensures Timeouts(cfg, extra) <= end - start
    decreases |calls|
  {
    SequentialEnd(calls, start, end);
    extra := 0;
    if calls != [] {
      var c' := OnFailure(cfg, c, calls[0].done);
      SequentialEnd(calls[1..], calls[0].done, end);
      if c'.state == OPEN {
        OpenLoad(cfg, c', calls[1..], calls[0].done, end);
        extra := RealCalls(cfg, c', calls[1..]);
      } else {
        extra := ClosedLoad(cfg, c', calls[1..], calls[0].done, end);
      }
    }
  }

  /** How many whole recovery timeouts fit into a window. */
  function Recoveries(cfg: Config, length: real): int
    requires cfg.recoveryTimeout > 0.0
  {
    (length / cfg.recoveryTimeout).Floor
  }

  /** An open or half-open circuit lets one call through at any time, and then only the open load. */
  lemma {:induction false} FirstThenOpen(cfg: Config, c: Circuit, calls: seq<FailingCall>, start: real, end: real)
    returns (extra: nat)
    requires cfg.recoveryTimeout > 0.0
    requires CircuitOk(cfg, c) && c.state != CLOSED && c.openedAt.value <= start
    requires Sequential(calls, start, end)
    ensures RealCalls(cfg, c, calls) <= 1 + extra
    ensures Timeouts(cfg, extra) <= end - start
    decreases |calls|
  {
    SequentialEnd(calls, start, end);
    extra := 0;
    if calls != [] {
      SequentialEnd(calls[1..], calls[0].done, end);
      if Admits(cfg, c, calls[0].at) {
        var c' := OnFailure(cfg, BeforeCall(cfg, c, calls[0].at), calls[0].done);
        OpenLoad(cfg, c', calls[1..], calls[0].done, end);
        extra := RealCalls(cfg, c', calls[1..]);
      } else {
        extra := FirstThenOpen(cfg, c, calls[1..], calls[0].done, end);
      }
    }
  }

  lemma LoadSplit(cfg: Config, c: Circuit, calls: seq<FailingCall>, start: real, end: real) returns (extra: nat)
    requires cfg.failureThreshold >= 1 && cfg.recoveryTimeout > 0.0
    requires CircuitOk(cfg, c) && (c.openedAt.Some? ==> c.openedAt.value <= start)
    requires Sequential(calls, start, end)
    ensures RealCalls(cfg, c, calls) <= cfg.failureThreshold + extra
    ensures Timeouts(cfg, extra) <= end - start
  {
    if c.state == CLOSED {
      extra := ClosedLoad(cfg, c, calls, start, end);
    } else {
      extra := FirstThenOpen(cfg, c, calls, start, end);
    }
  }

  lemma FloorOfQuotient(n: nat, t: real, r: real)
    requires r > 0.0 && n as real * r <= t
    ensures n <= (t / r).Floor
  {
    var x := n as real * r;
    assert x / r == n as real;
    assert t / r - x / r == (t - x) / r;
    assert (t - x) / r >= 0.0;
  }

  lemma FloorBound(cfg: Config, n: nat, length: real)
    requires cfg.recoveryTimeout > 0.0 && Timeouts(cfg, n) <= length
    ensures n <= Recoveries(cfg, length)
  {
    TimeoutsIs(cfg, n);
    FloorOfQuotient(n, length, cfg.recoveryTimeout);
  }

  /**
   In a window of length T in which every admitted call fails, a reachable breaker lets at most
   threshold + floor(T / recovery timeout) non-overlapping calls through.
   */
  lemma LoadBound(cfg: Config, c: Circuit, calls: seq<FailingCall>, start: real, end: real)
    requires cfg.failureThreshold >= 1 && cfg.recoveryTimeout > 0.0
    requires CircuitOk(cfg, c) && (c.openedAt.Some? ==> c.openedAt.value <= start)
    requires Sequential(calls, start, end)
    ensures RealCalls(cfg, c, calls) <= cfg.failureThreshold + Recoveries(cfg, end - start)
  {
    var extra := LoadSplit(cfg, c, calls, start, end);
    FloorBound(cfg, extra, end - start);
  }

  // ---- the bound is reached ----

  /** Threshold failures at time 0 and then one failing call at each multiple of the recovery timeout. */
  function Burst(n: nat, at: real): seq<FailingCall> {
    seq(n, _ => FailingCall(at, at))
  }

  function Probes(cfg: Config, from: real, m: nat): seq<FailingCall>
    decreases m
  {
    if m == 0 then []
    else
      var t := from + cfg.recoveryTimeout;
      [FailingCall(t, t)] + Probes(cfg, t, m - 1)
  }

  lemma {:induction false} ProbesAllPass(cfg: Config, c: Circuit, from: real, m: nat, end: real)
    requires cfg.recoveryTimeout > 0.0 && c.state == OPEN && c.openedAt == Some(from)
    requires end == from + Timeouts(cfg, m)
    ensures Sequential(Probes(cfg, from, m), from, end)
    ensures RealCalls(cfg, c, Probes(cfg, from, m)) == m
    decreases m
  {
    if m > 0 {
      var t := from + cfg.recoveryTimeout;
      ProbesAllPass(cfg, Circuit(OPEN, c.failures, Some(t)), t, m - 1, end);
      assert Probes(cfg, from, m)[1..] == Probes(cfg, t, m - 1);
    }
  }

  lemma {:induction false} BurstThenProbes(cfg: Config, c: Circuit, n: nat, m: nat)
    requires cfg.recoveryTimeout > 0.0 && n >= 1
    requires c.state == CLOSED && c.failures + n == cfg.failureThreshold
    ensures Sequential(Burst(n, 0.0) + Probes(cfg, 0.0, m), 0.0, Timeouts(cfg, m))
    ensures RealCalls(cfg, c, Burst(n, 0.0) + Probes(cfg, 0.0, m)) == n + m
    decreases n
  {
    var calls := Burst(n, 0.0) + Probes(cfg, 0.0, m);
    assert calls[1..] == Burst(n - 1, 0.0) + Probes(cfg, 0.0, m);
    var c' := OnFailure(cfg, c, 0.0);
    if n == 1 {
      ProbesAllPass(cfg, c', 0.0, m, Timeouts(cfg, m));
      assert calls[1..] == Probes(cfg, 0.0, m);
    } else {
      BurstThenProbes(cfg, c', n - 1, m);
    }
  }

  /** The load bound is attained from the initial state for every threshold, timeout and number of timeouts. */
  lemma LoadBoundTight(cfg: Config, m: nat)
    returns (calls: seq<FailingCall>)
    requires cfg.failureThreshold >= 1 && cfg.recoveryTimeout > 0.0
    ensures Sequential(calls, 0.0, m as real * cfg.recoveryTimeout)
    ensures RealCalls(cfg, INITIAL, calls) == cfg.failureThreshold + m
  {
    calls := Burst(cfg.failureThreshold, 0.0) + Probes(cfg, 0.0, m);
    BurstThenProbes(cfg, INITIAL, cfg.failureThreshold, m);
    TimeoutsIs(cfg, m);
  }

  // ---- the half-open phase ----

  lemma RunSnoc(cfg: Config, s: System, acts: seq<Action>, a: Action)
    requires Run(cfg, s, acts).Some? && Enabled(Run(cfg, s, acts).value, a)
    ensures Run(cfg, s, acts + [a]) == Some(Apply(cfg, Run(cfg, s, acts).value, a))
  {
    assert (acts + [a])[..|acts|] == acts;
  }

  /** Every prefix of a run is a run. */
  lemma {:induction false} RunPrefix(cfg: Config, s: System, acts: seq<Action>, k: nat)
    requires k <= |acts| && Run(cfg, s, acts).Some?
    ensures Run(cfg, s, acts[..k]).Some?
  {
    if k < |acts| {
      var n := |acts| - 1;
      RunPrefix(cfg, s, acts[..n], k);
      assert acts[..n][..k] == acts[..k];
    } else {
      assert acts[..k] == acts;
    }
  }

  /** The calls the breaker lets through in a run. */
  function AdmittedIn(cfg: Config, s: System, acts: seq<Action>): nat
    decreases |acts|
  {
    if acts == [] then 0
    else
      var front, a := acts[..|acts| - 1], acts[|acts| - 1];
      AdmittedIn(cfg, s, front)
      + match Run(cfg, s, front)
        case None => 0
        case Some(t) => if a.Begin? && Enabled(t, a) && Admits(cfg, t.circuit, t.clock) then 1 else 0
  }

  /** A settlement that changes a half-open circuit; an exception of another class does not. */
  predicate Decides(a: Action) {
    a.Settle? && !a.outcome.OtherFailure?
  }

  /** The number of actions before the first deciding settlement. */
  function UntilDecision(acts: seq<Action>): (n: nat)
    ensures n <= |acts|
    ensures forall k :: 0 <= k < n ==> !Decides(acts[k])
    ensures n < |acts| ==> Decides(acts[n])
  {
    if acts == [] || Decides(acts[0]) then 0 else 1 + UntilDecision(acts[1..])
  }

  ghost predicate IsHalfOpen(cfg: Config, s: System, acts: seq<Action>) {
    Run(cfg, s, acts).Some? && Run(cfg, s, acts).value.circuit.state == HALF_OPEN
  }

  ghost predicate NoBegin(acts: seq<Action>) {
    forall k :: 0 <= k < |acts| ==> !acts[k].Begin?
  }

  /** An open circuit whose recovery timeout has passed. */
  ghost predicate Due(cfg: Config, s: System) {
    s.circuit.state == OPEN && ShouldAttemptRecovery(cfg, s.circuit, s.clock)
  }

  /** From the probe's admission on: the circuit stays half open, and every call that begins is admitted too. */
  lemma {:induction false} UndecidedPhase(cfg: Config, s: System, i: nat, phase: seq<Action>)
    requires Due(cfg, s) && Enabled(s, Begin(i)) && Run(cfg, s, [Begin(i)] + phase).Some?
    requires forall k :: 0 <= k < |phase| ==> !Decides(phase[k])
    ensures IsHalfOpen(cfg, s, [Begin(i)] + phase)
    ensures AdmittedIn(cfg, s, [Begin(i)] + phase) >= 1
    ensures AdmittedIn(cfg, s, [Begin(i)] + phase) == 1 <==> NoBegin(phase)
    decreases |phase|
  {
    var acts := [Begin(i)] + phase;
    if phase == [] {
      assert acts[..0] == [] && acts == [Begin(i)];
      RunSnoc(cfg, s, [], Begin(i));
      assert [] + [Begin(i)] == acts;
    } else {
      var n := |phase| - 1;
      assert acts[..|acts| - 1] == [Begin(i)] + phase[..n];
      RunPrefix(cfg, s, acts, |acts| - 1);
      UndecidedPhase(cfg, s, i, phase[..n]);
      assert phase == phase[..n] + [phase[n]];
    }
  }

  lemma PhasePrefix(cfg: Config, s: System, i: nat, rest: seq<Action>, k: nat)
    requires k <= |rest| && Run(cfg, s, [Begin(i)] + rest).Some?
    ensures Run(cfg, s, [Begin(i)] + rest[..k]).Some?
  {
    RunPrefix(cfg, s, [Begin(i)] + rest, k + 1);
    assert ([Begin(i)] + rest)[..k + 1] == [Begin(i)] + rest[..k];
  }

  /** A deciding settlement leaves no circuit half open. */
  lemma DecisionEnds(cfg: Config, s: System, i: nat, rest: seq<Action>, n: nat)
    requires n < |rest| && Run(cfg, s, [Begin(i)] + rest).Some? && Decides(rest[n])
    requires IsHalfOpen(cfg, s, [Begin(i)] + rest[..n])
    ensures !IsHalfOpen(cfg, s, [Begin(i)] + rest[..n + 1])
  {
    PhasePrefix(cfg, s, i, rest, n + 1);
    var run := [Begin(i)] + rest[..n + 1];
    assert run[..|run| - 1] == [Begin(i)] + rest[..n];
  }

  /**
   The half-open phase that a probe begins is the stretch up to the first settlement with a success or an expected
   failure.  It admits exactly one call if and only if no call begins in it, whether or not calls overlap.
   */
  lemma {:induction false} SingleProbeIff(cfg: Config, s: System, i: nat, rest: seq<Action>)
    requires Due(cfg, s) && Enabled(s, Begin(i)) && Run(cfg, s, [Begin(i)] + rest).Some?
    ensures var n := UntilDecision(rest);
      && (forall k :: 0 <= k <= n ==> IsHalfOpen(cfg, s, [Begin(i)] + rest[..k]))
      && (n < |rest| ==> !IsHalfOpen(cfg, s, [Begin(i)] + rest[..n + 1]))
      && (AdmittedIn(cfg, s, [Begin(i)] + rest[..n]) == 1 <==> NoBegin(rest[..n]))
  {
    var n := UntilDecision(rest);
    forall k | 0 <= k <= n ensures IsHalfOpen(cfg, s, [Begin(i)] + rest[..k]) {
      PhasePrefix(cfg, s, i, rest, k);
      UndecidedPhase(cfg, s, i, rest[..k]);
    }
    PhasePrefix(cfg, s, i, rest, n);
    UndecidedPhase(cfg, s, i, rest[..n]);
    if n < |rest| { DecisionEnds(cfg, s, i, rest, n); }
  }

  function Begins(n: nat): seq<Action> {
    seq(n, (i: nat) => Begin(i))
  }

  /**
   So one probe is not what the breaker promises: when an open circuit is due, any number of idle calls that begin
   before one of them settles are all admitted.
   */
  lemma {:induction false} HalfOpenAdmitsEveryone(cfg: Config, s: System, n: nat)
    requires Due(cfg, s) && n <= |s.running| && forall i :: 0 <= i < n ==> !s.running[i]
    ensures var r := Run(cfg, s, Begins(n));
      && r.Some? && |r.value.running| == |s.running| && r.value.clock == s.clock
      && r.value.circuit == (if n == 0 then s.circuit else s.circuit.(state := HALF_OPEN))
      && (forall i :: 0 <= i < |s.running| ==> r.value.running[i] == (i < n || s.running[i]))
    ensures AdmittedIn(cfg, s, Begins(n)) == n
  {
    if n > 0 {
      HalfOpenAdmitsEveryone(cfg, s, n - 1);
      assert Begins(n)[..n - 1] == Begins(n - 1);
    }
  }

  // ---- how long an open circuit rejects ----

  ghost predicate IsOpen(cfg: Config, s: System, acts: seq<Action>) {
    Run(cfg, s, acts).Some? && Run(cfg, s, acts).value.circuit.state == OPEN
  }

  /** The circuit is open before, during and after the run. */
  ghost predicate StaysOpen(cfg: Config, s: System, acts: seq<Action>) {
    forall k :: 0 <= k <= |acts| ==> IsOpen(cfg, s, acts[..k])
  }

  /** What leaves an open circuit: a success that settles, or a call that begins when the circuit is due. */
  ghost predicate Reopens(cfg: Config, t: System, a: Action) {
    (a.Settle? && a.outcome.Success?) || (a.Begin? && Due(cfg, t))
  }

  ghost predicate NothingReopens(cfg: Config, s: System, acts: seq<Action>)
    decreases |acts|
  {
    acts == [] ||
    var front := acts[..|acts| - 1];
    && NothingReopens(cfg, s, front)
    && match Run(cfg, s, front) case None => true case Some(t) => !Reopens(cfg, t, acts[|acts| - 1])
  }

  lemma StaysOpenNext(cfg: Config, s: System, acts: seq<Action>)
    requires acts != []
    ensures StaysOpen(cfg, s, acts) <==> StaysOpen(cfg, s, acts[..|acts| - 1]) && IsOpen(cfg, s, acts)
  {
    var n := |acts| - 1;
    assert acts[..|acts|] == acts;
    forall k | 0 <= k <= n ensures acts[..n][..k] == acts[..k] {
    }
    if StaysOpen(cfg, s, acts) {
      forall k | 0 <= k <= n ensures IsOpen(cfg, s, acts[..n][..k]) {
        assert IsOpen(cfg, s, acts[..k]);
      }
    }
    if StaysOpen(cfg, s, acts[..n]) && IsOpen(cfg, s, acts) {
      forall k | 0 <= k <= |acts| ensures IsOpen(cfg, s, acts[..k]) {
        assert k <= n ==> IsOpen(cfg, s, acts[..n][..k]);
      }
    }
  }

  /**
   In every run from an open circuit it stays open if and only if no success settles and no call begins when it is
   due; and while it stays open it admits nothing.
   */
  lemma {:induction false} StaysOpenIff(cfg: Config, s: System, acts: seq<Action>)
    requires s.circuit.state == OPEN && Run(cfg, s, acts).Some?
    ensures StaysOpen(cfg, s, acts) <==> NothingReopens(cfg, s, acts)
    ensures StaysOpen(cfg, s, acts) ==> AdmittedIn(cfg, s, acts) == 0
  {
    if acts == [] {
      assert acts[..0] == [];
    } else {
      var n := |acts| - 1;
      StaysOpenIff(cfg, s, acts[..n]);
      StaysOpenNext(cfg, s, acts);
      assert acts[..n][..n] == acts[..n];
    }
  }

  ghost predicate NoSuccess(acts: seq<Action>) {
    forall k :: 0 <= k < |acts| ==> !(acts[k].Settle? && acts[k].outcome.Success?)
  }

  /** Time only passes, and the opening time of a circuit that stays open only moves forward with it. */
  lemma {:induction false} OpeningMoves(cfg: Config, s: System, acts: seq<Action>)
    requires s.circuit.state == OPEN && s.circuit.openedAt.Some? && s.circuit.openedAt.value <= s.clock
    requires StaysOpen(cfg, s, acts)
    ensures Run(cfg, s, acts).Some?
    ensures var t := Run(cfg, s, acts).value;
      && t.circuit.openedAt.Some? && s.clock <= t.clock
      && s.circuit.openedAt.value <= t.circuit.openedAt.value <= t.clock
  {
    assert acts[..|acts|] == acts;
    assert IsOpen(cfg, s, acts);
    if acts != [] {
      StaysOpenNext(cfg, s, acts);
      OpeningMoves(cfg, s, acts[..|acts| - 1]);
    }
  }

  /** Short of the recovery timeout only a success reopens. */
  lemma {:induction false} ShortRun(cfg: Config, s: System, acts: seq<Action>)
    requires s.circuit.state == OPEN && s.circuit.openedAt.Some? && s.circuit.openedAt.value <= s.clock
    requires Run(cfg, s, acts).Some?
    requires Run(cfg, s, acts).value.clock - s.circuit.openedAt.value < cfg.recoveryTimeout
    ensures NothingReopens(cfg, s, acts) <==> NoSuccess(acts)
  {
    if acts != [] {
      var n := |acts| - 1;
      var front, t := acts[..n], Run(cfg, s, acts[..n]).value;
      ShortRun(cfg, s, front);
      StaysOpenIff(cfg, s, front);
      assert NoSuccess(acts) <==> NoSuccess(front) && !(acts[n].Settle? && acts[n].outcome.Success?) by {
        assert acts == front + [acts[n]];
      }
      if NothingReopens(cfg, s, front) {
        OpeningMoves(cfg, s, front);
      }
    }
  }

  /**
   An open circuit rejects until it is due, unless a success settles late: in every run that ends less than the
   recovery timeout after the opening, the circuit stays open, and then admits nothing, if and only if no success
   settles.
   */
  lemma {:induction false} RejectsUntilDueIff(cfg: Config, s: System, acts: seq<Action>)
    requires s.circuit.state == OPEN && s.circuit.openedAt.Some? && s.circuit.openedAt.value <= s.clock
    requires Run(cfg, s, acts).Some?
    requires Run(cfg, s, acts).value.clock - s.circuit.openedAt.value < cfg.recoveryTimeout
    ensures StaysOpen(cfg, s, acts) <==> NoSuccess(acts)
    ensures NoSuccess(acts) ==> AdmittedIn(cfg, s, acts) == 0
  {
    StaysOpenIff(cfg, s, acts);
    ShortRun(cfg, s, acts);
  }

  // ---- runs that reach an open circuit ----

  /** n calls of slot i, each failing with the expected exception before the next begins. */
  function Fails(i: nat, n: nat): seq<Action> {
    if n == 0 then [] else Fails(i, n - 1) + [Begin(i)] + [Settle(i, ExpectedFailure)]
  }

  /** A call of an idle slot that begins in a closed circuit and fails. */
  lemma FailOnce(cfg: Config, s: System, acts: seq<Action>, i: nat)
    requires Run(cfg, s, acts).Some?
    requires var t := Run(cfg, s, acts).value; t.circuit.state == CLOSED && i < |t.running| && !t.running[i]
    ensures var t := Run(cfg, s, acts).value;
      Run(cfg, s, acts + [Begin(i)] + [Settle(i, ExpectedFailure)])
        == Some(t.(circuit := OnFailure(cfg, t.circuit, t.clock)))
  {
    var t := Run(cfg, s, acts).value;
    RunSnoc(cfg, s, acts, Begin(i));
    RunSnoc(cfg, s, acts + [Begin(i)], Settle(i, ExpectedFailure));
    assert t.running[i := true][i := false] == t.running;
  }

  /** The circuit after n failures from the start. */
  function AfterFailures(cfg: Config, n: nat, at: real): Circuit {
    if n == 0 || n < cfg.failureThreshold then Circuit(CLOSED, n, None) else Circuit(OPEN, n, Some(at))
  }

  /** As many failures as are missing to the threshold open the circuit. */
  lemma {:induction false} FailuresOpen(cfg: Config, s: System, pre: seq<Action>, i: nat, n: nat)
    requires Run(cfg, s, pre).Some? && n <= cfg.failureThreshold
    requires var t := Run(cfg, s, pre).value; t.circuit == INITIAL && i < |t.running| && !t.running[i]
    ensures var t := Run(cfg, s, pre).value;
      Run(cfg, s, pre + Fails(i, n)) == Some(t.(circuit := AfterFailures(cfg, n, t.clock)))
  {
    if n == 0 {
      assert pre + Fails(i, 0) == pre;
    } else {
      FailuresOpen(cfg, s, pre, i, n - 1);
      var acts := pre + Fails(i, n - 1);
      FailOnce(cfg, s, acts, i);
      assert pre + Fails(i, n) == acts + [Begin(i)] + [Settle(i, ExpectedFailure)];
    }
  }

  /** From the start: threshold failures and the recovery timeout, and every call is idle. */
  lemma ReachDue(cfg: Config, calls: nat) returns (acts: seq<Action>, s: System)
    requires cfg.failureThreshold >= 1 && cfg.recoveryTimeout >= 0.0 && calls >= 1
    ensures Run(cfg, Init(calls), acts) == Some(s) && Due(cfg, s)
    ensures |s.running| == calls && forall i :: 0 <= i < calls ==> !s.running[i]
  {
    FailuresOpen(cfg, Init(calls), [], 0, cfg.failureThreshold);
    acts := Fails(0, cfg.failureThreshold);
    assert [] + acts == acts;
    RunSnoc(cfg, Init(calls), acts, Wait(cfg.recoveryTimeout));
    acts := acts + [Wait(cfg.recoveryTimeout)];
    s := Run(cfg, Init(calls), acts).value;
  }

  /** For every threshold, timeout and number of calls some run lets them all through one half-open phase. */
  lemma AnyNumberOfProbes(cfg: Config, n: nat) returns (acts: seq<Action>, s: System)
    requires cfg.failureThreshold >= 1 && cfg.recoveryTimeout >= 0.0 && n >= 1
    ensures Run(cfg, Init(n), acts) == Some(s) && Due(cfg, s)
    ensures IsHalfOpen(cfg, s, Begins(n)) && AdmittedIn(cfg, s, Begins(n)) == n
  {
    acts, s := ReachDue(cfg, n);
    HalfOpenAdmitsEveryone(cfg, s, n);
  }

  /** Calls need not overlap either: a probe that ends with another exception leaves the next one a probe too. */
  lemma UnexpectedErrorAdmitsNext(cfg: Config) returns (acts: seq<Action>, s: System)
    requires cfg.failureThreshold >= 1 && cfg.recoveryTimeout >= 0.0
    ensures Run(cfg, Init(2), acts) == Some(s) && Due(cfg, s)
    ensures var probes := [Begin(0), Settle(0, OtherFailure), Begin(1)];
      IsHalfOpen(cfg, s, probes) && AdmittedIn(cfg, s, probes) == 2
  {
    acts, s := ReachDue(cfg, 2);
    var probes := [Begin(0), Settle(0, OtherFailure), Begin(1)];
    assert probes[..2] == [Begin(0), Settle(0, OtherFailure)] && probes[..2][..1] == [Begin(0)];
    assert [Begin(0)][..0] == [];
  }

  /**
   A success that settles late closes an open circuit that is not due: a call begins, the failures of others open
   the circuit, and any time short of the recovery timeout later the call succeeds.  The next call, which would
   have been rejected, is admitted.
   */
  lemma LateSuccessCloses(cfg: Config, elapsed: real) returns (acts: seq<Action>, s: System)
    requires cfg.failureThreshold >= 1 && 0.0 <= elapsed < cfg.recoveryTimeout
    ensures Run(cfg, Init(2), acts) == Some(s)
    ensures s.circuit.state == OPEN && s.running == [true, false] && !Admits(cfg, s.circuit, s.clock)
    ensures s.circuit.openedAt == Some(s.clock - elapsed)
    ensures var r := Run(cfg, Init(2), acts + [Settle(0, Success)]);
      r.Some? && r.value.circuit == INITIAL && Admits(cfg, r.value.circuit, r.value.clock)
  {
    RunSnoc(cfg, Init(2), [], Begin(0));
    assert [] + [Begin(0)] == [Begin(0)];
    FailuresOpen(cfg, Init(2), [Begin(0)], 1, cfg.failureThreshold);
    acts := [Begin(0)] + Fails(1, cfg.failureThreshold);
    RunSnoc(cfg, Init(2), acts, Wait(elapsed));
    acts := acts + [Wait(elapsed)];
    s := Run(cfg, Init(2), acts).value;
    RunSnoc(cfg, Init(2), acts, Settle(0, Success));
  }
}
