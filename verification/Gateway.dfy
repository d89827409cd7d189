/** The payment gateway client: retry around the circuit breaker around one HTTP call. */
module Gateway {
  import opened Sequences
  import opened Breaker
  import Retry

  datatype Settings = Settings(breaker: Config, maxAttempts: int, baseDelay: real)

  /** What the environment does: the outcome and duration of the k-th HTTP call, and the jitter of the k-th sleep. */
  datatype Env = Env(reply: nat -> Outcome, duration: nat -> real, jitter: nat -> real, gap: nat -> real)

  datatype ChargeResult = Charged | HttpFailed | CircuitOpen | OtherError

  /** `openings` records the times at which the circuit was opened. */
  datatype State = State(circuit: Circuit, clock: real, http: nat, sleeps: seq<real>, openings: seq<real>)

  /** The HTTP call itself, settled through the breaker. */
  function HttpCall(cfg: Settings, env: Env, s: State): State {
    var now := s.clock + env.duration(s.http);
    var c := Settled(cfg.breaker, BeforeCall(cfg.breaker, s.circuit, s.clock), env.reply(s.http), now);
    State(c, now, s.http + 1, s.sleeps,
          if env.reply(s.http).ExpectedFailure? && c.state == OPEN then s.openings + [now] else s.openings)
  }

  function DelayOf(base: real, power: nat, jitter: real): real {
    base * power as real + jitter
  }

  function Delay(cfg: Settings, env: Env, s: State, attempt: nat): real
    requires attempt >= 1
  {
    DelayOf(cfg.baseDelay, Retry.Pow2(attempt - 1), env.jitter(|s.sleeps|))
  }

  function Slept(s: State, d: real): State {
    s.(clock := s.clock + d, sleeps := s.sleeps + [d])
  }

  /** A charge from its given attempt on. */
  function Attempts(cfg: Settings, env: Env, s: State, attempt: nat): (State, ChargeResult)
    requires attempt >= 1
    decreases cfg.maxAttempts - attempt
  {
    if !Admits(cfg.breaker, s.circuit, s.clock) then (s, CircuitOpen)
    else
      var s' := HttpCall(cfg, env, s);
      match env.reply(s.http)
      case Success => (s', Charged)
      case OtherFailure => (s', OtherError)
      case ExpectedFailure =>
        if attempt >= cfg.maxAttempts then (s', HttpFailed)
        else Attempts(cfg, env, Slept(s', Delay(cfg, env, s', attempt)), attempt + 1)
  }

  function Paused(s: State, gap: real): State {
    s.(clock := s.clock + gap)
  }

  /** n consecutive charges, with a pause before each. */
  function Charges(cfg: Settings, env: Env, s: State, n: nat): State {
    if n == 0 then s
    else
      Attempts(cfg, env, Paused(Charges(cfg, env, s, n - 1), env.gap(n - 1)), 1).0
  }

  /** The three ways an attempt continues. */
  lemma AttemptCases(cfg: Settings, env: Env, s: State, attempt: nat)
    requires attempt >= 1 && Admits(cfg.breaker, s.circuit, s.clock)
    ensures var s' := HttpCall(cfg, env, s);
      Attempts(cfg, env, s, attempt) ==
        match env.reply(s.http)
        case Success => (s', Charged)
        case OtherFailure => (s', OtherError)
        case ExpectedFailure =>
          if attempt >= cfg.maxAttempts then (s', HttpFailed)
          else Attempts(cfg, env, Slept(s', Delay(cfg, env, s', attempt)), attempt + 1)
  {
  }

  class GatewayClient {
    const maxAttempts: int
    const baseDelay: real
    const breaker: CircuitBreaker
    var clock: real
    var http: nat
    var sleeps: seq<real>
    ghost var openings: seq<real>

    constructor (maxAttempts: int, baseDelay: real, breaker: CircuitBreaker)
      ensures this.maxAttempts == maxAttempts && this.baseDelay == baseDelay && this.breaker == breaker
      ensures Abs() == State(breaker.Abs(), 0.0, 0, [], [])
    {
      this.maxAttempts, this.baseDelay, this.breaker := maxAttempts, baseDelay, breaker;
      clock, http, sleeps, openings := 0.0, 0, [], [];
    }

    ghost function Cfg(): Settings {
      Settings(breaker.cfg, maxAttempts, baseDelay)
    }

    ghost function Abs(): State
      reads this, breaker
    {
      State(breaker.Abs(), clock, http, sleeps, openings)
    }

    /** The function passed to retry: one HTTP call through the breaker. */
    method CallOnce(env: Env) returns (r: CallResult, o: Outcome)
      modifies this, breaker
      ensures r == Rejected <==> !Admits(breaker.cfg, old(breaker.Abs()), old(clock))
      ensures r == Rejected ==> Abs() == old(Abs())
      ensures r != Rejected ==>
        o == env.reply(old(http)) && (r == Returned <==> o.Success?) && Abs() == HttpCall(Cfg(), env, old(Abs()))
    {
      o := env.reply(http);
      var done := clock + env.duration(http);
      r := breaker.Call(clock, done, o);
      if r != Rejected {
        clock := done;
        http := http + 1;
        if o.ExpectedFailure? && breaker.state == OPEN { openings := openings + [done]; }
      }
    }

    /** Waits for the backoff delay of the attempt. */
    method Sleep(env: Env, attempt: nat, power: nat)
      requires attempt >= 1 && power == Retry.Pow2(attempt - 1)
      modifies this`clock, this`sleeps
      ensures Abs() == Slept(old(Abs()), Delay(Cfg(), env, old(Abs()), attempt))
    {
      var delay := DelayOf(baseDelay, power, env.jitter(|sleeps|));
      clock := clock + delay;
      sleeps := sleeps + [delay];
    }

    /** Retries expected failures with backoff; an open circuit and any other exception propagate at once. */
    method Charge(env: Env) returns (r: ChargeResult)
      modifies this, breaker
      ensures (Abs(), r) == Attempts(Cfg(), env, old(Abs()), 1)
    {
      var attempt := 0;
      var power := 1;
      while true
        invariant attempt == 0 || attempt < maxAttempts
        invariant power == Retry.Pow2(attempt)
        invariant Attempts(Cfg(), env, Abs(), attempt + 1) == Attempts(Cfg(), env, old(Abs()), 1)
        decreases if attempt == 0 then maxAttempts + 1 else maxAttempts - attempt
      {
        attempt := attempt + 1;
        ghost var s := Abs();
        if Admits(breaker.cfg, s.circuit, s.clock) { AttemptCases(Cfg(), env, s, attempt); }
        var called, outcome := CallOnce(env);
        if called == Rejected {
          return CircuitOpen;
        }
        match outcome {
          case Success => return Charged;
          case OtherFailure => return OtherError;
          case ExpectedFailure =>
        }
        if attempt >= maxAttempts {
          return HttpFailed;
        }
        Sleep(env, attempt, power);
        power := 2 * power;
      }
    }
  }

  // ---- one charge, against any gateway ----

  /** The HTTP calls made between two states all failed with the expected exception. */
  ghost predicate AllFailed(env: Env, from: nat, to: nat) {
    forall k :: from <= k < to ==> env.reply(k) == ExpectedFailure
  }

  /** The sleeps added since `from`, whose first follows the given attempt, double from one to the next. */
  ghost predicate SleepsDouble(cfg: Settings, env: Env, from: nat, attempt: nat, sleeps: seq<real>)
    requires attempt >= 1
  {
    forall i :: from <= i < |sleeps| ==>
      sleeps[i] == DelayOf(cfg.baseDelay, Retry.Pow2(attempt - 1 + (i - from)), env.jitter(i))
  }

  /** What a charge begun at its given attempt reports, by the replies it got. */
  ghost predicate ChargeExplained(cfg: Settings, env: Env, s: State, attempt: nat, t: State, r: ChargeResult)
  {
    var made, left := t.http - s.http, Retry.AtLeastOne(cfg.maxAttempts - attempt + 1);
    && 0 <= made <= left
    && match r
       case Charged => made >= 1 && AllFailed(env, s.http, t.http - 1) && env.reply(t.http - 1) == Success
       case OtherError => made >= 1 && AllFailed(env, s.http, t.http - 1) && env.reply(t.http - 1) == OtherFailure
       case HttpFailed => made == left && AllFailed(env, s.http, t.http)
       case CircuitOpen => made < left && AllFailed(env, s.http, t.http) && !Admits(cfg.breaker, t.circuit, t.clock)
  }

  lemma ExplainedNext(cfg: Settings, env: Env, s: State, u: State, attempt: nat, t: State, r: ChargeResult)
    requires 1 <= attempt < cfg.maxAttempts && u.http == s.http + 1 && env.reply(s.http) == ExpectedFailure
    requires ChargeExplained(cfg, env, u, attempt + 1, t, r)
    ensures ChargeExplained(cfg, env, s, attempt, t, r)
  {
    assert forall to :: AllFailed(env, u.http, to) ==> AllFailed(env, s.http, to);
  }

  lemma SleepsFrom(cfg: Settings, env: Env, s: State, u: State, attempt: nat, sleeps: seq<real>)
    requires attempt >= 1 && u.sleeps <= sleeps
    requires u.sleeps == s.sleeps + [DelayOf(cfg.baseDelay, Retry.Pow2(attempt - 1), env.jitter(|s.sleeps|))]
    requires SleepsDouble(cfg, env, |u.sleeps|, attempt + 1, sleeps)
    ensures s.sleeps <= sleeps && SleepsDouble(cfg, env, |s.sleeps|, attempt, sleeps)
  {
    assert sleeps[|s.sleeps|] == u.sleeps[|s.sleeps|];
  }

  /** What a charge begun at its given attempt comes to: its calls, its result, and a sleep after each retried call. */
  ghost predicate ChargeFits(cfg: Settings, env: Env, s: State, attempt: nat, t: State, r: ChargeResult)
    requires attempt >= 1
  {
    && ChargeExplained(cfg, env, s, attempt, t, r)
    && s.sleeps <= t.sleeps
    && |t.sleeps| - |s.sleeps| == (t.http - s.http) - (if r == CircuitOpen then 0 else 1)
    && SleepsDouble(cfg, env, |s.sleeps|, attempt, t.sleeps)
  }

  lemma LastCallFits(cfg: Settings, env: Env, s: State, attempt: nat)
    requires attempt >= 1 && Admits(cfg.breaker, s.circuit, s.clock)
    requires env.reply(s.http) != ExpectedFailure || attempt >= cfg.maxAttempts
    ensures var (t, r) := Attempts(cfg, env, s, attempt); ChargeFits(cfg, env, s, attempt, t, r)
  {
  }

  lemma NextCallFits(cfg: Settings, env: Env, s: State, attempt: nat, u: State, t: State, r: ChargeResult)
    requires 1 <= attempt < cfg.maxAttempts && env.reply(s.http) == ExpectedFailure
    requires u.http == s.http + 1
    requires u.sleeps == s.sleeps + [DelayOf(cfg.baseDelay, Retry.Pow2(attempt - 1), env.jitter(|s.sleeps|))]
    requires ChargeFits(cfg, env, u, attempt + 1, t, r)
    ensures ChargeFits(cfg, env, s, attempt, t, r)
  {
    ExplainedNext(cfg, env, s, u, attempt, t, r);
    SleepsFrom(cfg, env, s, u, attempt, t.sleeps);
  }

  /**
   A charge against any gateway makes at most the allowed HTTP calls; every call but the last failed as expected
   and the result tells how the last one ended or that the circuit then rejected the next; between two calls, and
   before a rejection, it slept once, with doubling delays.
   */
  lemma {:induction false} ChargeOutcome(cfg: Settings, env: Env, s: State, attempt: nat)
    requires attempt >= 1
    ensures var (t, r) := Attempts(cfg, env, s, attempt); ChargeFits(cfg, env, s, attempt, t, r)
    decreases cfg.maxAttempts - attempt
  {
    if Admits(cfg.breaker, s.circuit, s.clock) {
      if env.reply(s.http) == ExpectedFailure && attempt < cfg.maxAttempts {
        AttemptCases(cfg, env, s, attempt);
        var s' := HttpCall(cfg, env, s);
        var u := Slept(s', Delay(cfg, env, s', attempt));
        ChargeOutcome(cfg, env, u, attempt + 1);
        var (t, r) := Attempts(cfg, env, u, attempt + 1);
        NextCallFits(cfg, env, s, attempt, u, t, r);
      } else {
        LastCallFits(cfg, env, s, attempt);
      }
    }
  }

  lemma TwicePower(base: real, k: nat)
    ensures base * Retry.Pow2(k + 1) as real == 2.0 * (base * Retry.Pow2(k) as real)
  {
    var p := Retry.Pow2(k) as real;
    assert Retry.Pow2(k + 1) as real == 2.0 * p;
    assert base * (2.0 * p) == 2.0 * (base * p);
  }

  /** The durations of the HTTP calls from number `from` up to `to`. */
  function Durations(env: Env, from: nat, to: nat): real
    decreases to - from
  {
    if from >= to then 0.0 else env.duration(from) + Durations(env, from + 1, to)
  }

  lemma {:induction false} SumCons(x: real, xs: seq<real>)
    ensures Retry.Sum([x] + xs) == x + Retry.Sum(xs)
  {
    if xs == [] {
      assert [x] + xs == [x] && [x][..0] == [];
    } else {
      var n := |xs| - 1;
      SumCons(x, xs[..n]);
      assert ([x] + xs)[..n + 1] == [x] + xs[..n];
    }
  }

  /** From s to t the clock has moved by the HTTP calls and the sleeps between them. */
  ghost predicate ClockMoved(env: Env, s: State, t: State) {
    && s.http <= t.http && s.sleeps <= t.sleeps
    && t.clock == s.clock + Durations(env, s.http, t.http) + Retry.Sum(t.sleeps[|s.sleeps|..])
  }

  lemma NoCallClock(env: Env, s: State)
    ensures ClockMoved(env, s, s)
  {
    assert s.sleeps[|s.sleeps|..] == [];
  }

  lemma OneCallClock(cfg: Settings, env: Env, s: State)
    ensures ClockMoved(env, s, HttpCall(cfg, env, s))
  {
    assert HttpCall(cfg, env, s).sleeps[|s.sleeps|..] == [];
    assert Durations(env, s.http, s.http + 1) == env.duration(s.http) + Durations(env, s.http + 1, s.http + 1);
  }

  lemma CallAndSleepClock(env: Env, s: State, u: State, d: real, t: State)
    requires u.http == s.http + 1 && u.sleeps == s.sleeps + [d]
    requires u.clock == s.clock + env.duration(s.http) + d
    requires ClockMoved(env, u, t)
    ensures ClockMoved(env, s, t)
  {
    assert t.sleeps[|s.sleeps|] == u.sleeps[|s.sleeps|] == d;
    assert t.sleeps[|s.sleeps|..] == [d] + t.sleeps[|u.sleeps|..];
    SumCons(d, t.sleeps[|u.sleeps|..]);
  }

  /** A charge takes as long as its HTTP calls and its sleeps. */
  lemma {:induction false} ChargeClock(cfg: Settings, env: Env, s: State, attempt: nat)
    requires attempt >= 1
    ensures ClockMoved(env, s, Attempts(cfg, env, s, attempt).0)
    decreases cfg.maxAttempts - attempt
  {
    if Admits(cfg.breaker, s.circuit, s.clock) {
      AttemptCases(cfg, env, s, attempt);
      OneCallClock(cfg, env, s);
      if env.reply(s.http) == ExpectedFailure && attempt < cfg.maxAttempts {
        var s' := HttpCall(cfg, env, s);
        var d := Delay(cfg, env, s', attempt);
        ChargeClock(cfg, env, Slept(s', d), attempt + 1);
        CallAndSleepClock(env, s, Slept(s', d), d, Attempts(cfg, env, Slept(s', d), attempt + 1).0);
      }
    } else {
      NoCallClock(env, s);
    }
  }

  /** Less their jitters, the sleeps start at the base delay and double. */
  ghost predicate StartsAndDoubles(base: real, env: Env, from: nat, sleeps: seq<real>) {
    && (from < |sleeps| ==> sleeps[from] - env.jitter(from) == base)
    && (forall i :: from <= i < |sleeps| - 1 ==>
          sleeps[i + 1] - env.jitter(i + 1) == 2.0 * (sleeps[i] - env.jitter(i)))
  }

  lemma NextDouble(cfg: Settings, env: Env, from: nat, sleeps: seq<real>, i: nat)
    requires SleepsDouble(cfg, env, from, 1, sleeps) && from <= i < |sleeps| - 1
    ensures sleeps[i + 1] - env.jitter(i + 1) == 2.0 * (sleeps[i] - env.jitter(i))
  {
    var k := i - from;
    assert sleeps[i] == DelayOf(cfg.baseDelay, Retry.Pow2(k), env.jitter(i));
    assert sleeps[i + 1] == DelayOf(cfg.baseDelay, Retry.Pow2(k + 1), env.jitter(i + 1));
    TwicePower(cfg.baseDelay, k);
  }

  lemma PowersDouble(cfg: Settings, env: Env, from: nat, sleeps: seq<real>)
    requires SleepsDouble(cfg, env, from, 1, sleeps)
    ensures StartsAndDoubles(cfg.baseDelay, env, from, sleeps)
  {
    if from < |sleeps| {
      assert sleeps[from] == DelayOf(cfg.baseDelay, Retry.Pow2(0), env.jitter(from));
    }
    forall i | from <= i < |sleeps| - 1
      ensures sleeps[i + 1] - env.jitter(i + 1) == 2.0 * (sleeps[i] - env.jitter(i))
    {
      NextDouble(cfg, env, from, sleeps, i);
    }
  }

  /**
   The sleeps of a charge against any gateway: less its jitter, the first is the base delay and each further one
   twice the one before; and the clock has moved by the HTTP calls and the sleeps.
   */
  lemma {:induction false} ChargeSleeps(cfg: Settings, env: Env, s: State)
    ensures var t := Attempts(cfg, env, s, 1).0;
      && StartsAndDoubles(cfg.baseDelay, env, |s.sleeps|, t.sleeps)
      && ClockMoved(env, s, t)
  {
    ChargeOutcome(cfg, env, s, 1);
    ChargeClock(cfg, env, s, 1);
    PowersDouble(cfg, env, |s.sleeps|, Attempts(cfg, env, s, 1).0.sleeps);
  }

  // ---- a gateway that always fails ----

  ghost predicate AlwaysFails(cfg: Settings, env: Env) {
    && (forall k :: env.reply(k) == ExpectedFailure)
    && (forall k :: env.duration(k) >= 0.0) && (forall k :: env.jitter(k) >= 0.0) && (forall k :: env.gap(k) >= 0.0)
    && cfg.baseDelay >= 0.0
  }

  /** Every opening after the first `base` ones lies less than the recovery timeout before `until`. */
  ghost predicate NoRecoveryBefore(cfg: Settings, openings: seq<real>, base: nat, until: real) {
    forall k :: base <= k < |openings| ==> until - openings[k] < cfg.breaker.recoveryTimeout
  }

  /** The circuit has been opened since the first `base` openings exactly when it is not closed. */
  ghost predicate StateOk(cfg: Settings, s: State, base: nat) {
    && CircuitOk(cfg.breaker, s.circuit)
    && s.circuit.state != HALF_OPEN
    && (s.circuit.state == OPEN ==>
          |s.openings| > base && s.circuit.openedAt == Some(s.openings[|s.openings| - 1]))
    && (s.circuit.state == CLOSED ==> |s.openings| == base)
  }

  /** The clock never goes back and openings are only added. */
  lemma {:induction false} AttemptsGrow(cfg: Settings, env: Env, s: State, attempt: nat)
    requires AlwaysFails(cfg, env) && attempt >= 1
    ensures var t := Attempts(cfg, env, s, attempt).0;
      s.clock <= t.clock && s.openings <= t.openings
    decreases cfg.maxAttempts - attempt
  {
    if Admits(cfg.breaker, s.circuit, s.clock) && attempt < cfg.maxAttempts {
      var s' := HttpCall(cfg, env, s);
      var d := Delay(cfg, env, s', attempt);
      assert cfg.baseDelay * Retry.Pow2(attempt - 1) as real >= 0.0;
      AttemptsGrow(cfg, env, Slept(s', d), attempt + 1);
    }
  }

  lemma {:induction false} ChargesGrow(cfg: Settings, env: Env, s: State, n: nat, m: nat)
    requires AlwaysFails(cfg, env) && n <= m
    ensures Charges(cfg, env, s, n).clock <= Charges(cfg, env, s, m).clock
    ensures Charges(cfg, env, s, n).openings <= Charges(cfg, env, s, m).openings
    decreases m
  {
    if n < m {
      ChargesGrow(cfg, env, s, n, m - 1);
      AttemptsGrow(cfg, env, Paused(Charges(cfg, env, s, m - 1), env.gap(m - 1)), 1);
    }
  }

  /** A charge begun while the circuit is open and not due fails at once: no HTTP call and no sleep. */
  lemma OpenChargeIsImmediate(cfg: Settings, env: Env, s: State)
    requires s.circuit.state == OPEN && s.circuit.openedAt.Some?
    requires s.clock - s.circuit.openedAt.value < cfg.breaker.recoveryTimeout
    ensures Attempts(cfg, env, s, 1) == (s, CircuitOpen)
  {
  }

  function Capped(a: nat, b: nat): nat { if a <= b then a else b }

  /** The attempts a charge is allowed: at least one. */
  function Allowed(cfg: Settings): nat {
    Retry.AtLeastOne(cfg.maxAttempts)
  }

  /** `made` failures since the circuit was closed with count 0: it is open when they reach the threshold. */
  ghost predicate FailedSince(cfg: Settings, t: State, base: nat, made: int) {
    && StateOk(cfg, t, base)
    && (t.circuit.state == CLOSED ==> made == t.circuit.failures)
    && (t.circuit.state == OPEN <==> made == cfg.breaker.failureThreshold)
  }

  /** Less than the recovery timeout has passed, up to `until`, since any opening after the first `base` ones. */
  ghost predicate Quick(cfg: Settings, t: State, base: nat, until: real) {
    t.clock <= until && NoRecoveryBefore(cfg, t.openings, base, until)
  }

  lemma QuickBefore(cfg: Settings, t: State, u: State, base: nat, until: real)
    requires t.clock <= u.clock && t.openings <= u.openings && Quick(cfg, u, base, until)
    ensures Quick(cfg, t, base, until)
  {
    forall k | base <= k < |t.openings| ensures until - t.openings[k] < cfg.breaker.recoveryTimeout {
      assert u.openings[k] == t.openings[k];
    }
  }

  lemma RejectedNow(cfg: Settings, u: State, t: State, base: nat, until: real)
    requires StateOk(cfg, u, base) && u.circuit.state == OPEN
    requires u.clock <= t.clock && u.openings <= t.openings && Quick(cfg, t, base, until)
    ensures !Admits(cfg.breaker, u.circuit, u.clock)
  {
    QuickBefore(cfg, u, t, base, until);
  }

  /** From a closed circuit, a charge makes its allowed attempts or the failures missing to the threshold. */
  lemma {:induction false} ClosedCharge(cfg: Settings, env: Env, s: State, attempt: nat, base: nat, from: nat,
                                        until: real)
    requires AlwaysFails(cfg, env) && 1 <= attempt <= Allowed(cfg)
    requires s.circuit.state == CLOSED && FailedSince(cfg, s, base, s.http - from)
    requires Quick(cfg, Attempts(cfg, env, s, attempt).0, base, until)
    ensures var t := Attempts(cfg, env, s, attempt).0;
      && FailedSince(cfg, t, base, t.http - from)
      && t.http - from == Capped(cfg.breaker.failureThreshold, s.http - from + (Allowed(cfg) - attempt + 1))
    decreases Allowed(cfg) - attempt
  {
    var s' := HttpCall(cfg, env, s);
    if attempt < cfg.maxAttempts {
      var u := Slept(s', Delay(cfg, env, s', attempt));
      AttemptsGrow(cfg, env, u, attempt + 1);
      if s'.circuit.state == CLOSED {
        ClosedCharge(cfg, env, u, attempt + 1, base, from, until);
      } else {
        RejectedNow(cfg, u, Attempts(cfg, env, u, attempt + 1).0, base, until);
      }
    }
  }

  /** The attempts n charges are allowed. */
  function Planned(cfg: Settings, n: nat): nat {
    if n == 0 then 0 else Planned(cfg, n - 1) + Allowed(cfg)
  }

  lemma {:induction false} PlannedIs(cfg: Settings, n: nat)
    ensures Planned(cfg, n) == n * Allowed(cfg)
  {
    if n > 0 { PlannedIs(cfg, n - 1); }
  }

  /** What n failing charges from s come to: min(threshold, planned attempts) HTTP calls, and open at the threshold. */
  ghost predicate Counted(cfg: Settings, s: State, t: State, n: nat) {
    && FailedSince(cfg, t, |s.openings|, t.http - s.http)
    && t.http - s.http == Capped(cfg.breaker.failureThreshold, Planned(cfg, n))
  }

  lemma OneMoreCharge(cfg: Settings, env: Env, s: State, t: State, n: nat, until: real)
    requires AlwaysFails(cfg, env) && Counted(cfg, s, t, n)
    requires Quick(cfg, Attempts(cfg, env, t, 1).0, |s.openings|, until)
    ensures Counted(cfg, s, Attempts(cfg, env, t, 1).0, n + 1)
  {
    if t.circuit.state == CLOSED {
      ClosedCharge(cfg, env, t, 1, |s.openings|, s.http, until);
    } else {
      AttemptsGrow(cfg, env, t, 1);
      RejectedNow(cfg, t, Attempts(cfg, env, t, 1).0, |s.openings|, until);
    }
  }

  lemma ChargeAfterPause(cfg: Settings, env: Env, s: State, t: State, gap: real, n: nat, until: real)
    requires AlwaysFails(cfg, env) && Counted(cfg, s, t, n)
    requires Quick(cfg, Attempts(cfg, env, Paused(t, gap), 1).0, |s.openings|, until)
    ensures Counted(cfg, s, Attempts(cfg, env, Paused(t, gap), 1).0, n + 1)
  {
    assert Counted(cfg, s, Paused(t, gap), n);
    OneMoreCharge(cfg, env, s, Paused(t, gap), n, until);
  }

  lemma NoCharge(cfg: Settings, s: State)
    requires cfg.breaker.failureThreshold >= 1 && s.circuit == INITIAL
    ensures Counted(cfg, s, s, 0)
  {
  }

  lemma {:induction false} ChargesCounted(cfg: Settings, env: Env, s: State, n: nat, until: real)
    requires AlwaysFails(cfg, env) && cfg.breaker.failureThreshold >= 1 && s.circuit == INITIAL
    requires Quick(cfg, Charges(cfg, env, s, n), |s.openings|, until)
    ensures Counted(cfg, s, Charges(cfg, env, s, n), n)
  {
    if n == 0 {
      NoCharge(cfg, s);
    } else {
      var t := Charges(cfg, env, s, n - 1);
      ChargesGrow(cfg, env, s, n - 1, n);
      QuickBefore(cfg, t, Charges(cfg, env, s, n), |s.openings|, until);
      ChargesCounted(cfg, env, s, n - 1, until);
      ChargeAfterPause(cfg, env, s, t, env.gap(n - 1), n - 1, until);
    }
  }

  /**
   From a closed circuit with count 0, n consecutive charges against an always-failing gateway, with less than the
   recovery timeout elapsing after any opening, make exactly min(threshold, n * allowed attempts) HTTP calls, and the
   circuit is open exactly when those are the threshold.
   */
  lemma {:induction false} FailingChargesCount(cfg: Settings, env: Env, s: State, n: nat, until: real)
    requires AlwaysFails(cfg, env) && cfg.breaker.failureThreshold >= 1 && s.circuit == INITIAL
    requires Quick(cfg, Charges(cfg, env, s, n), |s.openings|, until)
    ensures var t := Charges(cfg, env, s, n);
      && t.http - s.http == Capped(cfg.breaker.failureThreshold, n * Allowed(cfg))
      && FailedSince(cfg, t, |s.openings|, t.http - s.http)
  {
    ChargesCounted(cfg, env, s, n, until);
    PlannedIs(cfg, n);
  }

  lemma OpenIsRejected(cfg: Settings, env: Env, s: State, t: State, gap: real, n: nat, until: real)
    requires AlwaysFails(cfg, env) && Counted(cfg, s, t, n) && t.circuit.state == OPEN
    requires Quick(cfg, Attempts(cfg, env, Paused(t, gap), 1).0, |s.openings|, until)
    ensures Attempts(cfg, env, Paused(t, gap), 1) == (Paused(t, gap), CircuitOpen)
  {
    var begun := Paused(t, gap);
    assert Counted(cfg, s, begun, n);
    AttemptsGrow(cfg, env, begun, 1);
    RejectedNow(cfg, begun, Attempts(cfg, env, begun, 1).0, |s.openings|, until);
  }

  lemma QuickAt(cfg: Settings, env: Env, s: State, n: nat, m: nat, base: nat, until: real)
    requires AlwaysFails(cfg, env) && n <= m && Quick(cfg, Charges(cfg, env, s, m), base, until)
    ensures Quick(cfg, Charges(cfg, env, s, n), base, until)
  {
    ChargesGrow(cfg, env, s, n, m);
    QuickBefore(cfg, Charges(cfg, env, s, n), Charges(cfg, env, s, m), base, until);
  }

  /** Every charge begun after the opening raises CircuitBreakerOpenError and changes nothing. */
  lemma {:induction false} ChargesAfterOpening(cfg: Settings, env: Env, s: State, n: nat, m: nat, until: real)
    requires AlwaysFails(cfg, env) && cfg.breaker.failureThreshold >= 1 && s.circuit == INITIAL
    requires n < m && Charges(cfg, env, s, n).circuit.state == OPEN
    requires Quick(cfg, Charges(cfg, env, s, m), |s.openings|, until)
    ensures var begun := Paused(Charges(cfg, env, s, n), env.gap(n));
      Attempts(cfg, env, begun, 1) == (begun, CircuitOpen)
  {
    QuickAt(cfg, env, s, n, m, |s.openings|, until);
    QuickAt(cfg, env, s, n + 1, m, |s.openings|, until);
    ChargesCounted(cfg, env, s, n, until);
    OpenIsRejected(cfg, env, s, Charges(cfg, env, s, n), env.gap(n), n, until);
  }
}
