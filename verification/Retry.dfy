/** Retry with exponential backoff: the while-loop version of chapter 13 and the for-loop version of chapter 07. */
module Retry {

  /** What one attempt does; `Unlisted` is an exception in neither exception tuple. */
  datatype Outcome<+T> =
    | Value(value: T)
    | Retriable(error: string)
    | DoNotRetry(error: string)
    | Unlisted(error: string)

  function Pow2(n: nat): (r: nat)
    ensures r >= 1
  {
    if n == 0 then 1 else 2 * Pow2(n - 1)
  }

  function AtLeastOne(max: int): nat {
    if max < 1 then 1 else max
  }

  /** The index of the attempt, counted from i, whose outcome the loop reports. */
  function StopAt<T>(outs: seq<Outcome<T>>, i: nat, max: nat): (k: nat)
    requires i < max <= |outs|
    ensures i <= k < max
    decreases max - i
  {
    if i + 1 == max || !outs[i].Retriable? then i else StopAt(outs, i + 1, max)
  }

  /** The loop reports k: everything before k was retriable, and k is the last allowed attempt or not retriable. */
  ghost predicate Stops<T>(outs: seq<Outcome<T>>, max: nat, k: nat)
    requires max <= |outs|
  {
    && k < max
    && (forall j :: 0 <= j < k ==> outs[j].Retriable?)
    && (k == max - 1 || !outs[k].Retriable?)
  }

  lemma {:induction false} StopAtFrom<T>(outs: seq<Outcome<T>>, i: nat, max: nat)
    requires i < max <= |outs| && forall j :: 0 <= j < i ==> outs[j].Retriable?
    ensures Stops(outs, max, StopAt(outs, i, max))
    decreases max - i
  {
    if !(i + 1 == max || !outs[i].Retriable?) { StopAtFrom(outs, i + 1, max); }
  }

  /** That description singles the attempt out. */
  lemma {:induction false} StopAtIs<T>(outs: seq<Outcome<T>>, max: nat, k: nat)
    requires 1 <= max <= |outs|
    ensures k == StopAt(outs, 0, max) <==> Stops(outs, max, k)
  {
    StopAtFrom(outs, 0, max);
    var s := StopAt(outs, 0, max);
    if Stops(outs, max, k) {
      assert !(k < s);
      assert !(s < k);
    }
  }

  /** The time slept before attempt k + 1, in the order the delays are taken. */
  function Backoff(base: real, jitters: seq<real>, k: nat): real
    requires k <= |jitters|
  {
    if k == 0 then 0.0 else Backoff(base, jitters, k - 1) + (base * Pow2(k - 1) as real + jitters[k - 1])
  }

  function Sum(xs: seq<real>): real {
    if xs == [] then 0.0 else Sum(xs[..|xs| - 1]) + xs[|xs| - 1]
  }

  /** The delays after k failures without their jitters: base * (2^k - 1). */
  function Doubling(base: real, k: nat): real {
    base * (Pow2(k) - 1) as real
  }

  lemma DoublingNext(base: real, k: nat)
    ensures Doubling(base, k + 1) == Doubling(base, k) + base * Pow2(k) as real
  {
    var p := Pow2(k) as real;
    assert (Pow2(k + 1) - 1) as real == p + (p - 1.0);
    assert base * (p + (p - 1.0)) == base * p + base * (p - 1.0);
  }

  /** The delays add up to base * (2^k - 1) and the jitters. */
  lemma {:induction false} BackoffTotal(base: real, jitters: seq<real>, k: nat)
    requires k <= |jitters|
    ensures Backoff(base, jitters, k) == Doubling(base, k) + Sum(jitters[..k])
  {
    if k > 0 {
      BackoffTotal(base, jitters, k - 1);
      assert jitters[..k][..k - 1] == jitters[..k - 1];
      DoublingNext(base, k - 1);
    }
  }

  /** n times the largest jitter. */
  function JitterRoom(n: nat, bound: real): real {
    n as real * bound
  }

  lemma {:induction false} SumBounds(xs: seq<real>, bound: real)
    requires forall i :: 0 <= i < |xs| ==> 0.0 <= xs[i] <= bound
    ensures 0.0 <= Sum(xs) <= JitterRoom(|xs|, bound)
  {
    if xs != [] {
      var n := |xs| - 1;
      SumBounds(xs[..n], bound);
      assert (n + 1) as real * bound == n as real * bound + bound;
    }
  }

  /** After k attempts: at least base * (2^(k-1) - 1), exceeded by at most (k-1) jitters. */
  lemma SleepBounds(base: real, jitters: seq<real>, attempts: nat, bound: real)
    requires 1 <= attempts <= |jitters| + 1
    requires forall i :: 0 <= i < |jitters| ==> 0.0 <= jitters[i] <= bound
    ensures var floor := Doubling(base, attempts - 1);
      floor <= Backoff(base, jitters, attempts - 1) <= floor + JitterRoom(attempts - 1, bound)
  {
    var slept := jitters[..attempts - 1];
    BackoffTotal(base, jitters, attempts - 1);
    SumBounds(slept, bound);
    assert |slept| == attempts - 1;
  }

  /**
   Chapter 13.  The attempt whose outcome is reported is the first one that is not retriable, within the
   allowed number, else the last; a maximum below one still makes one attempt.
   */
  method RetryWhile<T>(outs: seq<Outcome<T>>, max: int, base: real, jitters: seq<real>)
    returns (result: Outcome<T>, attempts: nat, slept: real)
    requires |outs| >= AtLeastOne(max) && |jitters| >= AtLeastOne(max)
    ensures attempts == StopAt(outs, 0, AtLeastOne(max)) + 1
    ensures result == outs[attempts - 1]
    ensures slept == Backoff(base, jitters, attempts - 1)
  {
    attempts, slept := 0, 0.0;
    var power := 1;
    while true
      invariant 0 <= attempts < AtLeastOne(max)
      invariant power == Pow2(attempts)
      invariant StopAt(outs, 0, AtLeastOne(max)) == StopAt(outs, attempts, AtLeastOne(max))
      invariant slept == Backoff(base, jitters, attempts)
      decreases AtLeastOne(max) - attempts
    {
      result := outs[attempts];
      attempts := attempts + 1;
      if !result.Retriable? || attempts >= max {
        return;
      }
      slept := slept + (base * power as real + jitters[attempts - 1]);
      power := 2 * power;
    }
  }

  datatype Raised<+T> = Ok(value: T) | Error(error: string) | NothingToRaise

  /** Chapter 07 catches every exception, so each failure counts as retriable. */
  function CatchAll<T>(outs: seq<Outcome<T>>): seq<Outcome<T>> {
    seq(|outs|, i requires 0 <= i < |outs| => if outs[i].Value? then outs[i] else Retriable(outs[i].error))
  }

  /** The number of rounds of a for loop over range(max). */
  function Rounds(max: int): nat {
    if max < 0 then 0 else max
  }

  /** Chapter 07.  With no attempt allowed there is no exception to re-raise. */
  method RetryFor<T>(outs: seq<Outcome<T>>, max: int, base: real, jitters: seq<real>)
    returns (result: Raised<T>, attempts: nat, slept: real)
    requires |outs| >= max && |jitters| >= max
    ensures max <= 0 ==> result == NothingToRaise && attempts == 0 && slept == 0.0
    ensures max > 0 ==>
      && attempts == StopAt(CatchAll(outs), 0, max) + 1
      && result == (if outs[attempts - 1].Value? then Ok(outs[attempts - 1].value) else Error(outs[attempts - 1].error))
      && slept == Backoff(base, jitters, attempts - 1)
  {
    result, attempts, slept := NothingToRaise, 0, 0.0;
    var power := 1;
    for attempt := 0 to Rounds(max)
      invariant attempts == attempt
      invariant power == Pow2(attempt)
      invariant forall j :: 0 <= j < attempt ==> !outs[j].Value?
      invariant 0 < attempt ==> result == Error(outs[attempt - 1].error)
      invariant attempt == 0 ==> result.NothingToRaise?
      invariant 0 < attempt < max ==> StopAt(CatchAll(outs), 0, max) == StopAt(CatchAll(outs), attempt, max)
      invariant attempt == max > 0 ==> StopAt(CatchAll(outs), 0, max) == max - 1
      invariant slept == if attempt < max || max <= 0 then Backoff(base, jitters, attempt)
                         else Backoff(base, jitters, max - 1)
    {
      attempts := attempts + 1;
      if outs[attempt].Value? {
        return Ok(outs[attempt].value), attempts, slept;
      }
      result := Error(outs[attempt].error);
      if attempt < max - 1 {
        slept := slept + (base * power as real + jitters[attempt]);
      }
      power := 2 * power;
    }
  }

  /**
   The two loops make the same number of attempts, and so report the same outcome, exactly when the chapter 13
   loop ends at a value or at the last allowed attempt; in particular when every error is retriable.
   */
  lemma {:induction false} LoopsAgree<T>(outs: seq<Outcome<T>>, max: nat)
    requires 1 <= max <= |outs|
    ensures var k := StopAt(outs, 0, max);
      StopAt(CatchAll(outs), 0, max) == k <==> outs[k].Value? || k == max - 1
    ensures (forall i :: 0 <= i < |outs| ==> outs[i].Value? || outs[i].Retriable?) ==>
      StopAt(CatchAll(outs), 0, max) == StopAt(outs, 0, max)
  {
    var k := StopAt(outs, 0, max);
    StopAtIs(outs, max, k);
    StopAtIs(CatchAll(outs), max, k);
  }
}
