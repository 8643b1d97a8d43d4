// The retry policy: shared/resilience/retry.go.
module Retry {
  import opened Arithmetic
  import opened Wrappers
  import opened Backoff

  datatype Policy = Policy(maxAttempts: int, initialBackoff: int, maxBackoff: int, jitter: Jitter) {
    predicate Normalized() { maxAttempts > 0 && initialBackoff > 0 && maxBackoff > 0 && jitter.Valid() }
  }

  /** NewRetryPolicy; durations are in nanoseconds. */
  function Normalize(p: Policy): Policy
    requires p.jitter.den > 0
  {
    Policy(if p.maxAttempts <= 0 then 3 else p.maxAttempts,
           if p.initialBackoff <= 0 then 100_000_000 else p.initialBackoff,
           if p.maxBackoff <= 0 then 2_000_000_000 else p.maxBackoff,
           p.jitter.(num := if p.jitter.num < 0 then 0 else Min(p.jitter.num, p.jitter.den)))
  }

  /** The world around one Do, by attempt number from 1: what the operation returns, what the
      context says before it, how the sleep after it ends, and the random draw for that sleep. */
  datatype Env = Env(result: nat -> Option<int>, retryable: int -> bool,
                     ctxErr: nat -> Option<int>, sleepErr: nat -> Option<int>, draw: nat -> int)

  datatype Act = Call(error: Option<int>) | Sleep(delay: int)

  /** backoffForAttempt */
  function Delay(p: Policy, env: Env, a: nat): int
    requires p.Normalized() && a > 0
  {
    Jittered(Base(p.initialBackoff, p.maxBackoff, a), p.jitter, env.draw(a))
  }

  method BackoffForAttempt(p: Policy, env: Env, attempt: nat) returns (delay: int)
    requires p.Normalized() && attempt > 0
    ensures delay == Delay(p, env, attempt)
  {
    var base := BaseForAttempt(p.initialBackoff, p.maxBackoff, attempt);
    if p.jitter.num == 0 || base <= 0 { return base; }
    var spread := base * p.jitter.num / p.jitter.den;
    if spread <= 0 { return base; }
    delay := Wrap(base - spread + env.draw(attempt));
  }

  // ----- the specification of Do -----

  /** The operation's result after attempt a is the result of Do. */
  predicate Final(p: Policy, env: Env, a: nat) {
    env.result(a) == None || !env.retryable(env.result(a).value) || a == p.maxAttempts
  }

  /** Attempt a is made, and another one after it. */
  predicate GoesOn(p: Policy, env: Env, a: nat) {
    env.ctxErr(a) == None && !Final(p, env, a) && env.sleepErr(a) == None
  }

  /** The calls and sleeps of the attempts before a. */
  function Before(p: Policy, env: Env, a: nat): seq<Act>
    requires p.Normalized() && a > 0
  {
    if a == 1 then [] else Before(p, env, a - 1) + [Call(env.result(a - 1)), Sleep(Delay(p, env, a - 1))]
  }

  /** Do ends with attempt a, this error and this trace. */
  ghost predicate Ends(p: Policy, env: Env, a: nat, err: Option<int>, trace: seq<Act>)
    requires p.Normalized()
  {
    && 1 <= a <= p.maxAttempts
    && (forall k | 1 <= k < a :: GoesOn(p, env, k))
    && var calls := Before(p, env, a) + [Call(env.result(a))];
      if env.ctxErr(a).Some? then err == env.ctxErr(a) && trace == Before(p, env, a)
      else if Final(p, env, a) then err == env.result(a) && trace == calls
      else env.sleepErr(a).Some? && err == env.sleepErr(a) && trace == calls + [Sleep(Delay(p, env, a))]
  }

  method Do(policy: Policy, env: Env) returns (err: Option<int>, trace: seq<Act>)
    requires policy.jitter.den > 0
    ensures exists a :: Ends(Normalize(policy), env, a, err, trace)
  {
    var p := Normalize(policy);
    var lastErr: Option<int> := None;
    trace := [];
    var attempt := 1;
    while attempt <= p.maxAttempts
      invariant 1 <= attempt <= p.maxAttempts
      invariant forall k | 1 <= k < attempt :: GoesOn(p, env, k)
      invariant trace == Before(p, env, attempt)
      decreases p.maxAttempts - attempt
    {
      if env.ctxErr(attempt).Some? {
        err := env.ctxErr(attempt);
        assert Ends(p, env, attempt, err, trace);
        return;
      }
      lastErr := env.result(attempt);
      trace := trace + [Call(lastErr)];
      if lastErr == None || !env.retryable(lastErr.value) || attempt == p.maxAttempts {
        err := lastErr;
        assert Ends(p, env, attempt, err, trace);
        return;
      }
      var delay := BackoffForAttempt(p, env, attempt);
      trace := trace + [Sleep(delay)];
      if env.sleepErr(attempt).Some? {
        err := env.sleepErr(attempt);
        assert Ends(p, env, attempt, err, trace);
        return;
      }
      assert trace == Before(p, env, attempt) + [Call(lastErr), Sleep(delay)];
      attempt := attempt + 1;
    }
    assert false;
    err := lastErr;
  }

  /** The specification leaves nothing open: it determines the last attempt, the error and the trace. */
  lemma EndsOnce(p: Policy, env: Env, a: nat, err: Option<int>, trace: seq<Act>,
                 b: nat, err': Option<int>, trace': seq<Act>)
    requires p.Normalized() && Ends(p, env, a, err, trace) && Ends(p, env, b, err', trace')
    ensures a == b && err == err' && trace == trace'
  {
    assert !GoesOn(p, env, a) && !GoesOn(p, env, b);
  }

  /** The last attempt, if attempt a is made. */
  function Last(p: Policy, env: Env, a: nat): (l: nat)
    requires p.Normalized() && 1 <= a <= p.maxAttempts
    ensures a <= l <= p.maxAttempts
    decreases p.maxAttempts - a
  {
    if GoesOn(p, env, a) then Last(p, env, a + 1) else a
  }

  /** How often Do calls the operation. */
  function Calls(p: Policy, env: Env): (n: nat)
    requires p.Normalized()
    ensures n <= p.maxAttempts
  {
    if env.ctxErr(Last(p, env, 1)).Some? then Last(p, env, 1) - 1 else Last(p, env, 1)
  }

  /** So says the specification. */
  lemma EndsAfterCalls(p: Policy, env: Env, a: nat, err: Option<int>, trace: seq<Act>)
    requires p.Normalized() && Ends(p, env, a, err, trace)
    ensures a == Last(p, env, 1) && (|trace| + 1) / 2 == Calls(p, env)
  {
    LastIs(p, env, 1, a);
    BeforeAlternates(p, env, a);
  }

  lemma {:induction false} LastIs(p: Policy, env: Env, b: nat, a: nat)
    requires p.Normalized() && 1 <= b <= a <= p.maxAttempts
    requires (forall k | b <= k < a :: GoesOn(p, env, k)) && !GoesOn(p, env, a)
    ensures Last(p, env, b) == a
    decreases a - b
  {
    if b < a { LastIs(p, env, b + 1, a); }
  }

  /** Which calls are made: the m-th exactly if every attempt before it failed with a retryable error, each
      was followed by a sleep that was not cut short, and the context had not ended before any. */
  lemma {:induction false} CallIsMade(p: Policy, env: Env, m: nat)
    requires p.Normalized() && 1 <= m <= p.maxAttempts
    ensures Calls(p, env) >= m <==>
      && (forall k | 1 <= k <= m :: env.ctxErr(k) == None)
      && (forall k | 1 <= k < m :: env.result(k).Some? && env.retryable(env.result(k).value))
      && (forall k | 1 <= k < m :: env.sleepErr(k) == None)
  {
    var l := Last(p, env, 1);
    LastGoesOn(p, env, 1);
    if Calls(p, env) >= m {
      forall k | 1 <= k < m
        ensures env.ctxErr(k) == None && env.result(k).Some? && env.retryable(env.result(k).value)
        ensures env.sleepErr(k) == None
      {
        assert GoesOn(p, env, k);
      }
      if m < l { assert GoesOn(p, env, m); }
    }
  }

  lemma {:induction false} LastGoesOn(p: Policy, env: Env, a: nat)
    requires p.Normalized() && 1 <= a <= p.maxAttempts
    ensures (forall k | a <= k < Last(p, env, a) :: GoesOn(p, env, k)) && !GoesOn(p, env, Last(p, env, a))
    decreases p.maxAttempts - a
  {
    if GoesOn(p, env, a) { LastGoesOn(p, env, a + 1); }
  }

  /** Normalising gives a normalised policy, and changes nothing exactly on those. What is not positive
      becomes 3 attempts, 100 ms and 2 s, and the jitter is cut off at 0 and 1. */
  lemma NormalizeIsAProjection(p: Policy)
    requires p.jitter.den > 0
    ensures Normalize(p).Normalized()
    ensures Normalize(p) == p <==> p.Normalized()
    ensures Normalize(Normalize(p)) == Normalize(p)
    ensures var q := Normalize(p);
      && q.maxAttempts == (if p.maxAttempts > 0 then p.maxAttempts else 3)
      && q.initialBackoff == (if p.initialBackoff > 0 then p.initialBackoff else 100 * 1_000_000)
      && q.maxBackoff == (if p.maxBackoff > 0 then p.maxBackoff else 2 * 1_000_000_000)
      && q.jitter.den == p.jitter.den
      && (p.jitter.num <= 0 ==> q.jitter.num == 0) && (p.jitter.num >= p.jitter.den ==> q.jitter.num == p.jitter.den)
  {}

  // ----- what the specification means -----

  lemma {:induction false} BeforeAlternates(p: Policy, env: Env, a: nat)
    requires p.Normalized() && a > 0
    ensures |Before(p, env, a)| == 2 * (a - 1)
    ensures forall k | 1 <= k < a ::
      Before(p, env, a)[2 * k - 2] == Call(env.result(k)) && Before(p, env, a)[2 * k - 1] == Sleep(Delay(p, env, k))
  {
    if a > 1 { BeforeAlternates(p, env, a - 1); }
  }

  /** The trace alternates calls and sleeps, from a call, so every sleep stands right after a call
      and every call but the first right after a sleep; there are at most maxAttempts calls and
      fewer sleeps than that; every call but the last failed with a retryable error; and Do
      reports success exactly if it has called and the last call succeeded. */
  lemma TraceIsAlternating(p: Policy, env: Env, a: nat, err: Option<int>, trace: seq<Act>)
    requires p.Normalized() && Ends(p, env, a, err, trace)
    ensures |trace| <= 2 * p.maxAttempts - 1
    ensures forall i | 0 <= i < |trace| ::
      trace[i] == if i % 2 == 0 then Call(env.result(i / 2 + 1)) else Sleep(Delay(p, env, i / 2 + 1))
    ensures forall k | 1 <= k && 2 * k < |trace| :: env.result(k).Some? && env.retryable(env.result(k).value)
    ensures err == None <==> trace != [] && trace[|trace| - 1] == Call(None)
  {
    BeforeAlternates(p, env, a);
    forall i | 0 <= i < |trace|
      ensures trace[i] == if i % 2 == 0 then Call(env.result(i / 2 + 1)) else Sleep(Delay(p, env, i / 2 + 1))
    {
      if i < 2 * (a - 1) {
        var k := i / 2 + 1;
        assert trace[i] == Before(p, env, a)[i];
        assert i == 2 * k - 2 || i == 2 * k - 1;
      }
    }
    forall k | 1 <= k && 2 * k < |trace|
      ensures env.result(k).Some? && env.retryable(env.result(k).value)
    {
      if k < a { assert GoesOn(p, env, k); }
    }
  }

  /** After n calls the error of Do is that of the last call, of the sleep after it that was cut short, or of
      the context that had ended before the next. */
  lemma ErrorOfDo(p: Policy, env: Env, a: nat, err: Option<int>, trace: seq<Act>)
    requires p.Normalized() && Ends(p, env, a, err, trace)
    ensures var n := Calls(p, env);
      err == if trace != [] && trace[|trace| - 1].Call? then env.result(n)
             else if n > 0 && env.sleepErr(n).Some? then env.sleepErr(n) else env.ctxErr(n + 1)
  {
    LastIs(p, env, 1, a);
    if a > 1 { assert GoesOn(p, env, a - 1); }
  }

  // ----- the total wait -----

  function TotalSlept(trace: seq<Act>): int {
    if trace == [] then 0 else
      var n := |trace| - 1;
      TotalSlept(trace[..n]) + (if trace[n].Sleep? then trace[n].delay else 0)
  }

  function BaseSum(p: Policy, k: nat): int {
    if k == 0 then 0 else BaseSum(p, k - 1) + Base(p.initialBackoff, p.maxBackoff, k)
  }

  /** A policy whose delays do not overflow, and a generator that respects its bound. */
  ghost predicate Sane(p: Policy, env: Env)
    requires p.Normalized()
  {
    && p.initialBackoff < HALF && p.maxBackoff < HALF && NoOverflow(p.initialBackoff, p.maxBackoff)
    && p.maxBackoff + Spread(p.maxBackoff, p.jitter) < HALF
    && forall a: nat | a > 0 :: Drawn(Base(p.initialBackoff, p.maxBackoff, a), p.jitter, env.draw(a))
  }

  lemma {:induction false} BaseSumBound(p: Policy, env: Env, k: nat)
    requires p.Normalized() && Sane(p, env)
    ensures 0 <= BaseSum(p, k) <= p.initialBackoff * (Pow2(k) - 1)
    ensures BaseSum(p, k) <= k * p.maxBackoff
  {
    if k > 0 {
      BaseSumBound(p, env, k - 1);
      ClosedForm(p.initialBackoff, p.maxBackoff);
      assert Exact(p.initialBackoff, p.maxBackoff, k);
      Positive(p.initialBackoff, Pow2(k - 1));
      DoubleLessOne(p.initialBackoff, Pow2(k - 1));
      OneMoreTimes(k, p.maxBackoff);
    }
  }

  lemma DoubleLessOne(i: int, q: int)
    ensures i * (q - 1) + i * q == i * (2 * q - 1)
  {}

  ghost predicate Shaped(p: Policy, env: Env, trace: seq<Act>)
    requires p.Normalized()
  {
    forall i | 0 <= i < |trace| ::
      trace[i] == if i % 2 == 0 then Call(env.result(i / 2 + 1)) else Sleep(Delay(p, env, i / 2 + 1))
  }

  lemma DelayBound(p: Policy, env: Env, a: nat)
    requires p.Normalized() && Sane(p, env) && a > 0
    ensures p.jitter.den * Delay(p, env, a)
         <= (p.jitter.den + p.jitter.num) * Base(p.initialBackoff, p.maxBackoff, a)
  {
    JitterBounds(p.initialBackoff, p.maxBackoff, a, p.jitter, env.draw(a));
  }

  lemma {:induction false} SleptBound(p: Policy, env: Env, trace: seq<Act>)
    requires p.Normalized() && Sane(p, env) && Shaped(p, env, trace)
    ensures p.jitter.den * TotalSlept(trace) <= (p.jitter.den + p.jitter.num) * BaseSum(p, |trace| / 2)
  {
    if trace != [] {
      var n := |trace| - 1;
      assert Shaped(p, env, trace[..n]);
      SleptBound(p, env, trace[..n]);
      LastAct(p, env, trace);
      if n % 2 == 1 { OneMoreSleep(p, env, TotalSlept(trace[..n]), n / 2 + 1); }
    }
  }

  lemma LastAct(p: Policy, env: Env, trace: seq<Act>)
    requires p.Normalized() && Shaped(p, env, trace) && trace != []
    ensures var n := |trace| - 1;
      if n % 2 == 1 then TotalSlept(trace) == TotalSlept(trace[..n]) + Delay(p, env, n / 2 + 1) && |trace| / 2 == n / 2 + 1
      else TotalSlept(trace) == TotalSlept(trace[..n]) && |trace| / 2 == n / 2
  {}

  lemma OneMoreSleep(p: Policy, env: Env, slept: int, k: nat)
    requires p.Normalized() && Sane(p, env) && k > 0
    requires p.jitter.den * slept <= (p.jitter.den + p.jitter.num) * BaseSum(p, k - 1)
    ensures p.jitter.den * (slept + Delay(p, env, k)) <= (p.jitter.den + p.jitter.num) * BaseSum(p, k)
  {
    DelayBound(p, env, k);
    AddBounds(p.jitter.den, p.jitter.den + p.jitter.num, slept, Delay(p, env, k),
              BaseSum(p, k - 1), Base(p.initialBackoff, p.maxBackoff, k));
  }

  lemma AddBounds(d: int, f: int, x: int, y: int, a: int, b: int)
    requires d * x <= f * a && d * y <= f * b
    ensures d * (x + y) <= f * (a + b)
  {
    assert d * (x + y) == d * x + d * y && f * (a + b) == f * a + f * b;
  }

  /** The sleeps that one Do asks for, s of them, sum to at most 1 + num / den times
      min(initial * (2^s - 1), s * maximum). */
  lemma TotalWait(p: Policy, env: Env, a: nat, err: Option<int>, trace: seq<Act>)
    requires p.Normalized() && Sane(p, env) && Ends(p, env, a, err, trace)
    ensures var s := |trace| / 2;
      && s <= p.maxAttempts - 1
      && p.jitter.den * TotalSlept(trace)
         <= (p.jitter.den + p.jitter.num) * Min(p.initialBackoff * (Pow2(s) - 1), s * p.maxBackoff)
  {
    assert Shaped(p, env, trace) && |trace| <= 2 * p.maxAttempts - 1 by {
      TraceIsAlternating(p, env, a, err, trace);
    }
    WaitBound(p, env, trace);
  }

  lemma WaitBound(p: Policy, env: Env, trace: seq<Act>)
    requires p.Normalized() && Sane(p, env) && Shaped(p, env, trace)
    ensures var s := |trace| / 2;
      p.jitter.den * TotalSlept(trace)
      <= (p.jitter.den + p.jitter.num) * Min(p.initialBackoff * (Pow2(s) - 1), s * p.maxBackoff)
  {
    var s := |trace| / 2;
    SleptBound(p, env, trace);
    BaseSumBound(p, env, s);
    TimesKeepsOrder(BaseSum(p, s), Min(p.initialBackoff * (Pow2(s) - 1), s * p.maxBackoff), p.jitter.den + p.jitter.num);
  }

}
