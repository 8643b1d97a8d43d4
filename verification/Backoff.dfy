// The delays between retries: backoffForAttempt of shared/resilience/retry.go, in the 64-bit
// arithmetic of time.Duration.
module Backoff {
  import opened Arithmetic

  const HALF: int := 0x8000_0000_0000_0000      // 2^63
  const QUARTER: int := 0x4000_0000_0000_0000   // 2^62

  predicate IsInt64(x: int) { -HALF <= x < HALF }

  /** Two's complement wrap-around. */
  function Wrap(x: int): (w: int)
    ensures IsInt64(w) && (IsInt64(x) ==> w == x) && (HALF <= x < 2 * HALF ==> w == x - 2 * HALF)
  {
    (x + HALF) % (2 * HALF) - HALF
  }

  function Min(a: int, b: int): int { if a <= b then a else b }

  function Pow2(n: nat): (p: int)
    ensures p >= 1
  {
    if n == 0 then 1 else 2 * Pow2(n - 1)
  }

  /** The doubling loop, with n doublings left. */
  function Doubled(delay: int, maximum: int, n: nat): int
    decreases n
  {
    if n == 0 then delay else
      var d := Wrap(delay * 2);
      if d >= maximum then maximum else Doubled(d, maximum, n - 1)
  }

  /** The delay after attempt a = 1, 2, ..., before jitter. */
  function Base(initial: int, maximum: int, a: nat): int
    requires a > 0
  {
    var d := Doubled(initial, maximum, a - 1);
    if d > maximum then maximum else d
  }

  method BaseForAttempt(initial: int, maximum: int, attempt: nat) returns (delay: int)
    requires attempt > 0
    ensures delay == Base(initial, maximum, attempt)
  {
    delay := initial;
    var i := 1;
    while i < attempt
      invariant 1 <= i <= attempt
      invariant Doubled(initial, maximum, attempt - 1) == Doubled(delay, maximum, attempt - i)
    {
      delay := Wrap(delay * 2);
      if delay >= maximum {
        delay := maximum;
        break;
      }
      i := i + 1;
    }
    if delay > maximum { delay := maximum; }
  }

  // ----- the closed form, and exactly when it holds -----

  /** The first doubling of d that is at least 2^62; one more would not fit. */
  function Top(d: int): (t: int)
    requires 0 < d < HALF
    ensures QUARTER <= t < HALF
    decreases HALF - d
  {
    if d >= QUARTER then d else Top(2 * d)
  }

  /** What a caller can check: no doubling that is still below the maximum overflows. */
  predicate NoOverflow(initial: int, maximum: int)
    requires 0 < initial < HALF
  {
    initial < QUARTER && maximum <= Top(initial)
  }

  ghost predicate Exact(initial: int, maximum: int, a: nat)
    requires a > 0
  {
    Base(initial, maximum, a) == Min(initial * Pow2(a - 1), maximum)
  }

  /** The doubling loop yields min(initial * 2^(a-1), maximum) for every attempt a, also when the
      initial delay is above the maximum, exactly if no doubling overflows. */
  lemma ClosedForm(initial: int, maximum: int)
    requires 0 < initial < HALF && 0 < maximum < HALF
    ensures (forall a: nat | a > 0 :: Exact(initial, maximum, a)) <==> NoOverflow(initial, maximum)
  {
    if NoOverflow(initial, maximum) {
      forall a: nat | a > 0
        ensures Exact(initial, maximum, a)
      {
        if a > 1 { DoubledExactly(initial, maximum, a - 1); }
      }
    } else {
      var n := 1;
      if initial >= QUARTER {
        assert Doubled(Wrap(initial * 2), maximum, 0) == Wrap(initial * 2);
      } else {
        n := Overflows(initial, maximum);
      }
      assert Base(initial, maximum, n + 1) < 0;
      Positive(initial, Pow2(n));
      assert !Exact(initial, maximum, n + 1);
    }
  }

  /** In particular with both delays below 2^62. */
  lemma SmallDelaysAreExact(initial: int, maximum: int, a: nat)
    requires 0 < initial < QUARTER && 0 < maximum < QUARTER && a > 0
    ensures Exact(initial, maximum, a)
  {
    ClosedForm(initial, maximum);
  }

  lemma Positive(x: int, y: int)
    requires x > 0 && y > 0
    ensures x * y > 0
  {}

  lemma Larger(x: int, y: int)
    requires x > 0 && y >= 1
    ensures x * y >= x
  {}

  lemma {:induction false} DoubledExactly(d: int, maximum: int, n: nat)
    requires 0 < d < QUARTER && 0 < maximum <= Top(d) && n > 0
    ensures Doubled(d, maximum, n) == Min(d * Pow2(n), maximum)
    decreases n
  {
    assert Wrap(d * 2) == 2 * d;
    assert d * Pow2(n) == (2 * d) * Pow2(n - 1);
    Larger(2 * d, Pow2(n - 1));
    if 2 * d < maximum && n > 1 { DoubledExactly(2 * d, maximum, n - 1); }
  }

  /** Below a maximum above Top(d), some number of doublings comes out negative. */
  lemma {:induction false} Overflows(d: int, maximum: int) returns (n: nat)
    requires 0 < d < QUARTER && Top(d) < maximum < HALF
    ensures n > 0 && Doubled(d, maximum, n) < 0
    decreases QUARTER - d
  {
    assert Wrap(d * 2) == 2 * d;
    TopIsLarger(2 * d);
    if 2 * d >= QUARTER {
      n := 2;
      assert Wrap(2 * d * 2) == 4 * d - 2 * HALF;
      assert Doubled(2 * d, maximum, 1) == Doubled(4 * d - 2 * HALF, maximum, 0);
    } else {
      var m := Overflows(2 * d, maximum);
      n := m + 1;
    }
  }

  lemma {:induction false} TopIsLarger(d: int)
    requires 0 < d < HALF
    ensures Top(d) >= d
    decreases HALF - d
  {
    if d < QUARTER { TopIsLarger(2 * d); }
  }

  // ----- jitter -----

  /** Jitter as a rational num / den between 0 and 1; r is what RandInt63n returns. */
  datatype Jitter = Jitter(num: int, den: int) {
    predicate Valid() { 0 <= num <= den && den > 0 }
  }

  function Spread(base: int, j: Jitter): int
    requires j.Valid()
  {
    base * j.num / j.den
  }

  /** backoffForAttempt, given the base delay. */
  function Jittered(base: int, j: Jitter, r: int): int
    requires j.Valid()
  {
    if j.num == 0 || base <= 0 then base else
      var spread := Spread(base, j);
      if spread <= 0 then base else Wrap(base - spread + r)
  }

  /** What RandInt63n(spread * 2 + 1) may return. */
  predicate Drawn(base: int, j: Jitter, r: int)
    requires j.Valid()
  {
    0 <= r < 2 * Spread(base, j) + 1
  }

  /** RandInt63n panics on a bound that is not positive. */
  predicate Panics(base: int, j: Jitter)
    requires j.Valid()
  {
    base > 0 && Spread(base, j) > 0 && Wrap(Wrap(Spread(base, j) * 2) + 1) <= 0
  }

  /** Exactly when: for a spread of 2^62 or more. And exactly when a delay can be jittered at all, with
      every draw landing within its spread: when its largest jittered value fits in 64 bits. */
  lemma JitterFits(base: int, j: Jitter)
    requires 0 < base < HALF && j.Valid()
    ensures Panics(base, j) <==> Spread(base, j) >= QUARTER
    ensures (!Panics(base, j) && forall r | Drawn(base, j, r) :: Within(base, j, r)) <==> base + Spread(base, j) < HALF
  {
    SpreadBounds(base, j);
    var spread := Spread(base, j);
    if base + spread >= HALF && spread < QUARTER {
      assert Wrap(base - spread + 2 * spread) < 0;
      assert Drawn(base, j, 2 * spread) && !Within(base, j, 2 * spread);
    }
  }

  predicate Within(base: int, j: Jitter, r: int)
    requires j.Valid()
  {
    base - Spread(base, j) <= Jittered(base, j, r) <= base + Spread(base, j)
  }

  /** What jitter does to a delay that it can be drawn for: the spread is the fraction of the delay, rounded
      down, and the draws are in one-to-one correspondence with the delays of the window around it. */
  lemma JitterIsEven(base: int, j: Jitter)
    requires 0 < base < HALF && j.Valid() && base + Spread(base, j) < HALF
    ensures j.den * Spread(base, j) <= j.num * base < j.den * (Spread(base, j) + 1)
    ensures forall r | Drawn(base, j, r) :: Jittered(base, j, r) == base - Spread(base, j) + r
    ensures forall delay | base - Spread(base, j) <= delay <= base + Spread(base, j) :: IsDrawn(base, j, delay)
  {
    SpreadBounds(base, j);
    Quotient(base * j.num, j.den);
    NextMultiple(j.den, Spread(base, j));
    if j.num == 0 { assert Spread(base, j) == 0; }
  }

  /** The draw that lands on this delay is possible. */
  predicate IsDrawn(base: int, j: Jitter, delay: int)
    requires j.Valid()
  {
    Drawn(base, j, delay - (base - Spread(base, j)))
  }

  lemma NextMultiple(d: int, q: int)
    ensures d * (q + 1) == d * q + d
  {}

  /** If the largest delay can be jittered then so can all, and jitter keeps each within its spread,
      hence between zero and twice the maximum, and den * delay at most (den + num) * base. */
  lemma JitterBounds(initial: int, maximum: int, a: nat, j: Jitter, r: int)
    requires 0 < initial < HALF && 0 < maximum < HALF && NoOverflow(initial, maximum)
    requires a > 0 && j.Valid() && maximum + Spread(maximum, j) < HALF
    ensures var base := Base(initial, maximum, a);
      && 0 < base <= maximum && !Panics(base, j)
      && (Drawn(base, j, r) ==>
            && Within(base, j, r)
            && 0 <= Jittered(base, j, r) <= 2 * maximum
            && j.den * Jittered(base, j, r) <= (j.den + j.num) * base)
  {
    ClosedForm(initial, maximum);
    assert Exact(initial, maximum, a);
    Positive(initial, Pow2(a - 1));
    var base := Base(initial, maximum, a);
    SpreadBounds(base, j);
    TimesKeepsOrder(base, maximum, j.num);
    QuotientKeepsOrder(base * j.num, maximum * j.num, j.den);
    JitterFits(base, j);
    if Drawn(base, j, r) { JitteredBound(base, j, r); }
  }

  lemma SpreadBounds(base: int, j: Jitter)
    requires base > 0 && j.Valid()
    ensures 0 <= Spread(base, j) <= base && j.den * Spread(base, j) <= j.num * base
  {
    var x := base * j.num;
    assert 0 <= x <= base * j.den;
    FloorDivide(x, j.den, base);
  }

  lemma FloorDivide(x: int, d: int, bound: int)
    requires 0 <= x <= bound * d && d > 0 && bound > 0
    ensures 0 <= x / d <= bound && d * (x / d) <= x
  {
    assert x == d * (x / d) + x % d;
    Cancel(x / d, bound, d);
  }

  lemma Cancel(a: int, b: int, d: int)
    requires d > 0 && a * d <= b * d
    ensures a <= b
  {}

  lemma JitteredBound(base: int, j: Jitter, r: int)
    requires 0 < base && j.Valid() && Drawn(base, j, r) && base + Spread(base, j) < HALF
    requires 0 <= Spread(base, j) <= base && j.den * Spread(base, j) <= j.num * base
    ensures Within(base, j, r)
    ensures j.den * Jittered(base, j, r) <= (j.den + j.num) * base
  {
    var spread, delay := Spread(base, j), Jittered(base, j, r);
    assert delay <= base + spread;
    TimesKeepsOrder(delay, base + spread, j.den);
    assert j.den * (base + spread) == j.den * base + j.den * spread;
  }
}
