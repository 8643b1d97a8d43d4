// The circuit breaker: shared/resilience/circuitbreaker.go. It takes its lock before and after
// the operation but not during it, so what happens to it is any interleaving of the two halves
// of any number of calls, and of State, over a clock that does not go back.
module Breaker {
  import opened Arithmetic

  datatype State = Closed | Open | HalfOpen

  /** How an operation ended: without an error, with one that isFailure accepts, or with another. */
  datatype Ending = Succeeded | Failed | Disregarded

  datatype Fields = Fields(state: State, failures: int, successes: int, openedAt: int)

  datatype Config = Config(failureThreshold: int, successThreshold: int, openTimeout: int) {
    predicate Valid() { failureThreshold > 0 && successThreshold > 0 && openTimeout > 0 }
  }

  const NEW_FIELDS := Fields(Closed, 0, 0, 0)

  function Thaw(cfg: Config, b: Fields, now: int): Fields {
    if b.state == Open && now >= b.openedAt + cfg.openTimeout then b.(state := HalfOpen, successes := 0) else b
  }

  function Enter(cfg: Config, b: Fields, now: int): (Fields, bool) {
    var t := Thaw(cfg, b, now);
    (t, t.state != Open)
  }

  /** Whether a failure recorded now makes the breaker open, or open anew. */
  predicate Trips(cfg: Config, b: Fields) { b.state == HalfOpen || b.failures + 1 >= cfg.failureThreshold }

  function Leave(cfg: Config, b: Fields, ending: Ending, now: int): Fields {
    match ending
    case Failed => if Trips(cfg, b) then Fields(Open, 0, 0, now) else b.(failures := b.failures + 1, successes := 0)
    case Disregarded => b
    case Succeeded =>
      if b.state != HalfOpen then b.(failures := 0)
      else if b.successes + 1 >= cfg.successThreshold then b.(state := Closed, failures := 0, successes := 0)
      else b.(failures := 0, successes := b.successes + 1)
  }

  // ----- the source's own form -----

  class CircuitBreaker {
    const config: Config
    var state: State
    var failures: int
    var successes: int
    var openedAt: int

    function Value(): Fields
      reads this
    {
      Fields(state, failures, successes, openedAt)
    }

    /** Settings that are not positive are replaced by defaults; 30 s in nanoseconds. */
    constructor (failureThreshold: int, successThreshold: int, openTimeout: int)
      ensures config.Valid() && Value() == NEW_FIELDS
      ensures config.failureThreshold == (if failureThreshold <= 0 then 5 else failureThreshold)
      ensures config.successThreshold == (if successThreshold <= 0 then 1 else successThreshold)
      ensures config.openTimeout == (if openTimeout <= 0 then 30_000_000_000 else openTimeout)
    {
      config := Config(if failureThreshold <= 0 then 5 else failureThreshold,
                       if successThreshold <= 0 then 1 else successThreshold,
                       if openTimeout <= 0 then 30_000_000_000 else openTimeout);
      state, failures, successes, openedAt := Closed, 0, 0, 0;
    }

    method TransitionOpenToHalfOpen(now: int)
      modifies this
      ensures Value() == Thaw(config, old(Value()), now)
    {
      if state == Open && now >= openedAt + config.openTimeout {
        state := HalfOpen;
        successes := 0;
      }
    }

    method BeforeCall(now: int) returns (admitted: bool)
      modifies this
      ensures (Value(), admitted) == Enter(config, old(Value()), now)
    {
      TransitionOpenToHalfOpen(now);
      admitted := state != Open;
    }

    method AfterCall(ending: Ending, now: int)
      modifies this
      ensures Value() == Leave(config, old(Value()), ending, now)
    {
      match ending {
        case Failed => RecordFailure(now);
        case Disregarded =>
        case Succeeded => RecordSuccess();
      }
    }

    method RecordFailure(now: int)
      modifies this
      ensures Value() == Leave(config, old(Value()), Failed, now)
    {
      successes := 0;
      failures := failures + 1;
      if state == HalfOpen || failures >= config.failureThreshold {
        state := Open;
        openedAt := now;
        failures := 0;
      }
    }

    method RecordSuccess()
      modifies this
      ensures forall now :: Value() == Leave(config, old(Value()), Succeeded, now)
    {
      failures := 0;
      if state != HalfOpen { return; }
      successes := successes + 1;
      if successes >= config.successThreshold {
        state := Closed;
        successes := 0;
      }
    }

    method CurrentState(now: int) returns (s: State)
      modifies this
      ensures Value() == Thaw(config, old(Value()), now) && s == state
    {
      TransitionOpenToHalfOpen(now);
      s := state;
    }
  }

  // ----- runs -----

  /** The atomic steps, each with the time read under the lock. */
  datatype Event =
    | Entering(caller: nat, now: int)
    | Leaving(caller: nat, ending: Ending, now: int)
    | Peeking(now: int)

  /** The breaker and the callers between their two halves. */
  datatype System = System(breaker: Fields, inside: set<nat>)

  function Next(cfg: Config, s: System, e: Event): System {
    match e
    case Entering(c, now) =>
      var (b, admitted) := Enter(cfg, s.breaker, now);
      System(b, if admitted then s.inside + {c} else s.inside)
    case Leaving(c, ending, now) => System(Leave(cfg, s.breaker, ending, now), s.inside - {c})
    case Peeking(now) => s.(breaker := Thaw(cfg, s.breaker, now))
  }

  /** The system after the first k events. */
  function After(cfg: Config, es: seq<Event>, k: nat): System
    requires k <= |es|
  {
    if k == 0 then System(NEW_FIELDS, {}) else Next(cfg, After(cfg, es, k - 1), es[k - 1])
  }

  function At(cfg: Config, es: seq<Event>, k: nat): Fields
    requires k <= |es|
  {
    After(cfg, es, k).breaker
  }

  /** The clock does not go back. */
  ghost predicate Timely(cfg: Config, es: seq<Event>) {
    cfg.Valid() && forall i, j | 0 <= i <= j < |es| :: es[i].now <= es[j].now
  }

  /** A run: nobody enters twice, and only who has been admitted leaves. */
  ghost predicate IsRun(cfg: Config, es: seq<Event>) {
    Timely(cfg, es) && forall k | 0 <= k < |es| :: Orderly(cfg, es, k)
  }

  predicate Orderly(cfg: Config, es: seq<Event>, k: nat)
    requires k < |es|
  {
    && (es[k].Entering? ==> es[k].caller !in After(cfg, es, k).inside)
    && (es[k].Leaving? ==> es[k].caller in After(cfg, es, k).inside)
  }

  /** Event k admits an operation, which then starts. */
  predicate Admits(cfg: Config, es: seq<Event>, k: nat)
    requires k < |es|
  {
    es[k].Entering? && Enter(cfg, At(cfg, es, k), es[k].now).1
  }

  /** Event k is a failure that opens the breaker, or opens it anew. */
  predicate TripsAt(cfg: Config, es: seq<Event>, k: nat)
    requires k < |es|
  {
    es[k].Leaving? && es[k].ending == Failed && Trips(cfg, At(cfg, es, k))
  }

  /** Event k takes the breaker from another state to Open. */
  predicate OpensAt(cfg: Config, es: seq<Event>, k: nat)
    requires k < |es|
  {
    At(cfg, es, k).state != Open && At(cfg, es, k + 1).state == Open
  }

  lemma CoolingStep(cfg: Config, s: System, e: Event, tripped: int)
    requires s.breaker.state == Open && tripped <= s.breaker.openedAt && tripped <= e.now
    ensures var b := Next(cfg, s, e).breaker;
      (b.state == Open && tripped <= b.openedAt) || e.now >= tripped + cfg.openTimeout
  {}

  /** From a trip at event i on: still open since then, or the time out is over. */
  lemma {:induction false} Cooling(cfg: Config, es: seq<Event>, i: nat, k: nat)
    requires Timely(cfg, es) && i < k <= |es| && TripsAt(cfg, es, i)
    ensures (At(cfg, es, k).state == Open && es[i].now <= At(cfg, es, k).openedAt)
         || es[k - 1].now >= es[i].now + cfg.openTimeout
    decreases k
  {
    if i < k - 1 {
      Cooling(cfg, es, i, k - 1);
      if At(cfg, es, k - 1).state == Open && es[i].now <= At(cfg, es, k - 1).openedAt {
        CoolingStep(cfg, After(cfg, es, k - 1), es[k - 1], es[i].now);
      }
    }
  }

  /** Cool-down, over all interleavings of any number of callers: once the breaker has opened, or
      opened anew, no operation is admitted before the time out has passed, in the rest of the
      run, however the results of calls still in flight come in. */
  lemma CoolDown(cfg: Config, es: seq<Event>, i: nat, j: nat)
    requires IsRun(cfg, es) && i < j < |es| && TripsAt(cfg, es, i) && Admits(cfg, es, j)
    ensures es[j].now >= es[i].now + cfg.openTimeout
  {
    Cooling(cfg, es, i, j);
    assert es[j - 1].now <= es[j].now;
  }

  /** What no trip touches: since the last trip, at time t, the breaker has been open with that time, or is
      open no more; and before the first it is not open. */
  lemma OpenSinceStep(cfg: Config, s: System, e: Event, t: int)
    requires s.breaker.state == Open ==> s.breaker.openedAt == t
    requires !(e.Leaving? && e.ending == Failed && Trips(cfg, s.breaker))
    ensures var b := Next(cfg, s, e).breaker; b.state == Open ==> s.breaker.state == Open && b.openedAt == t
  {}

  lemma {:induction false} OpenSince(cfg: Config, es: seq<Event>, i: nat, k: nat)
    requires i < k <= |es| && TripsAt(cfg, es, i) && forall m | i < m < k :: !TripsAt(cfg, es, m)
    ensures At(cfg, es, k).state == Open ==> At(cfg, es, k).openedAt == es[i].now
    decreases k
  {
    if i < k - 1 {
      OpenSince(cfg, es, i, k - 1);
      assert !TripsAt(cfg, es, k - 1);
      OpenSinceStep(cfg, After(cfg, es, k - 1), es[k - 1], es[i].now);
    }
  }

  lemma {:induction false} NeverOpened(cfg: Config, es: seq<Event>, k: nat)
    requires k <= |es| && forall m | 0 <= m < k :: !TripsAt(cfg, es, m)
    ensures At(cfg, es, k).state != Open
    decreases k
  {
    if k > 0 {
      NeverOpened(cfg, es, k - 1);
      assert !TripsAt(cfg, es, k - 1);
      OpenSinceStep(cfg, After(cfg, es, k - 1), es[k - 1], 0);
    }
  }

  lemma {:induction false} LastTrip(cfg: Config, es: seq<Event>, k: nat) returns (i: nat)
    requires k <= |es|
    ensures i <= k
    ensures i < k ==> TripsAt(cfg, es, i) && forall m | i < m < k :: !TripsAt(cfg, es, m)
    ensures i == k ==> forall m | 0 <= m < k :: !TripsAt(cfg, es, m)
    decreases k
  {
    if k == 0 {
      i := 0;
    } else if TripsAt(cfg, es, k - 1) {
      i := k - 1;
    } else {
      i := LastTrip(cfg, es, k - 1);
      if i == k - 1 { i := k; }
    }
  }

  /** Admission, exactly, over all interleavings: an operation is admitted if and only if the time out has
      passed since every failure that has opened the breaker, or opened it anew. */
  lemma Admission(cfg: Config, es: seq<Event>, j: nat)
    requires IsRun(cfg, es) && j < |es| && es[j].Entering?
    ensures Admits(cfg, es, j) <==>
      forall i | 0 <= i < j && TripsAt(cfg, es, i) :: es[j].now >= es[i].now + cfg.openTimeout
  {
    if Admits(cfg, es, j) {
      forall i | 0 <= i < j && TripsAt(cfg, es, i)
        ensures es[j].now >= es[i].now + cfg.openTimeout
      {
        CoolDown(cfg, es, i, j);
      }
    }
    var last := LastTrip(cfg, es, j);
    if last < j { OpenSince(cfg, es, last, j); } else { NeverOpened(cfg, es, j); }
  }

  /** Two openings are at least the time out apart. */
  lemma OpeningsApart(cfg: Config, es: seq<Event>, i: nat, j: nat)
    requires IsRun(cfg, es) && i < j < |es| && OpensAt(cfg, es, i) && OpensAt(cfg, es, j)
    ensures es[j].now >= es[i].now + cfg.openTimeout
  {
    assert TripsAt(cfg, es, i);
    Cooling(cfg, es, i, j);
    assert es[j - 1].now <= es[j].now;
  }

  /** Opening rate: in any run, n openings take at least n - 1 times the time out. */
  lemma {:induction false} OpeningRate(cfg: Config, es: seq<Event>, openings: seq<nat>)
    requires IsRun(cfg, es) && openings != []
    requires forall m | 0 <= m < |openings| :: openings[m] < |es| && OpensAt(cfg, es, openings[m])
    requires forall m | 0 < m < |openings| :: openings[m - 1] < openings[m]
    ensures es[openings[|openings| - 1]].now - es[openings[0]].now >= (|openings| - 1) * cfg.openTimeout
  {
    var n := |openings| - 1;
    if n > 0 {
      OpeningRate(cfg, es, openings[..n]);
      OpeningsApart(cfg, es, openings[n - 1], openings[n]);
      OneMoreTimes(n, cfg.openTimeout);
    }
  }

  // ----- the counters against the history -----

  /** How many events from `first` on and before `end` end an operation in this way. */
  function Count(es: seq<Event>, ending: Ending, first: nat, end: nat): nat
    requires first <= end <= |es|
    decreases end
  {
    if first == end then 0 else
      Count(es, ending, first, end - 1) + (if es[end - 1].Leaving? && es[end - 1].ending == ending then 1 else 0)
  }

  /** Event k ends a streak of failures: a success, or a failure that trips the breaker. */
  predicate EndsStreak(cfg: Config, es: seq<Event>, k: nat)
    requires k < |es|
  {
    (es[k].Leaving? && es[k].ending == Succeeded) || TripsAt(cfg, es, k)
  }

  /** The streak that is running before event k starts at r. */
  ghost predicate StreakFrom(cfg: Config, es: seq<Event>, r: nat, k: nat)
    requires k <= |es|
  {
    && r <= k
    && (r == 0 || EndsStreak(cfg, es, r - 1))
    && forall m | r <= m < k :: !EndsStreak(cfg, es, m)
  }

  /** failures is the number of counted failures since the last success or (re)opening, and stays
      below the threshold. */
  lemma {:induction false} FailuresAreHistory(cfg: Config, es: seq<Event>, k: nat) returns (r: nat)
    requires IsRun(cfg, es) && k <= |es|
    ensures StreakFrom(cfg, es, r, k)
    ensures At(cfg, es, k).failures == Count(es, Failed, r, k) < cfg.failureThreshold
    decreases k
  {
    if k == 0 {
      r := 0;
    } else {
      r := FailuresAreHistory(cfg, es, k - 1);
      if EndsStreak(cfg, es, k - 1) { r := k; }
    }
  }

  /** Event h takes the breaker from Open to HalfOpen. */
  predicate ThawsAt(cfg: Config, es: seq<Event>, h: nat)
    requires h < |es|
  {
    At(cfg, es, h).state == Open && At(cfg, es, h + 1).state == HalfOpen
  }

  /** successes is zero outside half-open; inside, it is the number of successes since the breaker
      became half-open, without a failure in between, and below its threshold. */
  lemma {:induction false} SuccessesAreHistory(cfg: Config, es: seq<Event>, k: nat) returns (h: nat)
    requires IsRun(cfg, es) && k <= |es|
    ensures var b := At(cfg, es, k);
      && (b.state != HalfOpen ==> b.successes == 0)
      && (b.state == HalfOpen ==>
            && h < k && ThawsAt(cfg, es, h)
            && (forall m | h < m <= k :: At(cfg, es, m).state == HalfOpen)
            && Count(es, Failed, h + 1, k) == 0
            && b.successes == Count(es, Succeeded, h + 1, k) < cfg.successThreshold)
    decreases k
  {
    h := 0;
    if k > 0 {
      h := SuccessesAreHistory(cfg, es, k - 1);
      SuccessesStep(cfg, After(cfg, es, k - 1), es[k - 1]);
      if At(cfg, es, k).state == HalfOpen && At(cfg, es, k - 1).state != HalfOpen { h := k - 1; }
    }
  }

  /** Recovery: from a thaw on, as long as no operation fails, the breaker is closed exactly if
      successThreshold of them have succeeded, and half-open before; others do not matter. */
  lemma {:induction false} Recovery(cfg: Config, es: seq<Event>, h: nat, k: nat)
    requires IsRun(cfg, es) && h < k <= |es| && ThawsAt(cfg, es, h) && Count(es, Failed, h + 1, k) == 0
    ensures var b, n := At(cfg, es, k), Count(es, Succeeded, h + 1, k);
      if n < cfg.successThreshold then b.state == HalfOpen && b.successes == n else b.state == Closed
    decreases k
  {
    if h + 1 == k {
      SuccessesStep(cfg, After(cfg, es, h), es[h]);
      var thaw := SuccessesAreHistory(cfg, es, h);
    } else {
      Recovery(cfg, es, h, k - 1);
      RecoveryStep(cfg, After(cfg, es, k - 1), es[k - 1], Count(es, Succeeded, h + 1, k - 1));
    }
  }

  lemma RecoveryStep(cfg: Config, s: System, e: Event, n: nat)
    requires if n < cfg.successThreshold then s.breaker.state == HalfOpen && s.breaker.successes == n
             else s.breaker.state == Closed
    requires !(e.Leaving? && e.ending == Failed)
    ensures var b, n' := Next(cfg, s, e).breaker, n + if e.Leaving? && e.ending == Succeeded then 1 else 0;
      if n' < cfg.successThreshold then b.state == HalfOpen && b.successes == n' else b.state == Closed
  {}

  lemma SuccessesStep(cfg: Config, s: System, e: Event)
    requires cfg.Valid()
    ensures var b, b' := s.breaker, Next(cfg, s, e).breaker;
      && (b.state != HalfOpen && b.successes == 0 && b'.state != HalfOpen ==> b'.successes == 0)
      && (b.state != HalfOpen && b'.state == HalfOpen ==> b.state == Open && b'.successes == 0 && !e.Leaving?)
      && (b.state == HalfOpen && b'.state != HalfOpen ==> b'.successes == 0)
      && (b.state == HalfOpen && b'.state == HalfOpen ==>
            && b'.successes == b.successes + (if e.Leaving? && e.ending == Succeeded then 1 else 0)
            && (b'.successes == b.successes || b'.successes < cfg.successThreshold)
            && !(e.Leaving? && e.ending == Failed))
  {}

  /** A step from Closed to Open is the end of a streak of exactly failureThreshold counted
      failures with no success and no other opening between them. */
  lemma OpeningHasItsFailures(cfg: Config, es: seq<Event>, k: nat) returns (r: nat)
    requires IsRun(cfg, es) && k < |es|
    requires At(cfg, es, k).state == Closed && At(cfg, es, k + 1).state == Open
    ensures StreakFrom(cfg, es, r, k) && TripsAt(cfg, es, k)
    ensures Count(es, Failed, r, k + 1) == cfg.failureThreshold && Count(es, Succeeded, r, k + 1) == 0
  {
    r := FailuresAreHistory(cfg, es, k);
    NoSuccess(cfg, es, r, k);
  }

  lemma {:induction false} NoSuccess(cfg: Config, es: seq<Event>, r: nat, k: nat)
    requires r <= k <= |es| && forall m | r <= m < k :: !EndsStreak(cfg, es, m)
    ensures Count(es, Succeeded, r, k) == 0
    decreases k - r
  {
    if r < k {
      NoSuccess(cfg, es, r, k - 1);
      assert !EndsStreak(cfg, es, k - 1);
    }
  }
}
