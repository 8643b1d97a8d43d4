// The stack around the payment provider's HTTP client: payment/cmd/app/main.go puts a circuit
// breaker around a bulkhead around retries (shared/resilience/http_circuitbreaker.go,
// http_bulkhead.go and http_retry.go).
module Transport {
  import opened Arithmetic
  import opened Wrappers
  import Breaker
  import Bulkhead
  import opened Backoff
  import opened Retry

  /** What one request to the network brings back. */
  datatype Reply = Response(status: int) | NetworkError

  const CONTEXT_ENDED := -1
  const NETWORK_ERROR := -2

  predicate RetryableStatus(status: int) { status == 429 || status >= 500 }

  /** The error that the retries and the breaker see, as its HTTP status if it is one. */
  function ErrorOf(reply: Reply): Option<int> {
    match reply
    case NetworkError => Some(NETWORK_ERROR)
    case Response(status) => if RetryableStatus(status) then Some(status) else None
  }

  /** The replies that the caller gets to see; all others are errors, for the retries and for the breaker. */
  predicate Accepted(reply: Reply) { reply.Response? && reply.status != 429 && reply.status < 500 }

  /** One call through the stack: is its context over at the start, the times at the two halves of
      the breaker, whether another request leaves the bulkhead before its context ends, should it be full,
      and the network, the context, the sleeps and the draws of its attempts. */
  datatype Exchange = Exchange(cancelled: bool, now: int, later: int, freed: bool, replies: nat -> Reply,
                               ctxErr: nat -> Option<int>, sleepErr: nat -> Option<int>, draw: nat -> int)

  /** isHTTPRetryableError: only errors that carry an HTTP status. */
  predicate IsStatusError(e: int) { e >= 0 }

  /** The predicate that NewRetryPolicy leaves in a policy. */
  function Filled(given: Option<int -> bool>): Option<int -> bool> {
    if given.None? then Some(_ => true) else given
  }

  /** The predicate of the HTTP retries: isHTTPRetryableError would be put in where the normalised policy
      has none, and it always has one. */
  function HttpPredicate(given: Option<int -> bool>): (p: int -> bool)
    ensures given.None? ==> forall e :: p(e)
  {
    var filled := Filled(given);
    if filled.None? then IsStatusError else filled.value
  }

  /** The policy of the payment service brings no predicate, so every error is retried. */
  function RetryEnv(x: Exchange): Env {
    Env((k: nat) => ErrorOf(x.replies(k)), HttpPredicate(None), x.ctxErr, x.sleepErr, x.draw)
  }

  /** The requests that one exchange sends if it gets through to the retries. */
  function Requests(policy: Policy, x: Exchange): nat
    requires policy.Normalized()
  {
    Calls(policy, RetryEnv(x))
  }

  datatype Verdict = Cancelled | FailFast | Failed(error: int) | Answered(status: int)

  class Client {
    const breaker: Breaker.CircuitBreaker
    const bounded: bool
    const slots: Bulkhead.Slots
    const policy: Policy

    ghost predicate Valid()
      reads slots
    {
      policy.Normalized() && slots.length <= slots.capacity && (bounded ==> slots.capacity > 0)
    }

    /** The bulkhead has no slot for one more call. */
    predicate Full()
      reads slots
    {
      bounded && slots.length >= slots.capacity
    }

    /** Without a positive maxConcurrent there is no bulkhead. */
    constructor (breaker: Breaker.CircuitBreaker, maxConcurrent: int, policy: Policy)
      requires policy.jitter.den > 0
      ensures Valid() && this.breaker == breaker && this.policy == Normalize(policy)
      ensures bounded == (maxConcurrent > 0) && slots.length == 0 && fresh(slots)
      ensures bounded ==> slots.capacity == maxConcurrent
    {
      this.breaker := breaker;
      this.bounded := maxConcurrent > 0;
      this.slots := new Bulkhead.Slots(if maxConcurrent > 0 then maxConcurrent else 0);
      this.policy := Normalize(policy);
    }

    /** The retrying round trip: its attempts, and the last reply or the error. */
    method Retried(x: Exchange) returns (err: Option<int>, reply: Reply, attempts: nat)
      requires Valid()
      ensures exists a, trace :: Ends(policy, RetryEnv(x), a, err, trace)
      ensures attempts == Requests(policy, x)
      ensures err == None <==> attempts > 0 && Accepted(x.replies(attempts))
      ensures err == None ==> reply == x.replies(attempts)
      ensures forall k: nat | 1 <= k < attempts :: !Accepted(x.replies(k))
      ensures attempts <= policy.maxAttempts
    {
      var trace;
      err, trace := Do(policy, RetryEnv(x));
      assert Normalize(policy) == policy;
      ghost var a :| Ends(policy, RetryEnv(x), a, err, trace);
      EndsAfterCalls(policy, RetryEnv(x), a, err, trace);
      attempts := (|trace| + 1) / 2;
      reply := if attempts > 0 then x.replies(attempts) else NetworkError;
      LastCallDecides(policy, RetryEnv(x), a, err, trace);
      if attempts > 0 { RequestIsMade(policy, x, attempts); }
    }

    /** One call: at most maxAttempts requests to the network, exactly one result for the breaker if
        it was admitted and none if not, and of the bulkhead what it has taken, or another request's slot
        that it was waiting for, is given back. */
    method RoundTrip(x: Exchange) returns (verdict: Verdict, attempts: nat)
      requires Valid()
      modifies breaker, slots
      ensures Valid()
      ensures slots.length
           == old(slots.length) - if verdict !in {Cancelled, FailFast} && old(Full()) && x.freed then 1 else 0
      ensures attempts <= policy.maxAttempts
      ensures attempts == (if verdict in {Cancelled, FailFast} || (old(Full()) && !x.freed) then 0
                           else Requests(policy, x))
      ensures var was := old(breaker.Value());
        var (entered, admitted) := Breaker.Enter(breaker.config, was, x.now);
        if x.cancelled then verdict == Cancelled && breaker.Value() == was && attempts == 0
        else if !admitted then verdict == FailFast && breaker.Value() == entered && attempts == 0
        else
          && (verdict.Failed? || verdict.Answered?)
          && breaker.Value()
             == Breaker.Leave(breaker.config, entered,
                              if attempts > 0 && Accepted(x.replies(attempts)) then Breaker.Succeeded else Breaker.Failed,
                              x.later)
      ensures verdict.Answered? <==> attempts > 0 && Accepted(x.replies(attempts))
      ensures verdict.Answered? ==> x.replies(attempts) == Response(verdict.status)
      ensures forall k: nat | 1 <= k < attempts :: !Accepted(x.replies(k))
    {
      attempts := 0;
      if x.cancelled { return Cancelled, 0; }
      var admitted := breaker.BeforeCall(x.now);
      if !admitted { return FailFast, 0; }

      var err, reply := Some(CONTEXT_ENDED), NetworkError;
      var acquired := true;
      if bounded {
        acquired := slots.TrySend();
        if !acquired && x.freed {
          // The call waits, and another request leaves before the context ends.
          var left := slots.TryReceive();
          acquired := slots.TrySend();
        }
      }
      if acquired {
        err, reply, attempts := Retried(x);
        if bounded { var released := slots.TryReceive(); }
      }
      if err == None {
        breaker.AfterCall(Breaker.Succeeded, x.later);
        verdict := Answered(reply.status);
      } else {
        breaker.AfterCall(Breaker.Failed, x.later);
        verdict := Failed(err.value);
      }
    }
  }

  /** The retries succeed exactly if their last call has. */
  lemma LastCallDecides(p: Policy, env: Env, a: nat, err: Option<int>, trace: seq<Act>)
    requires p.Normalized() && Ends(p, env, a, err, trace)
    ensures var n := (|trace| + 1) / 2; err == None <==> n > 0 && env.result(n) == None
  {
    BeforeAlternates(p, env, a);
    if a > 1 { assert GoesOn(p, env, a - 1); }
  }

  /** Which requests go out, once the retries are reached: the m-th exactly if every reply before it was a
      network error, status 429 or a status of at least 500, no sleep was cut short, and the context
      had not ended. */
  lemma RequestIsMade(policy: Policy, x: Exchange, m: nat)
    requires policy.Normalized() && 1 <= m <= policy.maxAttempts
    ensures Requests(policy, x) >= m <==>
      && (forall k: nat | 1 <= k <= m :: x.ctxErr(k) == None)
      && (forall k: nat | 1 <= k < m :: !Accepted(x.replies(k)))
      && (forall k: nat | 1 <= k < m :: x.sleepErr(k) == None)
  {
    var env := RetryEnv(x);
    CallIsMade(policy, env, m);
    assert forall k: nat :: env.result(k) == ErrorOf(x.replies(k)) && env.ctxErr(k) == x.ctxErr(k)
                            && env.sleepErr(k) == x.sleepErr(k) && forall e :: env.retryable(e);
    assert forall k: nat :: env.result(k).Some? <==> !Accepted(x.replies(k));
  }

  // ----- an upstream that always fails -----

  /** One call of a caller that makes one call at a time: its times and its requests. */
  datatype Attempted = Attempted(now: int, later: int, requests: nat)

  /** The breaker, the calls it has admitted and the requests that have gone out. */
  datatype Ledger = Ledger(breaker: Breaker.Fields, admitted: nat, requests: nat)

  /** A call that fails, as RoundTrip treats it: not admitted, or one failure for the breaker. */
  function FailOne(cfg: Breaker.Config, l: Ledger, c: Attempted): Ledger {
    var (b, admitted) := Breaker.Enter(cfg, l.breaker, c.now);
    if !admitted then l.(breaker := b)
    else Ledger(Breaker.Leave(cfg, b, Breaker.Failed, c.later), l.admitted + 1, l.requests + c.requests)
  }

  function FailAll(cfg: Breaker.Config, cs: seq<Attempted>): Ledger {
    if cs == [] then Ledger(Breaker.NEW_FIELDS, 0, 0)
    else FailOne(cfg, FailAll(cfg, cs[..|cs| - 1]), cs[|cs| - 1])
  }

  /** One call after the other, from time start on, each with at most maxAttempts requests. */
  ghost predicate OneAtATime(cs: seq<Attempted>, start: int, maxAttempts: nat) {
    && (forall k | 0 <= k < |cs| :: start <= cs[k].now <= cs[k].later && cs[k].requests <= maxAttempts)
    && forall i, k | 0 <= i < k < |cs| :: cs[i].later <= cs[k].now
  }

  /** Closed with as many failures as calls admitted, or open since a time by which so many
      openings can have happened. */
  ghost predicate Paced(cfg: Breaker.Config, l: Ledger, start: int)
    requires cfg.Valid()
  {
    var b := l.breaker;
    || (b.state == Breaker.Closed && l.admitted == b.failures < cfg.failureThreshold)
    || (b.state == Breaker.Open && b.openedAt >= start
        && l.admitted <= cfg.failureThreshold + (b.openedAt - start) / cfg.openTimeout)
  }

  lemma PaceStep(cfg: Breaker.Config, l: Ledger, c: Attempted, start: int)
    requires cfg.Valid() && Paced(cfg, l, start) && start <= c.now <= c.later
    requires l.breaker.state == Breaker.Open ==> l.breaker.openedAt <= c.now
    ensures var l' := FailOne(cfg, l, c);
      && Paced(cfg, l', start)
      && (l'.breaker.state == Breaker.Open ==> l'.breaker.openedAt <= c.later)
  {
    var b, t := l.breaker, cfg.openTimeout;
    if b.state == Breaker.Open && c.now >= b.openedAt + t {
      OneTimeoutMore(b.openedAt - start, c.later - start, t);
    } else if b.state == Breaker.Closed && b.failures + 1 >= cfg.failureThreshold {
      QuotientKeepsOrder(0, c.later - start, t);
    }
  }

  lemma OneTimeoutMore(x: int, y: int, t: int)
    requires t > 0 && y >= x + t
    ensures y / t >= x / t + 1
  {
    Quotient(x, t);
    Quotient(y, t);
    if y / t < x / t + 1 { TimesKeepsOrder(y / t, x / t, t); }
  }

  lemma {:induction false} Pacing(cfg: Breaker.Config, cs: seq<Attempted>, start: int, maxAttempts: nat)
    requires cfg.Valid() && OneAtATime(cs, start, maxAttempts)
    ensures var l := FailAll(cfg, cs);
      && Paced(cfg, l, start)
      && (l.breaker.state == Breaker.Open ==> cs != [] && l.breaker.openedAt <= cs[|cs| - 1].later)
      && l.requests <= l.admitted * maxAttempts
  {
    if cs != [] {
      var n := |cs| - 1;
      Pacing(cfg, cs[..n], start, maxAttempts);
      var l := FailAll(cfg, cs[..n]);
      PaceStep(cfg, l, cs[n], start);
      OneMoreTimes(l.admitted + 1, maxAttempts);
    }
  }

  /** Fail-fast: against an upstream that always fails, a caller that makes one call at a time
      sends at most failureThreshold * maxAttempts requests until the breaker opens, and then
      maxAttempts more for each time out that goes by. */
  lemma RequestsAreBounded(cfg: Breaker.Config, cs: seq<Attempted>, start: int, maxAttempts: nat)
    requires cfg.Valid() && cs != [] && OneAtATime(cs, start, maxAttempts)
    ensures var elapsed := cs[|cs| - 1].later - start;
      FailAll(cfg, cs).requests <= (cfg.failureThreshold + elapsed / cfg.openTimeout) * maxAttempts
  {
    Pacing(cfg, cs, start, maxAttempts);
    var l, elapsed := FailAll(cfg, cs), cs[|cs| - 1].later - start;
    QuotientKeepsOrder(0, elapsed, cfg.openTimeout);
    if l.breaker.state == Breaker.Open { QuotientKeepsOrder(l.breaker.openedAt - start, elapsed, cfg.openTimeout); }
    assert l.admitted <= cfg.failureThreshold + elapsed / cfg.openTimeout;
    TimesKeepsOrder(l.admitted, cfg.failureThreshold + elapsed / cfg.openTimeout, maxAttempts);
  }

  /** Every reply of the upstream is a network error, status 429 or a status of at least 500, and the calls
      are made one after the other. */
  ghost predicate FailingOneByOne(xs: seq<Exchange>, start: int) {
    && (forall k, n: nat | 0 <= k < |xs| :: !Accepted(xs[k].replies(n)))
    && (forall k | 0 <= k < |xs| :: start <= xs[k].now <= xs[k].later)
    && forall i, k | 0 <= i < k < |xs| :: xs[i].later <= xs[k].now
  }

  /** One such call through the client as it is, in the ledger of such calls. */
  method CallOnce(c: Client, x: Exchange, start: int, ghost cs: seq<Attempted>)
    returns (attempts: nat, ghost cs': seq<Attempted>)
    requires c.Valid() && c.breaker.Value() == FailAll(c.breaker.config, cs).breaker
    requires OneAtATime(cs, start, c.policy.maxAttempts) && start <= x.now <= x.later
    requires (forall k | 0 <= k < |cs| :: cs[k].later <= x.now) && forall n: nat :: !Accepted(x.replies(n))
    modifies c.breaker, c.slots
    ensures c.Valid() && c.breaker.Value() == FailAll(c.breaker.config, cs').breaker
    ensures FailAll(c.breaker.config, cs').requests == FailAll(c.breaker.config, cs).requests + attempts
    ensures OneAtATime(cs', start, c.policy.maxAttempts) && forall k | 0 <= k < |cs'| :: cs'[k].later <= x.later
  {
    var verdict;
    verdict, attempts := c.RoundTrip(x);
    cs' := cs;
    if !x.cancelled {
      OneMoreCall(c.breaker.config, cs, Attempted(x.now, x.later, attempts), start, c.policy.maxAttempts);
      cs' := cs + [Attempted(x.now, x.later, attempts)];
    }
  }

  /** A caller that makes such calls: so many requests go out at most. */
  method CallFailing(c: Client, xs: seq<Exchange>, start: int) returns (sent: nat)
    requires c.Valid() && c.breaker.config.Valid() && c.breaker.Value() == Breaker.NEW_FIELDS
    requires FailingOneByOne(xs, start)
    modifies c.breaker, c.slots
    ensures xs != [] ==>
      var elapsed := xs[|xs| - 1].later - start;
      sent <= (c.breaker.config.failureThreshold + elapsed / c.breaker.config.openTimeout) * c.policy.maxAttempts
  {
    ghost var cfg, cs: seq<Attempted> := c.breaker.config, [];
    sent := 0;
    for i := 0 to |xs|
      invariant c.Valid() && c.breaker.Value() == FailAll(cfg, cs).breaker && sent == FailAll(cfg, cs).requests
      invariant OneAtATime(cs, start, c.policy.maxAttempts)
      invariant forall k | 0 <= k < |cs| :: i > 0 && cs[k].later <= xs[i - 1].later
    {
      var attempts;
      attempts, cs := CallOnce(c, xs[i], start, cs);
      sent := sent + attempts;
    }
    if cs != [] { BoundedUpTo(cfg, cs, start, c.policy.maxAttempts, xs[|xs| - 1].later); }
    else if xs != [] { NothingSent(cfg, xs[|xs| - 1].later - start, c.policy.maxAttempts); }
  }

  lemma OneMoreCall(cfg: Breaker.Config, cs: seq<Attempted>, call: Attempted, start: int, maxAttempts: nat)
    requires OneAtATime(cs, start, maxAttempts) && start <= call.now <= call.later && call.requests <= maxAttempts
    requires forall k | 0 <= k < |cs| :: cs[k].later <= call.now
    ensures OneAtATime(cs + [call], start, maxAttempts)
    ensures FailAll(cfg, cs + [call]) == FailOne(cfg, FailAll(cfg, cs), call)
  {
    assert (cs + [call])[..|cs|] == cs;
  }

  lemma NothingSent(cfg: Breaker.Config, elapsed: int, maxAttempts: nat)
    requires cfg.Valid() && elapsed >= 0
    ensures 0 <= (cfg.failureThreshold + elapsed / cfg.openTimeout) * maxAttempts
  {
    QuotientKeepsOrder(0, elapsed, cfg.openTimeout);
    TimesKeepsOrder(0, cfg.failureThreshold + elapsed / cfg.openTimeout, maxAttempts);
  }

  lemma BoundedUpTo(cfg: Breaker.Config, cs: seq<Attempted>, start: int, maxAttempts: nat, end: int)
    requires cfg.Valid() && cs != [] && OneAtATime(cs, start, maxAttempts) && cs[|cs| - 1].later <= end
    ensures FailAll(cfg, cs).requests <= (cfg.failureThreshold + (end - start) / cfg.openTimeout) * maxAttempts
  {
    RequestsAreBounded(cfg, cs, start, maxAttempts);
    QuotientKeepsOrder(cs[|cs| - 1].later - start, end - start, cfg.openTimeout);
    TimesKeepsOrder(cfg.failureThreshold + (cs[|cs| - 1].later - start) / cfg.openTimeout,
                    cfg.failureThreshold + (end - start) / cfg.openTimeout, maxAttempts);
  }
}
