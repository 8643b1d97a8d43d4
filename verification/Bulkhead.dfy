// The bulkhead: shared/resilience/http_bulkhead.go. A request puts a token into a channel of
// capacity maxConcurrent, or gives up when its context ends, and takes a token out on every exit.
module Bulkhead {

  /** The channel: only its length matters. */
  class Slots {
    const capacity: nat
    var length: nat

    constructor (capacity: nat)
      ensures this.capacity == capacity && length == 0
    {
      this.capacity := capacity;
      length := 0;
    }

    /** A send that does not block, or nothing. */
    method TrySend() returns (sent: bool)
      modifies this
      ensures sent == (old(length) < capacity) && length == old(length) + if sent then 1 else 0
    {
      sent := length < capacity;
      if sent { length := length + 1; }
    }

    /** A receive that does not block, or nothing. */
    method TryReceive() returns (received: bool)
      modifies this
      ensures received == (old(length) > 0) && length == old(length) - if received then 1 else 0
    {
      received := length > 0;
      if received { length := length - 1; }
    }
  }

  /** What a request does: it arrives, it sends its token, its base round trip returns (or panics)
      and it takes a token out, or it gives up because its context has ended before it could send. The
      context may end at any time, before the request arrives and while it is inside as well. */
  datatype Event =
    | Arrive(request: nat)
    | Acquire(request: nat)
    | Exit(request: nat)
    | ContextEnds(request: nat)
    | GiveUp(request: nat)

  /** length is the channel's; waiting, inside and gone are where the requests stand in the code, and
      ended holds the requests whose context has ended. */
  datatype System = System(length: nat, waiting: set<nat>, inside: set<nat>, gone: set<nat>, ended: set<nat>)

  predicate Enabled(capacity: nat, s: System, e: Event) {
    match e
    case Arrive(r) => r !in s.waiting + s.inside + s.gone
    case Acquire(r) => r in s.waiting && s.length < capacity
    case Exit(r) => r in s.inside && s.length > 0
    case ContextEnds(r) => true
    case GiveUp(r) => r in s.waiting && r in s.ended
  }

  function Next(capacity: nat, s: System, e: Event): System
    requires Enabled(capacity, s, e)
  {
    match e
    case Arrive(r) => s.(waiting := s.waiting + {r})
    case Acquire(r) => s.(length := s.length + 1, waiting := s.waiting - {r}, inside := s.inside + {r})
    case Exit(r) => s.(length := s.length - 1, inside := s.inside - {r}, gone := s.gone + {r})
    case ContextEnds(r) => s.(ended := s.ended + {r})
    case GiveUp(r) => s.(waiting := s.waiting - {r}, gone := s.gone + {r})
  }

  /** The system after some events; one that is not enabled is passed over. */
  function Run(capacity: nat, es: seq<Event>): System {
    if es == [] then System(0, {}, {}, {}, {}) else
      var n := |es| - 1;
      var before := Run(capacity, es[..n]);
      if Enabled(capacity, before, es[n]) then Next(capacity, before, es[n]) else before
  }

  ghost predicate IsRun(capacity: nat, es: seq<Event>) {
    forall k | 0 <= k < |es| :: Enabled(capacity, Run(capacity, es[..k]), es[k])
  }

  function Times(es: seq<Event>, e: Event): nat {
    if es == [] then 0 else
      var n := |es| - 1;
      Times(es[..n], e) + if es[n] == e then 1 else 0
  }

  ghost predicate Conserved(capacity: nat, s: System) {
    && s.length == |s.inside| <= capacity
    && s.waiting !! s.inside && s.waiting !! s.gone && s.inside !! s.gone
  }

  /** What request r has done so far, against where it stands. */
  ghost predicate Accounted(s: System, es: seq<Event>, r: nat) {
    && Times(es, Acquire(r)) == Times(es, Exit(r)) + (if r in s.inside then 1 else 0)
    && Times(es, Acquire(r)) + Times(es, GiveUp(r)) == if r in s.inside || r in s.gone then 1 else 0
  }

  lemma StepConserves(capacity: nat, s: System, e: Event)
    requires Conserved(capacity, s) && Enabled(capacity, s, e)
    ensures Conserved(capacity, Next(capacity, s, e))
  {}

  lemma StepAccounts(capacity: nat, s: System, es: seq<Event>, e: Event, r: nat)
    requires Conserved(capacity, s) && Enabled(capacity, s, e) && Accounted(s, es, r)
    ensures Accounted(Next(capacity, s, e), es + [e], r)
  {
    assert (es + [e])[..|es|] == es;
  }

  /** Conservation, over all interleavings: the tokens in the channel are the requests inside the
      base transport, never more than the capacity, so the receive on exit never blocks; a request
      sends its token at most once, and has taken one out exactly once for each that it has sent by
      the time it is gone; one that gives up has sent none. */
  lemma {:induction false} Conservation(capacity: nat, es: seq<Event>)
    requires IsRun(capacity, es)
    ensures var s := Run(capacity, es);
      && Conserved(capacity, s)
      && (forall r :: Accounted(s, es, r))
      && (forall r | r in s.inside :: Enabled(capacity, s, Exit(r)))
  {
    if es != [] {
      var n := |es| - 1;
      IsRunBefore(capacity, es, n);
      Conservation(capacity, es[..n]);
      var before := Run(capacity, es[..n]);
      StepConserves(capacity, before, es[n]);
      forall r
        ensures Accounted(Run(capacity, es), es, r)
      {
        StepAccounts(capacity, before, es[..n], es[n], r);
        assert es == es[..n] + [es[n]];
      }
    }
    NeverBlocks(capacity, Run(capacity, es));
  }

  lemma NeverBlocks(capacity: nat, s: System)
    requires Conserved(capacity, s)
    ensures forall r | r in s.inside :: Enabled(capacity, s, Exit(r))
  {
    forall r | r in s.inside
      ensures s.length > 0
    {
      assert {r} <= s.inside;
    }
  }

  /** Event e is in the run, at some time before n. */
  ghost predicate Before(es: seq<Event>, n: nat, e: Event)
    requires n <= |es|
  {
    exists k :: 0 <= k < n && es[k] == e
  }

  /** A context counts as ended exactly if it has ended. */
  lemma {:induction false} EndedSo(capacity: nat, es: seq<Event>, r: nat)
    requires IsRun(capacity, es)
    ensures r in Run(capacity, es).ended <==> Before(es, |es|, ContextEnds(r))
  {
    if es != [] {
      var n := |es| - 1;
      IsRunBefore(capacity, es, n);
      EndedSo(capacity, es[..n], r);
      BeforeOneMore(es, n, ContextEnds(r));
      EndedStep(capacity, Run(capacity, es[..n]), es[n], r);
    }
  }

  lemma BeforeOneMore(es: seq<Event>, n: nat, e: Event)
    requires n < |es|
    ensures Before(es, n + 1, e) <==> Before(es[..n], n, e) || es[n] == e
  {
    assert forall k | 0 <= k < n :: es[..n][k] == es[k];
  }

  lemma EndedStep(capacity: nat, s: System, e: Event, r: nat)
    requires Enabled(capacity, s, e)
    ensures r in Next(capacity, s, e).ended <==> r in s.ended || e == ContextEnds(r)
  {}

  lemma IsRunBefore(capacity: nat, es: seq<Event>, n: nat)
    requires IsRun(capacity, es) && n <= |es|
    ensures IsRun(capacity, es[..n])
  {
    forall k | 0 <= k < n
      ensures Enabled(capacity, Run(capacity, es[..n][..k]), es[..n][k])
    {
      assert es[..n][..k] == es[..k];
    }
  }

  lemma {:induction false} Occurs(es: seq<Event>, e: Event) returns (k: nat)
    requires Times(es, e) > 0
    ensures k < |es| && es[k] == e
  {
    var n := |es| - 1;
    if es[n] == e { k := n; } else { k := Occurs(es[..n], e); }
  }

  /** How a request leaves the bulkhead, in every run: either it has sent its one token and taken one out,
      or it has sent none and has given up after its context had ended. */
  lemma LeavesOnlySo(capacity: nat, es: seq<Event>, r: nat)
    requires IsRun(capacity, es) && r in Run(capacity, es).gone
    ensures || (Times(es, Acquire(r)) == Times(es, Exit(r)) == 1 && Times(es, GiveUp(r)) == 0)
            || (&& Times(es, Acquire(r)) == Times(es, Exit(r)) == 0 && Times(es, GiveUp(r)) == 1
                && exists k :: 0 <= k < |es| && es[k] == GiveUp(r) && Before(es, k, ContextEnds(r)))
  {
    Conservation(capacity, es);
    assert Accounted(Run(capacity, es), es, r);
    if Times(es, GiveUp(r)) > 0 {
      var k := Occurs(es, GiveUp(r));
      IsRunBefore(capacity, es, k);
      EndedSo(capacity, es[..k], r);
      assert Before(es[..k], k, ContextEnds(r));
      assert forall j | 0 <= j < k :: es[..k][j] == es[j];
      assert Before(es, k, ContextEnds(r));
    }
  }

  /** What a waiter can do: go in exactly while fewer than the capacity are inside, and give up exactly if
      its context has ended. So it is stuck exactly while the bulkhead is full and its context lasts. */
  lemma WaitsOnlySo(capacity: nat, es: seq<Event>, r: nat)
    requires IsRun(capacity, es) && r in Run(capacity, es).waiting
    ensures Enabled(capacity, Run(capacity, es), Acquire(r)) <==> |Run(capacity, es).inside| < capacity
    ensures Enabled(capacity, Run(capacity, es), GiveUp(r)) <==> Before(es, |es|, ContextEnds(r))
  {
    Conservation(capacity, es);
    EndedSo(capacity, es, r);
  }
}
