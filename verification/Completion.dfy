// The pipeline can always be completed: from every state it can get into, a continuation without
// faults drains the outbox and consumes the topic, so that convergence is not a promise about
// states that never come.
module Completion {
  import opened Arithmetic
  import opened Faults
  import Relay
  import RelayOrder
  import RelayProgress
  import PaymentStore
  import opened Consumer
  import opened ConsumerRuns
  import opened EndToEnd

  // ----- the relay -----

  const NOTHING: nat -> bool := (i: nat) => false

  lemma {:induction false} NothingIsBad(rows: seq<Relay.Row>, k: nat, end: nat)
    requires end <= |rows|
    ensures RelayProgress.Pending(rows, NOTHING, true, k, end) == 0
    decreases end - k
  {
    if k < end { NothingIsBad(rows, k + 1, end); }
  }

  /** n batches without faults, as steps of the one relay. */
  lemma {:induction false} BatchesAreARun(batchSize: nat, s: Relay.System, n: nat) returns (steps: seq<Relay.Step>)
    requires s.txns == map[]
    ensures forall k | 0 <= k < |steps| :: RelayOrder.Steady(steps[k]) && !steps[k].Insert?
    ensures var s' := Relay.Run(batchSize, s, steps);
      && s' == RelayProgress.Play(batchSize, s, RelayProgress.CleanRounds(NOTHING, n))
      && s'.txns == map[] && |s'.rows| == |s.rows|
  {
    var rounds := RelayProgress.CleanRounds(NOTHING, n);
    steps := [];
    if n > 0 {
      assert rounds[..n - 1] == RelayProgress.CleanRounds(NOTHING, n - 1);
      steps := BatchesAreARun(batchSize, s, n - 1);
      var before := Relay.Run(batchSize, s, steps);
      var a := rounds[n - 1].attempt;
      RelayProgress.TryEffect(batchSize, before, NOTHING, a);
      var batch := Relay.BatchIsARun(batchSize, before, 0, a);
      forall k | 0 <= k < |batch|
        ensures RelayOrder.Steady(batch[k]) && !batch[k].Insert?
      {
        assert Relay.Own(0, a, batch[k]);
      }
      Relay.RunAppend(batchSize, s, steps, batch);
      steps := steps + batch;
    }
  }

  /** Every open transaction, rolled back. */
  lemma {:induction false} RollBackAll(batchSize: nat, s: Relay.System) returns (steps: seq<Relay.Step>)
    ensures Relay.Run(batchSize, s, steps) == s.(txns := map[])
    ensures forall k | 0 <= k < |steps| :: steps[k].Rollback? && steps[k].relay in s.txns
    decreases |s.txns|
  {
    steps := [];
    if r :| r in s.txns {
      var s1 := Relay.RollbackStep(s, r);
      assert |s1.txns| < |s.txns| by {
        assert s1.txns.Keys == s.txns.Keys - {r};
        assert |s1.txns.Keys| == |s1.txns| && |s.txns.Keys| == |s.txns|;
      }
      var rest := RollBackAll(batchSize, s1);
      steps := [Relay.Rollback(r)] + rest;
      assert [Relay.Rollback(r)][..0] == [];
      assert Relay.Run(batchSize, s, [Relay.Rollback(r)]) == s1;
      Relay.RunAppend(batchSize, s, [Relay.Rollback(r)], rest);
    } else {
      assert s.txns == map[];
    }
  }

  /** Whatever transactions are open are rolled back, and then enough batches of one relay publish
      everything. */
  lemma DrainRelay(batchSize: nat, s: Relay.System) returns (steps: seq<Relay.Step>)
    requires batchSize > 0
    ensures forall k | 0 <= k < |steps| ::
      && !steps[k].Insert?
      && (steps[k].Rollback? ==> steps[k].relay in s.txns || steps[k].relay == 0)
      && (!steps[k].Rollback? ==> RelayOrder.Steady(steps[k]))
    ensures var s' := Relay.Run(batchSize, s, steps);
      |s'.rows| == |s.rows| && forall i | 0 <= i < |s'.rows| :: s'.rows[i].published
  {
    var rollbacks := RollBackAll(batchSize, s);
    var s1 := s.(txns := map[]);
    var n := RelayProgress.Publishable(s1, NOTHING, |s1.rows|);
    var batches := BatchesAreARun(batchSize, s1, n);
    steps := rollbacks + batches;
    Relay.RunAppend(batchSize, s, rollbacks, batches);
    BatchesPublishAll(batchSize, s1);
  }

  lemma BatchesPublishAll(batchSize: nat, s: Relay.System)
    requires batchSize > 0 && s.txns == map[]
    ensures var n := RelayProgress.Publishable(s, NOTHING, |s.rows|);
      var s' := RelayProgress.Play(batchSize, s, RelayProgress.CleanRounds(NOTHING, n));
      forall i | 0 <= i < |s.rows| :: i < |s'.rows| && s'.rows[i].published
  {
    var n := RelayProgress.Publishable(s, NOTHING, |s.rows|);
    var rounds := RelayProgress.CleanRounds(NOTHING, n);
    NothingIsBad(s.rows, 0, |s.rows|);
    RelayProgress.CleanRoundsAreClean(NOTHING, n);
    TimesKeepsOrder(1, batchSize, n);
    RelayProgress.AllArePublished(batchSize, s, rounds, NOTHING);
    assert forall i | 0 <= i < |s.rows| :: RelayProgress.Visible(s, rounds, i);
  }

  function Lifted(steps: seq<Relay.Step>): seq<Step> {
    seq(|steps|, i requires 0 <= i < |steps| => RelayStep(steps[i]))
  }

  lemma {:induction false} LiftedRun(x: Setting, s: Pipeline, steps: seq<Relay.Step>)
    requires forall k | 0 <= k < |steps| :: !steps[k].Insert?
    ensures Run(x, s, Lifted(steps)) == s.(relay := Relay.Run(x.batchSize, s.relay, steps))
  {
    if steps != [] {
      var n := |steps| - 1;
      LiftedRun(x, s, steps[..n]);
      assert Lifted(steps)[..n] == Lifted(steps[..n]);
    }
  }

  // ----- the consumer -----

  predicate IsRead(x: Setting, s: Pipeline, j: nat) {
    j < |s.relay.topic| && s.relay.topic[j] < |Outbox(s)| ==> j < ReadUpTo(s, x.part(At(s, j).orderId))
  }

  function Unread(x: Setting, s: Pipeline, k: nat): nat {
    if k == 0 then 0 else Unread(x, s, k - 1) + if IsRead(x, s, k - 1) then 0 else 1
  }

  lemma {:induction false} FewerUnread(x: Setting, s: Pipeline, s': Pipeline, j: nat, k: nat)
    requires forall i | 0 <= i < k && IsRead(x, s, i) :: IsRead(x, s', i)
    requires j < k && !IsRead(x, s, j) && IsRead(x, s', j)
    ensures Unread(x, s', k) < Unread(x, s, k)
  {
    if j < k - 1 { FewerUnread(x, s, s', j, k - 1); } else { NoMoreUnread(x, s, s', j); }
  }

  lemma {:induction false} NoMoreUnread(x: Setting, s: Pipeline, s': Pipeline, k: nat)
    requires forall i | 0 <= i < k && IsRead(x, s, i) :: IsRead(x, s', i)
    ensures Unread(x, s', k) <= Unread(x, s, k)
  {
    if k > 0 { NoMoreUnread(x, s, s', k - 1); }
  }

  lemma {:induction false} FirstUnread(x: Setting, s: Pipeline, k: nat) returns (j: nat)
    ensures j <= k && (j < k ==> !IsRead(x, s, j)) && forall i | 0 <= i < j :: IsRead(x, s, i)
  {
    j := 0;
    if k > 0 {
      j := FirstUnread(x, s, k - 1);
      if j == k - 1 && IsRead(x, s, k - 1) { j := k; }
    }
  }

  const NO_FAULTS := PaymentStore.Env((k: nat) => Done, (k: nat) => 1)

  /** The oldest unread message is the next of its partition; handled without faults, it settles, and
      the consumer goes on. */
  lemma DeliverOne(x: Setting, s: Pipeline, j: nat)
    requires Sound(x, s) && Usable(x.cfg) && !IsRead(x, s, j) && forall i | 0 <= i < j :: IsRead(x, s, i)
    ensures IsNext(x, s, j)
    ensures Unread(x, Delivered(x, s, j, [NO_FAULTS], true), |s.relay.topic|) < Unread(x, s, |s.relay.topic|)
    ensures forall id | Kept(x.cfg, s.handled, id) :: Kept(x.cfg, Delivered(x, s, j, [NO_FAULTS], true).handled, id)
  {
    var p := x.part(At(s, j).orderId);
    forall i: nat | ReadUpTo(s, p) <= i < j
      ensures !InPartition(x, s, i, p)
    {
      assert IsRead(x, s, i);
    }
    FewerUnread(x, s, Delivered(x, s, j, [NO_FAULTS], true), j, |s.relay.topic|);
    CleanAttemptSettles(x, s, j, NO_FAULTS);
    KeptAppend(x.cfg, s.handled, Handled(DeliveryOf(At(s, j)), [NO_FAULTS], true));
  }

  lemma KeptAppend(cfg: Config, hs: seq<Handled>, h: Handled)
    requires Settled(Consume(PaymentStore.EMPTY_WORLD, cfg, hs), cfg, h)
    ensures forall id | Kept(cfg, hs, id) :: Kept(cfg, hs + [h], id)
  {
    assert (hs + [h])[..|hs|] == hs;
  }

  lemma {:induction false} ConsumeTopic(x: Setting, s: Pipeline) returns (steps: seq<Step>)
    requires Sound(x, s) && Usable(x.cfg)
    ensures forall k | 0 <= k < |steps| :: steps[k].Deliver?
    ensures var s' := Run(x, s, steps);
      && s'.orders == s.orders && s'.relay == s.relay
      && (forall j | 0 <= j < |s.relay.topic| :: IsRead(x, s', j))
      && forall id | Kept(x.cfg, s.handled, id) :: Kept(x.cfg, s'.handled, id)
    decreases Unread(x, s, |s.relay.topic|)
  {
    steps := [];
    var j := FirstUnread(x, s, |s.relay.topic|);
    if j < |s.relay.topic| {
      DeliverOne(x, s, j);
      var s1, step := Delivered(x, s, j, [NO_FAULTS], true), Deliver(j, [NO_FAULTS], true);
      DeliverKeepsSound(x, s, j, [NO_FAULTS], true);
      var rest := ConsumeTopic(x, s1);
      steps := [step] + rest;
      RunOne(x, s, step);
      RunAppend(x, s, [step], rest);
    }
  }

  lemma RunOne(x: Setting, s: Pipeline, step: Step)
    ensures Run(x, s, [step]) == Next(x, s, step)
  {
    assert [step][..0] == [];
  }

  lemma {:induction false} RunAppend(x: Setting, s: Pipeline, a: seq<Step>, b: seq<Step>)
    ensures Run(x, s, a + b) == Run(x, Run(x, s, a), b)
  {
    if b == [] {
      assert a + b == a;
    } else {
      RunAppend(x, s, a, b[..|b| - 1]);
      assert (a + b)[..|a + b| - 1] == a + b[..|b| - 1];
    }
  }

  // ----- the result -----

  /** After any run, however it has gone, some continuation without another order command publishes every
      outbox row, reads the whole topic and gives no message up. */
  lemma CanAlwaysComplete(x: Setting, steps: seq<Step>) returns (more: seq<Step>)
    requires Usable(x.cfg) && x.batchSize > 0
    ensures var s, s' := Run(x, START, steps), Run(x, START, steps + more);
      && s'.orders == s.orders
      && (forall id :: Drained(x, s', id))
      && (forall id | Kept(x.cfg, s.handled, id) :: Kept(x.cfg, s'.handled, id))
    ensures OneRelay(steps) ==> OneRelay(steps + more)
  {
    StartIsSound(x);
    RunKeepsSound(x, START, steps);
    var s := Run(x, START, steps);
    var relaying := DrainRelay(x.batchSize, s.relay);
    LiftedRun(x, s, relaying);
    var s1 := Run(x, s, Lifted(relaying));
    RunKeepsSound(x, s, Lifted(relaying));
    var consuming := ConsumeTopic(x, s1);
    more := Lifted(relaying) + consuming;
    RunAppend(x, s, Lifted(relaying), consuming);
    RunAppend(x, START, steps, more);
    AllRead(x, Run(x, s1, consuming));
    if OneRelay(steps) {
      OneRelayIsOrdered(x, steps);
      StillOneRelay(steps, relaying, consuming);
    }
  }

  lemma AllRead(x: Setting, s: Pipeline)
    requires forall i | 0 <= i < |s.relay.rows| :: s.relay.rows[i].published
    requires forall j | 0 <= j < |s.relay.topic| :: IsRead(x, s, j)
    ensures forall id :: Drained(x, s, id)
  {
    forall id, j: nat | Holds(s, j, Placed(id)) || Holds(s, j, Cancelled(id))
      ensures j < ReadUpTo(s, x.part(id))
    {
      assert IsRead(x, s, j);
    }
  }

  lemma StillOneRelay(steps: seq<Step>, relaying: seq<Relay.Step>, consuming: seq<Step>)
    requires OneRelay(steps) && (forall k | 0 <= k < |relaying| :: RelayOrder.Steady(relaying[k]))
    requires forall k | 0 <= k < |consuming| :: consuming[k].Deliver?
    ensures OneRelay(steps + (Lifted(relaying) + consuming))
  {
    var all, m, n := steps + (Lifted(relaying) + consuming), |steps|, |relaying|;
    assert forall k | m <= k < m + n :: all[k] == RelayStep(relaying[k - m]);
    assert forall k | m + n <= k < |all| :: all[k] == consuming[k - m - n];
  }

  /** So with one relay whose publishes take effect, an order of which no message has been given up always
      can still get the payment that is due. */
  lemma CanAlwaysConverge(x: Setting, steps: seq<Step>, id: string) returns (more: seq<Step>)
    requires Usable(x.cfg) && x.batchSize > 0 && OneRelay(steps) && Kept(x.cfg, Run(x, START, steps).handled, id)
    ensures var s, s' := Run(x, START, steps), Run(x, START, steps + more);
      && s'.orders == s.orders
      && View(PaymentTables(x, s'), id) == DueFor(x.cfg, s.orders.world, id)
  {
    more := CanAlwaysComplete(x, steps);
    ConvergenceWithOneRelay(x, steps + more, id);
  }
}
