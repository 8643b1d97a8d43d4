// The order of the topic. With a single relay and no publish that fails without effect, whatever
// crashes, is rolled back or reports an error although it took effect, a row is in the topic only
// behind every older row; and in a batch with failing publishes, exactly when.
module RelayOrder {
  import opened Faults
  import opened Relay

  /** Behind every message stand messages of all the rows older than its own. */
  ghost predicate Causal(topic: seq<nat>) {
    forall j, d | 0 <= j < |topic| && 0 <= d < topic[j] :: d in topic[..j]
  }

  /** A step of the one relay, by name 0, whose publishes take effect, whatever they report. */
  predicate Steady(step: Step) {
    match step
    case Insert => true
    case Begin(r) => r == 0
    case Publish(r, o) => r == 0 && o != Refused
    case Commit(r) => r == 0
    case Rollback(r) => r == 0
  }

  /** Row d is published, or in the batch before its k-th row. */
  predicate Covered(rows: seq<Row>, batch: seq<nat>, k: nat, d: nat) {
    d < |rows| && k <= |batch| && (rows[d].published || d in batch[..k])
  }

  ghost predicate NoGap(rows: seq<Row>, batch: seq<nat>, first: nat) {
    forall k: nat, d: nat {:trigger Covered(rows, batch, k, d)} | k < |batch| && first <= d < batch[k] ::
      Covered(rows, batch, k, d)
  }

  /** What has been dealt with is in the topic, and the batch leaves no gap: a row older than one of
      its rows is published or before it. */
  ghost predicate Gapless(s: System, t: Txn) {
    && |t.results| <= |t.batch|
    && (forall k | 0 <= k < |t.results| :: t.batch[k] in s.topic)
    && NoGap(s.rows, t.batch, 0)
  }

  ghost predicate Ordered(s: System) {
    && Sound(s) && Causal(s.topic)
    && (forall r | r in s.txns :: r == 0)
    && (0 in s.txns ==> Gapless(s, s.txns[0]))
  }

  /** What a batch of the oldest pending rows leaves behind is published or younger. */
  lemma {:induction false} NoGaps(rows: seq<Row>, k: nat, limit: nat)
    requires k <= |rows|
    ensures NoGap(rows, Select(rows, map[], k, limit), k)
    decreases |rows| - k
  {
    var batch := Select(rows, map[], k, limit);
    SelectSpec(rows, map[], k, limit);
    if k < |rows| && limit > 0 {
      var rest := Select(rows, map[], k + 1, if rows[k].published then limit else limit - 1);
      NoGaps(rows, k + 1, if rows[k].published then limit else limit - 1);
      forall m: nat, d: nat | m < |batch| && k <= d < batch[m]
        ensures Covered(rows, batch, m, d)
      {
        assert batch[m] in batch;
        if rows[k].published {
          if d > k { assert Covered(rows, rest, m, d); }
        } else if m > 0 {
          assert batch == [k] + rest;
          assert batch[..m] == [k] + rest[..m - 1];
          if d > k { assert Covered(rows, rest, m - 1, d); }
        }
      }
    }
  }

  lemma BeginKeepsOrder(batchSize: nat, s: System)
    requires Ordered(s)
    ensures Ordered(BeginStep(batchSize, s, 0))
  {
    NextKeepsSound(batchSize, s, Begin(0));
    if 0 !in s.txns {
      assert s.txns == map[];
      NoGaps(s.rows, 0, batchSize);
    }
  }

  lemma PublishKeepsOrder(s: System, o: Outcome)
    requires Ordered(s) && o != Refused
    ensures Ordered(PublishStep(s, 0, o))
  {
    NextKeepsSound(0, s, Publish(0, o));
    if 0 in s.txns && |s.txns[0].results| < |s.txns[0].batch| {
      var t := s.txns[0];
      forall d: nat | d < t.batch[|t.results|]
        ensures d in s.topic
      {
        BatchBefore(s, |t.results|, d);
      }
      Extended(s.topic, t.batch[|t.results|]);
    }
  }

  /** A row older than the k-th of the open batch is in the topic, or in the batch and not dealt with. */
  lemma BatchBefore(s: System, k: nat, d: nat)
    requires Ordered(s) && 0 in s.txns && k < |s.txns[0].batch| && d < s.txns[0].batch[k]
    ensures d in s.topic || exists j :: |s.txns[0].results| <= j < k && s.txns[0].batch[j] == d
  {
    var t := s.txns[0];
    assert SoundTxn(s, t) && Covered(s.rows, t.batch, k, d);
    if s.rows[d].published {
      assert SoundRow(s, d);
    } else {
      var j :| 0 <= j < k && t.batch[..k][j] == d;
      if j < |t.results| { assert t.batch[j] in s.topic; }
    }
  }

  lemma Extended(topic: seq<nat>, i: nat)
    requires Causal(topic) && forall d | 0 <= d < i :: d in topic
    ensures Causal(topic + [i])
  {
    var after := topic + [i];
    forall j, d | 0 <= j < |after| && 0 <= d < after[j]
      ensures d in after[..j]
    {
      if j < |topic| { assert after[..j] == topic[..j]; } else { assert after[..j] == topic; }
    }
  }

  lemma CommitKeepsOrder(s: System)
    requires Ordered(s)
    ensures Ordered(CommitStep(s, 0))
  {
    NextKeepsSound(0, s, Commit(0));
  }

  /** Every step keeps the order. */
  lemma StepKeepsOrder(batchSize: nat, s: System, step: Step)
    requires Ordered(s) && Steady(step)
    ensures Ordered(Next(batchSize, s, step)) && s.topic <= Next(batchSize, s, step).topic
  {
    NextKeepsSound(batchSize, s, step);
    match step
    case Insert => InsertKeepsOrder(batchSize, s);
    case Begin(r) => BeginKeepsOrder(batchSize, s);
    case Publish(r, o) => PublishKeepsOrder(s, o);
    case Commit(r) => CommitKeepsOrder(s);
    case Rollback(r) =>
  }

  lemma InsertKeepsOrder(batchSize: nat, s: System)
    requires Ordered(s)
    ensures Ordered(Next(batchSize, s, Insert))
  {
    NextKeepsSound(batchSize, s, Insert);
    if 0 in s.txns {
      var batch := s.txns[0].batch;
      forall k: nat, d: nat | k < |batch| && d < batch[k]
        ensures Covered(s.rows + [Row(false, 0)], batch, k, d)
      {
        assert Covered(s.rows, batch, k, d);
      }
    }
  }

  /** In every run of one relay whose publishes take effect, with crashes, rollbacks and publishes
      reported as failed anywhere, no message comes before a message of every older row. */
  lemma {:induction false} OneRelayKeepsOrder(batchSize: nat, steps: seq<Step>)
    requires forall k | 0 <= k < |steps| :: Steady(steps[k])
    ensures Ordered(Run(batchSize, EMPTY_SYSTEM, steps))
  {
    if steps != [] {
      var n := |steps| - 1;
      OneRelayKeepsOrder(batchSize, steps[..n]);
      StepKeepsOrder(batchSize, Run(batchSize, EMPTY_SYSTEM, steps[..n]), steps[n]);
    }
  }

  /** So too for the rows of one order alone, whatever stands between them. */
  lemma OrderOfTwoRows(batchSize: nat, steps: seq<Step>, older: nat, newer: nat)
    requires (forall k | 0 <= k < |steps| :: Steady(steps[k])) && older < newer
    ensures Behind(Run(batchSize, EMPTY_SYSTEM, steps).topic, older, newer)
  {
    OneRelayKeepsOrder(batchSize, steps);
  }

  /** Every message of the newer row has one of the older row before it. */
  ghost predicate Behind(topic: seq<nat>, older: nat, newer: nat) {
    forall j | 0 <= j < |topic| && topic[j] == newer :: older in topic[..j]
  }

  // ----- failing publishes -----

  /** The k-th row of a batch goes out, and row d is neither in the topic from before nor goes out
      before it in the batch. */
  ghost predicate Overtakes(topic: seq<nat>, batch: seq<nat>, a: Attempt, k: nat, d: nat)
    requires k < |batch|
  {
    a.publish(batch[k]) != Refused && d !in topic && !(d in batch[..k] && a.publish(d) != Refused)
  }

  /** A failed publish does not stop the batch, and a row that another relay has locked is skipped, so a
      younger row can overtake an older one. Exactly when, for a row of a batch and any older row d,
      whatever has been overtaken before and whoever else has a batch open. */
  lemma {:induction false} OvertakingByABatch(s: System, r: nat, a: Attempt, n: nat, k: nat, d: nat)
    requires Sound(s) && r in s.txns && s.txns[r].results == [] && n <= |s.txns[r].batch|
    requires k < |s.txns[r].batch| && d < s.txns[r].batch[k]
    ensures Behind(Published(s, r, a, n).topic, d, s.txns[r].batch[k])
       <==> Behind(s.topic, d, s.txns[r].batch[k]) && (k < n ==> !Overtakes(s.topic, s.txns[r].batch, a, k, d))
  {
    if n > 0 {
      OvertakingByABatch(s, r, a, n - 1, k, d);
      var batch := s.txns[r].batch;
      assert batch[n - 1] == batch[k] <==> n - 1 == k by { assert SoundTxn(s, s.txns[r]); }
      if n - 1 == k { InTopic(s, r, a, k, d); }
      BehindOneMore(s, r, a, n, batch[k], d);
    }
  }

  lemma BehindOneMore(s: System, r: nat, a: Attempt, n: nat, newer: nat, older: nat)
    requires r in s.txns && s.txns[r].results == [] && 0 < n <= |s.txns[r].batch|
    ensures var i, topic := s.txns[r].batch[n - 1], Published(s, r, a, n - 1).topic;
      Behind(Published(s, r, a, n).topic, older, newer) <==>
        Behind(topic, older, newer) && (i == newer && a.publish(i) != Refused ==> older in topic)
  {
    TopicGrows(s, r, a, n);
    BehindAppend(Published(s, r, a, n - 1).topic, Published(s, r, a, n).topic, s.txns[r].batch[n - 1], older, newer);
  }

  /** In particular for two rows of one batch, for instance of one order: when the younger one goes out
      and the older one neither goes out nor is in the topic from before. */
  lemma OvertakingInABatch(s: System, r: nat, a: Attempt, n: nat, j: nat, k: nat)
    requires Sound(s) && r in s.txns && s.txns[r].results == [] && n <= |s.txns[r].batch|
    requires j < k < |s.txns[r].batch|
    ensures var batch := s.txns[r].batch;
      Behind(Published(s, r, a, n).topic, batch[j], batch[k])
      <==> Behind(s.topic, batch[j], batch[k])
           && !(k < n && a.publish(batch[k]) != Refused && a.publish(batch[j]) == Refused && batch[j] !in s.topic)
  {
    var batch := s.txns[r].batch;
    assert SoundTxn(s, s.txns[r]);
    assert batch[..k][j] == batch[j];
    OvertakingByABatch(s, r, a, n, k, batch[j]);
  }

  lemma BehindAppend(topic: seq<nat>, topic': seq<nat>, i: nat, older: nat, newer: nat)
    requires topic' == topic || topic' == topic + [i]
    ensures Behind(topic', older, newer) <==>
              Behind(topic, older, newer) && (topic' == topic + [i] && i == newer ==> older in topic)
  {
    if topic' == topic + [i] {
      assert forall j | 0 <= j < |topic| :: topic'[j] == topic[j] && topic'[..j] == topic[..j];
      assert topic'[|topic|] == i && topic'[..|topic|] == topic;
    }
  }

  /** The k-th row of the batch overtakes no older row. */
  ghost predicate OvertakesNothing(topic: seq<nat>, batch: seq<nat>, a: Attempt, k: nat)
    requires k < |batch|
  {
    forall d: nat | d < batch[k] :: !Overtakes(topic, batch, a, k, d)
  }

  /** The whole topic: after n publishes of a batch it is in order exactly if it was before and no row of
      the batch has overtaken an older one. */
  lemma {:induction false} OrderInABatch(s: System, r: nat, a: Attempt, n: nat)
    requires r in s.txns && s.txns[r].results == [] && n <= |s.txns[r].batch|
    ensures Causal(Published(s, r, a, n).topic) <==>
              Causal(s.topic) && forall k: nat | k < n :: OvertakesNothing(s.topic, s.txns[r].batch, a, k)
  {
    if n > 0 {
      OrderInABatch(s, r, a, n - 1);
      CausalOneMore(s, r, a, n);
    }
  }

  lemma CausalOneMore(s: System, r: nat, a: Attempt, n: nat)
    requires r in s.txns && s.txns[r].results == [] && 0 < n <= |s.txns[r].batch|
    ensures Causal(Published(s, r, a, n).topic) <==>
              Causal(Published(s, r, a, n - 1).topic) && OvertakesNothing(s.topic, s.txns[r].batch, a, n - 1)
  {
    var k, batch, topic := n - 1, s.txns[r].batch, Published(s, r, a, n - 1).topic;
    TopicGrows(s, r, a, n);
    CausalAppend(topic, Published(s, r, a, n).topic, batch[k]);
    forall d: nat | d < batch[k]
      ensures Overtakes(s.topic, batch, a, k, d) <==> a.publish(batch[k]) != Refused && d !in topic
    {
      InTopic(s, r, a, k, d);
    }
    assert OvertakesNothing(s.topic, batch, a, k) <==> a.publish(batch[k]) == Refused || AllIn(topic, batch[k]);
  }

  ghost predicate AllIn(topic: seq<nat>, end: nat) { forall d | 0 <= d < end :: d in topic }

  lemma CausalAppend(topic: seq<nat>, topic': seq<nat>, i: nat)
    requires topic' == topic || topic' == topic + [i]
    ensures Causal(topic') <==> Causal(topic) && (topic' == topic + [i] ==> AllIn(topic, i))
  {
    if topic' == topic + [i] {
      assert forall j | 0 <= j < |topic| :: topic'[j] == topic[j] && topic'[..j] == topic[..j];
      assert topic'[|topic|] == i && topic'[..|topic|] == topic;
    }
  }

  /** For a single relay whose topic is in order so far only the rows of its batch count. */
  lemma OrderOfOneRelay(s: System, a: Attempt, n: nat)
    requires Ordered(s) && 0 in s.txns && s.txns[0].results == [] && n <= |s.txns[0].batch|
    ensures Causal(Published(s, 0, a, n).topic) <==>
              forall k: nat | k < n :: OvertakesNoneOfBatch(s.topic, s.txns[0].batch, a, k)
  {
    OrderInABatch(s, 0, a, n);
    forall k: nat | k < n
      ensures OvertakesNothing(s.topic, s.txns[0].batch, a, k) <==> OvertakesNoneOfBatch(s.topic, s.txns[0].batch, a, k)
    {
      OnlyTheBatchCounts(s, a, k);
    }
  }

  /** The k-th row of the batch overtakes none of the rows before it in the batch. */
  ghost predicate OvertakesNoneOfBatch(topic: seq<nat>, batch: seq<nat>, a: Attempt, k: nat)
    requires k < |batch|
  {
    forall j: nat | j < k :: !Overtakes(topic, batch, a, k, batch[j])
  }

  lemma OnlyTheBatchCounts(s: System, a: Attempt, k: nat)
    requires Ordered(s) && 0 in s.txns && s.txns[0].results == [] && k < |s.txns[0].batch|
    ensures OvertakesNothing(s.topic, s.txns[0].batch, a, k) <==> OvertakesNoneOfBatch(s.topic, s.txns[0].batch, a, k)
  {
    var batch := s.txns[0].batch;
    assert forall j: nat | j < k :: batch[j] < batch[k] by { assert SoundTxn(s, s.txns[0]); }
    if OvertakesNoneOfBatch(s.topic, batch, a, k) {
      forall d: nat | d < batch[k]
        ensures !Overtakes(s.topic, batch, a, k, d)
      {
        BatchBefore(s, k, d);
      }
    }
  }
}
