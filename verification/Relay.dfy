// The outbox relay: order/infrastructure/outbox_relay.go. Each batch is a transaction that locks
// the oldest unlocked pending rows, publishes them one by one and marks them, or counts the
// failure; the messages are out even if the transaction then rolls back.
module Relay {
  import opened Faults

  /** An outbox row, identified by its position: rows stand in the order of their created_at. */
  datatype Row = Row(published: bool, retries: nat)

  /** An open transaction: the rows it has locked and, for those it has dealt with, whether the
      publish succeeded. Its updates are not visible to others before it commits. */
  datatype Txn = Txn(batch: seq<nat>, results: seq<bool>)

  /** topic holds the row of every message in it; failures, the row of every failed publish that
      has been committed. */
  datatype System = System(rows: seq<Row>, topic: seq<nat>, txns: map<nat, Txn>, failures: seq<nat>)

  const EMPTY_SYSTEM := System([], [], map[], [])

  predicate Locked(txns: map<nat, Txn>, i: nat) { exists r | r in txns :: i in txns[r].batch }

  /** The first `limit` pending rows from k on that nobody has locked (FOR UPDATE SKIP LOCKED). */
  function Select(rows: seq<Row>, txns: map<nat, Txn>, k: nat, limit: nat): seq<nat>
    requires k <= |rows|
    decreases |rows| - k
  {
    if k == |rows| || limit == 0 then []
    else if rows[k].published || Locked(txns, k) then Select(rows, txns, k + 1, limit)
    else [k] + Select(rows, txns, k + 1, limit - 1)
  }

  /** The updates of a transaction, as the others see them once it commits. */
  function Updated(rows: seq<Row>, batch: seq<nat>, results: seq<bool>): seq<Row>
    requires |results| <= |batch| && forall k | 0 <= k < |batch| :: batch[k] < |rows|
    ensures |Updated(rows, batch, results)| == |rows|
  {
    if results == [] then rows else
      var n := |results| - 1;
      var before := Updated(rows, batch, results[..n]);
      var row := before[batch[n]];
      before[batch[n] := if results[n] then row.(published := true) else row.(retries := row.retries + 1)]
  }

  function FailedOf(batch: seq<nat>, results: seq<bool>): seq<nat>
    requires |results| <= |batch|
  {
    if results == [] then [] else
      var n := |results| - 1;
      FailedOf(batch, results[..n]) + (if results[n] then [] else [batch[n]])
  }

  // ----- the atomic steps of any number of relays -----

  datatype Step =
    | Insert
    | Begin(relay: nat)
    | Publish(relay: nat, outcome: Outcome)
    | Commit(relay: nat)
    | Rollback(relay: nat)

  function BeginStep(batchSize: nat, s: System, r: nat): System {
    if r in s.txns then s else s.(txns := s.txns[r := Txn(Select(s.rows, s.txns, 0, batchSize), [])])
  }

  function PublishStep(s: System, r: nat, o: Outcome): System {
    if r !in s.txns || |s.txns[r].results| >= |s.txns[r].batch| then s else
      var t := s.txns[r];
      s.(topic := if o == Refused then s.topic else s.topic + [t.batch[|t.results|]],
         txns := s.txns[r := t.(results := t.results + [o == Done])])
  }

  function CommitStep(s: System, r: nat): System {
    if r !in s.txns || |s.txns[r].results| != |s.txns[r].batch|
       || (exists k | 0 <= k < |s.txns[r].batch| :: s.txns[r].batch[k] >= |s.rows|) then s else
      var t := s.txns[r];
      s.(rows := Updated(s.rows, t.batch, t.results), txns := s.txns - {r},
         failures := s.failures + FailedOf(t.batch, t.results))
  }

  function RollbackStep(s: System, r: nat): System { s.(txns := s.txns - {r}) }

  /** One step; a step that is not enabled changes nothing. */
  function Next(batchSize: nat, s: System, step: Step): System {
    match step
    case Insert => s.(rows := s.rows + [Row(false, 0)])
    case Begin(r) => BeginStep(batchSize, s, r)
    case Publish(r, o) => PublishStep(s, r, o)
    case Commit(r) => CommitStep(s, r)
    case Rollback(r) => RollbackStep(s, r)
  }

  function Run(batchSize: nat, s: System, steps: seq<Step>): System {
    if steps == [] then s
    else Next(batchSize, Run(batchSize, s, steps[..|steps| - 1]), steps[|steps| - 1])
  }

  // ----- what every step keeps -----

  function Occurs(xs: seq<nat>, i: nat): nat {
    if xs == [] then 0 else Occurs(xs[..|xs| - 1], i) + if xs[|xs| - 1] == i then 1 else 0
  }

  predicate Increasing(xs: seq<nat>) { forall j, k | 0 <= j < k < |xs| :: xs[j] < xs[k] }

  /** A transaction holds pending rows, in order, and what it counts as published is in the topic. */
  ghost predicate SoundTxn(s: System, t: Txn) {
    && |t.results| <= |t.batch| && Increasing(t.batch)
    && (forall k | 0 <= k < |t.batch| :: t.batch[k] < |s.rows| && !s.rows[t.batch[k]].published)
    && forall k | 0 <= k < |t.results| && t.results[k] :: t.batch[k] in s.topic
  }

  ghost predicate SoundRow(s: System, i: nat)
    requires i < |s.rows|
  {
    (s.rows[i].published ==> i in s.topic) && s.rows[i].retries == Occurs(s.failures, i)
  }

  /** At-least-once publication: a row marked published is in the topic, so every row is in the
      topic or still pending; its retry count is the number of its committed failed publishes; no
      row is held by two open batches; and the topic holds nothing but outbox rows. */
  ghost predicate Sound(s: System) {
    && (forall i {:trigger SoundRow(s, i)} | 0 <= i < |s.rows| :: SoundRow(s, i))
    && (forall r {:trigger SoundTxn(s, s.txns[r])} | r in s.txns :: SoundTxn(s, s.txns[r]))
    && (forall r, q, i | r in s.txns && q in s.txns && r != q && i in s.txns[r].batch :: i !in s.txns[q].batch)
    && (forall i | i in s.topic :: i < |s.rows|)
    && (forall i | i in s.failures :: i < |s.rows|)
  }

  /** A batch holds pending rows that nobody has locked, in order. */
  lemma {:induction false} SelectSpec(rows: seq<Row>, txns: map<nat, Txn>, k: nat, limit: nat)
    requires k <= |rows|
    ensures var batch := Select(rows, txns, k, limit);
      && |batch| <= limit && Increasing(batch)
      && forall i | i in batch :: k <= i < |rows| && !rows[i].published && !Locked(txns, i)
    decreases |rows| - k
  {
    if k < |rows| && limit > 0 {
      SelectSpec(rows, txns, k + 1, limit);
      SelectSpec(rows, txns, k + 1, limit - 1);
      var rest := Select(rows, txns, k + 1, limit - 1);
      assert forall j | 0 <= j < |rest| :: rest[j] in rest;
      assert Increasing([k] + rest);
    }
  }

  /** And it holds the oldest of them: one that is left out is younger than the whole batch, which is full. */
  lemma {:induction false} SelectTakesTheOldest(rows: seq<Row>, txns: map<nat, Txn>, k: nat, limit: nat, i: nat)
    requires k <= i < |rows| && !rows[i].published && !Locked(txns, i) && i !in Select(rows, txns, k, limit)
    ensures var batch := Select(rows, txns, k, limit); |batch| == limit && forall m | m in batch :: m < i
    decreases i - k
  {
    if limit > 0 {
      var batch := Select(rows, txns, k, limit);
      if rows[k].published || Locked(txns, k) {
        SelectTakesTheOldest(rows, txns, k + 1, limit, i);
      } else {
        assert batch[0] == k;
        assert batch[1..] == Select(rows, txns, k + 1, limit - 1);
        SelectTakesTheOldest(rows, txns, k + 1, limit - 1, i);
      }
    }
  }

  lemma {:induction false} UpdatedSpec(rows: seq<Row>, batch: seq<nat>, results: seq<bool>)
    requires |results| <= |batch| && Increasing(batch) && forall k | 0 <= k < |batch| :: batch[k] < |rows|
    ensures forall k | 0 <= k < |results| :: Updated(rows, batch, results)[batch[k]]
              == if results[k] then rows[batch[k]].(published := true)
                 else rows[batch[k]].(retries := rows[batch[k]].retries + 1)
    ensures forall i | 0 <= i < |rows| && i !in batch[..|results|] :: Updated(rows, batch, results)[i] == rows[i]
  {
    if results != [] {
      var n := |results| - 1;
      UpdatedSpec(rows, batch, results[..n]);
      assert batch[..n + 1] == batch[..n] + [batch[n]];
      assert batch[n] !in batch[..n];
    }
  }

  lemma {:induction false} FailedSpec(batch: seq<nat>, results: seq<bool>)
    requires |results| <= |batch| && Increasing(batch)
    ensures forall i | i !in batch[..|results|] :: Occurs(FailedOf(batch, results), i) == 0
    ensures forall k | 0 <= k < |results| :: Occurs(FailedOf(batch, results), batch[k]) == if results[k] then 0 else 1
  {
    if results != [] {
      var n := |results| - 1;
      FailedSpec(batch, results[..n]);
      assert batch[..n + 1] == batch[..n] + [batch[n]];
      assert batch[n] !in batch[..n];
      var last := if results[n] then [] else [batch[n]];
      forall i
        ensures Occurs(FailedOf(batch, results), i)
             == Occurs(FailedOf(batch, results[..n]), i) + if !results[n] && i == batch[n] then 1 else 0
      {
        OccursAppend(FailedOf(batch, results[..n]), last, i);
        if last != [] { assert last[..0] == []; }
      }
    }
  }

  lemma {:induction false} OccursAppend(a: seq<nat>, b: seq<nat>, i: nat)
    ensures Occurs(a + b, i) == Occurs(a, i) + Occurs(b, i)
  {
    if b == [] {
      assert a + b == a;
    } else {
      OccursAppend(a, b[..|b| - 1], i);
      assert (a + b)[..|a + b| - 1] == a + b[..|b| - 1];
    }
  }

  lemma {:induction false} OccursIff(xs: seq<nat>, i: nat)
    ensures Occurs(xs, i) > 0 <==> i in xs
  {
    if xs != [] {
      OccursIff(xs[..|xs| - 1], i);
      assert xs == xs[..|xs| - 1] + [xs[|xs| - 1]];
    }
  }

  lemma NextKeepsSound(batchSize: nat, s: System, step: Step)
    requires Sound(s)
    ensures var s' := Next(batchSize, s, step);
      && Sound(s') && Grows(s, s')
  {
    match step
    case Insert => InsertKeepsSound(batchSize, s);
    case Begin(r) => BeginKeepsSound(batchSize, s, r);
    case Publish(r, o) => PublishKeepsSound(batchSize, s, r, o);
    case Commit(r) => CommitKeepsSound(batchSize, s, r);
    case Rollback(r) => RollbackKeepsSound(batchSize, s, r);
  }

  /** Rows and messages only come, and no row becomes pending again. */
  ghost predicate Grows(s: System, s': System) {
    && |s.rows| <= |s'.rows| && s.topic <= s'.topic && s.failures <= s'.failures
    && forall i | 0 <= i < |s.rows| && s.rows[i].published :: s'.rows[i].published
  }

  lemma InsertKeepsSound(batchSize: nat, s: System)
    requires Sound(s)
    ensures var s' := Next(batchSize, s, Insert); Sound(s') && Grows(s, s')
  {
    var s' := Next(batchSize, s, Insert);
    var n := |s.rows|;
    OccursIff(s.failures, n);
    forall i | 0 <= i < |s'.rows|
      ensures SoundRow(s', i)
    {
      if i < n { assert SoundRow(s, i); }
    }
    forall r | r in s'.txns
      ensures SoundTxn(s', s'.txns[r])
    {
      assert SoundTxn(s, s.txns[r]);
    }
  }

  lemma BeginKeepsSound(batchSize: nat, s: System, r: nat)
    requires Sound(s)
    ensures var s' := Next(batchSize, s, Begin(r)); Sound(s') && Grows(s, s')
  {
    var s' := Next(batchSize, s, Begin(r));
    SelectSpec(s.rows, s.txns, 0, batchSize);
    var batch := Select(s.rows, s.txns, 0, batchSize);
    assert forall k | 0 <= k < |batch| :: batch[k] in batch;
    forall q, i | q in s.txns && i in batch
      ensures i !in s.txns[q].batch
    {
      assert !Locked(s.txns, i);
    }
    SameRows(s, s');
    forall q | q in s'.txns
      ensures SoundTxn(s', s'.txns[q])
    {
      if q in s.txns { assert SoundTxn(s, s.txns[q]); }
    }
  }

  lemma SameRows(s: System, s': System)
    requires Sound(s) && s'.rows == s.rows && s'.failures == s.failures && s.topic <= s'.topic
    ensures forall i | 0 <= i < |s'.rows| :: SoundRow(s', i)
  {
    forall i | 0 <= i < |s'.rows|
      ensures SoundRow(s', i)
    {
      assert SoundRow(s, i);
    }
  }

  lemma PublishKeepsSound(batchSize: nat, s: System, r: nat, o: Outcome)
    requires Sound(s)
    ensures var s' := Next(batchSize, s, Publish(r, o)); Sound(s') && Grows(s, s')
  {
    var s' := Next(batchSize, s, Publish(r, o));
    SameRows(s, s');
    if r in s.txns { assert SoundTxn(s, s.txns[r]); }
    forall q | q in s'.txns
      ensures SoundTxn(s', s'.txns[q])
    {
      assert SoundTxn(s, s.txns[q]);
    }
  }

  lemma CommitKeepsSound(batchSize: nat, s: System, r: nat)
    requires Sound(s)
    ensures var s' := Next(batchSize, s, Commit(r)); Sound(s') && Grows(s, s')
  {
    var s' := Next(batchSize, s, Commit(r));
    if s' != s {
      var t := s.txns[r];
      assert SoundTxn(s, t);
      UpdatedSpec(s.rows, t.batch, t.results);
      FailedSpec(t.batch, t.results);
      assert t.batch[..|t.results|] == t.batch;
      forall i | 0 <= i < |s'.rows|
        ensures SoundRow(s', i) && (s.rows[i].published ==> s'.rows[i].published)
      {
        assert SoundRow(s, i);
        OccursAppend(s.failures, FailedOf(t.batch, t.results), i);
      }
      forall q | q in s'.txns
        ensures SoundTxn(s', s'.txns[q])
      {
        assert SoundTxn(s, s.txns[q]);
        assert forall k | 0 <= k < |s.txns[q].batch| :: s.txns[q].batch[k] in s.txns[q].batch;
      }
      forall i | i in s'.failures
        ensures i < |s'.rows|
      {
        OccursIff(FailedOf(t.batch, t.results), i);
      }
    }
  }

  lemma RollbackKeepsSound(batchSize: nat, s: System, r: nat)
    requires Sound(s)
    ensures var s' := Next(batchSize, s, Rollback(r)); Sound(s') && Grows(s, s')
  {
    var s' := Next(batchSize, s, Rollback(r));
    SameRows(s, s');
    forall q | q in s'.txns
      ensures SoundTxn(s', s'.txns[q])
    {
      assert SoundTxn(s, s.txns[q]);
    }
  }

  /** In every run of any number of relays, with crashes, failed publishes and rollbacks anywhere. */
  lemma {:induction false} AtLeastOnce(batchSize: nat, steps: seq<Step>)
    ensures Sound(Run(batchSize, EMPTY_SYSTEM, steps))
  {
    if steps != [] {
      AtLeastOnce(batchSize, steps[..|steps| - 1]);
      NextKeepsSound(batchSize, Run(batchSize, EMPTY_SYSTEM, steps[..|steps| - 1]), steps[|steps| - 1]);
    }
  }

  lemma RunOn(batchSize: nat, s: System, steps: seq<Step>, step: Step)
    ensures Run(batchSize, s, steps + [step]) == Next(batchSize, Run(batchSize, s, steps), step)
  {
    assert (steps + [step])[..|steps|] == steps;
  }

  // ----- one batch in one piece -----

  /** What happens in one publishPendingBatch: does the select succeed, how do the publishes and the
      updates of each row end, and the commit. */
  datatype Attempt = Attempt(selected: bool, publish: nat -> Outcome, updated: nat -> bool, commit: Outcome)

  /** The batch after n of its publishes. */
  function Published(s: System, r: nat, a: Attempt, n: nat): System {
    if n == 0 then s else
      var before := Published(s, r, a, n - 1);
      if r in s.txns && n - 1 < |s.txns[r].batch|
      then PublishStep(before, r, a.publish(s.txns[r].batch[n - 1])) else before
  }

  /** How many rows are dealt with: all of them, or up to the first whose update fails. */
  function Reached(batch: seq<nat>, a: Attempt, k: nat): (n: nat)
    requires k <= |batch|
    ensures k <= n <= |batch|
    decreases |batch| - k
  {
    if k == |batch| then k else if !a.updated(batch[k]) then k + 1 else Reached(batch, a, k + 1)
  }

  predicate AllUpdated(batch: seq<nat>, a: Attempt) { UpdatedFrom(batch, a, 0) }

  predicate UpdatedFrom(batch: seq<nat>, a: Attempt, k: nat)
    requires k <= |batch|
    decreases |batch| - k
  {
    k == |batch| || (a.updated(batch[k]) && UpdatedFrom(batch, a, k + 1))
  }

  /** publishPendingBatch of a relay with no open transaction, with nothing in between. */
  function Batch(batchSize: nat, s: System, r: nat, a: Attempt): System {
    if !a.selected then s else
      var s1 := BeginStep(batchSize, s, r);
      var batch := if r in s1.txns then s1.txns[r].batch else [];
      var s2 := Published(s1, r, a, Reached(batch, a, 0));
      if AllUpdated(batch, a) && a.commit != Refused then CommitStep(s2, r) else RollbackStep(s2, r)
  }

  /** A batch in one piece is a run of steps, so it keeps what every step keeps. */
  lemma BatchKeepsSound(batchSize: nat, s: System, r: nat, a: Attempt)
    requires Sound(s)
    ensures Sound(Batch(batchSize, s, r, a)) && s.topic <= Batch(batchSize, s, r, a).topic
  {
    if a.selected {
      var s1 := Next(batchSize, s, Begin(r));
      NextKeepsSound(batchSize, s, Begin(r));
      var batch := if r in s1.txns then s1.txns[r].batch else [];
      var n := Reached(batch, a, 0);
      PublishedKeepsSound(batchSize, s1, r, a, n);
      var s2 := Published(s1, r, a, n);
      NextKeepsSound(batchSize, s2, Commit(r));
      NextKeepsSound(batchSize, s2, Rollback(r));
    }
  }

  lemma {:induction false} PublishedKeepsSound(batchSize: nat, s: System, r: nat, a: Attempt, n: nat)
    requires Sound(s)
    ensures Sound(Published(s, r, a, n)) && s.topic <= Published(s, r, a, n).topic
  {
    if n > 0 {
      PublishedKeepsSound(batchSize, s, r, a, n - 1);
      if r in s.txns && n - 1 < |s.txns[r].batch| {
        NextKeepsSound(batchSize, Published(s, r, a, n - 1), Publish(r, a.publish(s.txns[r].batch[n - 1])));
      }
    }
  }

  /** The open transaction after n publishes. */
  lemma {:induction false} PublishedTxn(s: System, r: nat, a: Attempt, n: nat)
    requires r in s.txns && s.txns[r].results == [] && n <= |s.txns[r].batch|
    ensures var s' := Published(s, r, a, n);
      && s'.rows == s.rows && s'.failures == s.failures
      && s'.txns == s.txns[r := Txn(s.txns[r].batch, Results(s.txns[r].batch[..n], a))]
  {
    if n == 0 {
      assert s.txns[r] == Txn(s.txns[r].batch, []);
    } else {
      PublishedTxn(s, r, a, n - 1);
      assert s.txns[r].batch[..n][..n - 1] == s.txns[r].batch[..n - 1];
    }
  }

  lemma TopicGrows(s: System, r: nat, a: Attempt, n: nat)
    requires r in s.txns && s.txns[r].results == [] && 0 < n <= |s.txns[r].batch|
    ensures var i := s.txns[r].batch[n - 1];
      Published(s, r, a, n).topic
        == Published(s, r, a, n - 1).topic + if a.publish(i) == Refused then [] else [i]
  {
    PublishedTxn(s, r, a, n - 1);
  }

  /** Which rows are in the topic after n publishes. */
  lemma {:induction false} InTopic(s: System, r: nat, a: Attempt, n: nat, d: nat)
    requires r in s.txns && s.txns[r].results == [] && n <= |s.txns[r].batch|
    ensures d in Published(s, r, a, n).topic <==>
              d in s.topic || (d in s.txns[r].batch[..n] && a.publish(d) != Refused)
  {
    if n > 0 {
      var batch := s.txns[r].batch;
      InTopic(s, r, a, n - 1, d);
      TopicGrows(s, r, a, n);
      assert batch[..n] == batch[..n - 1] + [batch[n - 1]];
    }
  }

  /** One more publish: there is room for it in the transaction. */
  lemma PublishedOneMore(s: System, r: nat, a: Attempt, n: nat)
    requires r in s.txns && s.txns[r].results == [] && n < |s.txns[r].batch|
    ensures var s' := Published(s, r, a, n);
      && r in s'.txns && |s'.txns[r].results| < |s'.txns[r].batch|
      && Published(s, r, a, n + 1) == PublishStep(s', r, a.publish(s.txns[r].batch[n]))
  {
    PublishedTxn(s, r, a, n);
  }

  lemma CountOneMore(batch: seq<nat>, a: Attempt, i: nat)
    requires i < |batch|
    ensures CountDone(batch[..i + 1], a) == CountDone(batch[..i], a) + if a.publish(batch[i]) == Done then 1 else 0
  {
    assert batch[..i + 1][..i] == batch[..i];
  }

  lemma {:induction false} ReachedSo(batch: seq<nat>, a: Attempt, k: nat)
    requires k <= |batch|
    ensures UpdatedFrom(batch, a, k) <==> forall i | k <= i < |batch| :: a.updated(batch[i])
    ensures var n := Reached(batch, a, k);
      && (UpdatedFrom(batch, a, k) ==> n == |batch|)
      && (!UpdatedFrom(batch, a, k) ==>
            n > k && !a.updated(batch[n - 1]) && forall i | k <= i < n - 1 :: a.updated(batch[i]))
    decreases |batch| - k
  {
    if k < |batch| { ReachedSo(batch, a, k + 1); }
  }

  /** A row that is reached by an attempt at this batch: no update of a row before it fails. */
  ghost predicate Reaches(batch: seq<nat>, a: Attempt, i: nat) {
    exists k :: 0 <= k < |batch| && batch[k] == i && forall j | 0 <= j < k :: a.updated(batch[j])
  }

  lemma ReachedRows(batch: seq<nat>, a: Attempt, i: nat)
    ensures i in batch[..Reached(batch, a, 0)] <==> Reaches(batch, a, i)
  {
    var n := Reached(batch, a, 0);
    ReachedSo(batch, a, 0);
    if i in batch[..n] {
      var k :| 0 <= k < n && batch[..n][k] == i;
      assert batch[k] == i;
    }
    if Reaches(batch, a, i) {
      var k :| 0 <= k < |batch| && batch[k] == i && forall j | 0 <= j < k :: a.updated(batch[j]);
      assert batch[..n][k] == i;
    }
  }

  lemma {:induction false} ResultsAre(batch: seq<nat>, a: Attempt)
    ensures forall k | 0 <= k < |batch| :: Results(batch, a)[k] <==> a.publish(batch[k]) == Done
  {
    if batch != [] { ResultsAre(batch[..|batch| - 1], a); }
  }

  /** What a whole batch does. Exactly the rows that are reached and whose publish takes effect are new in
      the topic, whether or not the transaction commits; if it does, which takes that every update succeeds,
      the rows whose publish is reported as done are marked and the others have one retry more. */
  lemma BatchOnTables(batchSize: nat, s: System, r: nat, a: Attempt)
    requires Sound(s) && r !in s.txns && a.selected
    ensures var batch, s' := Select(s.rows, s.txns, 0, batchSize), Batch(batchSize, s, r, a);
      var commits := (forall i | i in batch :: a.updated(i)) && a.commit != Refused;
      && s'.txns == s.txns && |s'.rows| == |s.rows|
      && (forall i: nat :: i in s'.topic <==> i in s.topic || (Reaches(batch, a, i) && a.publish(i) != Refused))
      && forall i | 0 <= i < |s.rows| :: s'.rows[i] == if commits then Marked(s.rows[i], batch, a, i) else s.rows[i]
  {
    var batch := Select(s.rows, s.txns, 0, batchSize);
    var s2 := Published(BeginStep(batchSize, s, r), r, a, Reached(batch, a, 0));
    SelectSpec(s.rows, s.txns, 0, batchSize);
    BatchTopic(batchSize, s, r, a);
    BatchEnds(s, s2, r, batch, a);
  }

  lemma BatchTopic(batchSize: nat, s: System, r: nat, a: Attempt)
    requires r !in s.txns
    ensures var batch := Select(s.rows, s.txns, 0, batchSize);
      var n := Reached(batch, a, 0);
      var s2 := Published(BeginStep(batchSize, s, r), r, a, n);
      && s2.rows == s.rows && s2.txns == s.txns[r := Txn(batch, Results(batch[..n], a))]
      && forall i: nat :: i in s2.topic <==> i in s.topic || (Reaches(batch, a, i) && a.publish(i) != Refused)
  {
    var batch, s1 := Select(s.rows, s.txns, 0, batchSize), BeginStep(batchSize, s, r);
    var n := Reached(batch, a, 0);
    PublishedTxn(s1, r, a, n);
    assert s1.txns[r := Txn(batch, Results(batch[..n], a))] == s.txns[r := Txn(batch, Results(batch[..n], a))];
    forall i: nat
      ensures i in Published(s1, r, a, n).topic <==> i in s.topic || (Reaches(batch, a, i) && a.publish(i) != Refused)
    {
      InTopic(s1, r, a, n, i);
      ReachedRows(batch, a, i);
    }
  }

  lemma BatchEnds(s: System, s2: System, r: nat, batch: seq<nat>, a: Attempt)
    requires r !in s.txns && s2.rows == s.rows && Increasing(batch) && forall i | i in batch :: i < |s.rows|
    requires s2.txns == s.txns[r := Txn(batch, Results(batch[..Reached(batch, a, 0)], a))]
    ensures RollbackStep(s2, r).rows == s.rows && RollbackStep(s2, r).topic == s2.topic
    ensures RollbackStep(s2, r).txns == s.txns
    ensures AllUpdated(batch, a) <==> forall i | i in batch :: a.updated(i)
    ensures AllUpdated(batch, a) ==> var s' := CommitStep(s2, r);
      && s'.txns == s.txns && s'.topic == s2.topic && |s'.rows| == |s.rows|
      && forall i | 0 <= i < |s.rows| :: s'.rows[i] == Marked(s.rows[i], batch, a, i)
  {
    assert s2.txns - {r} == s.txns;
    ReachedSo(batch, a, 0);
    assert forall k | 0 <= k < |batch| :: batch[k] in batch;
    if AllUpdated(batch, a) {
      assert batch[..|batch|] == batch;
      CommitIs(s2, r, batch, Results(batch, a));
      forall i | 0 <= i < |s.rows|
        ensures Updated(s.rows, batch, Results(batch, a))[i] == Marked(s.rows[i], batch, a, i)
      {
        MarkedRow(s.rows, batch, a, i);
      }
    }
  }

  lemma CommitIs(s: System, r: nat, batch: seq<nat>, results: seq<bool>)
    requires r in s.txns && s.txns[r] == Txn(batch, results) && |results| == |batch|
    requires forall k | 0 <= k < |batch| :: batch[k] < |s.rows|
    ensures var s' := CommitStep(s, r);
      s'.rows == Updated(s.rows, batch, results) && s'.topic == s.topic && s'.txns == s.txns - {r}
  {}

  /** What a committed transaction makes of row i. */
  function Marked(row: Row, batch: seq<nat>, a: Attempt, i: nat): Row {
    if i !in batch then row
    else if a.publish(i) == Done then row.(published := true)
    else row.(retries := row.retries + 1)
  }

  lemma MarkedRow(rows: seq<Row>, batch: seq<nat>, a: Attempt, i: nat)
    requires Increasing(batch) && i < |rows| && forall k | 0 <= k < |batch| :: batch[k] < |rows|
    ensures Updated(rows, batch, Results(batch, a))[i] == Marked(rows[i], batch, a, i)
  {
    var results := Results(batch, a);
    UpdatedSpec(rows, batch, results);
    if i in batch {
      var k :| 0 <= k < |batch| && batch[k] == i;
      ResultsAre(batch, a);
      assert results[k] <==> a.publish(i) == Done;
      assert Updated(rows, batch, results)[batch[k]] == Marked(rows[i], batch, a, i);
    } else {
      assert i !in batch[..|results|];
    }
  }

  /** Which of these publishes succeed. */
  function Results(batch: seq<nat>, a: Attempt): (rs: seq<bool>)
    ensures |rs| == |batch|
  {
    if batch == [] then [] else Results(batch[..|batch| - 1], a) + [a.publish(batch[|batch| - 1]) == Done]
  }

  /** The steps of relay r in an attempt: its publishes end as the attempt says. */
  ghost predicate Own(r: nat, a: Attempt, step: Step) {
    step in {Begin(r), Commit(r), Rollback(r)} || exists i: nat :: step == Publish(r, a.publish(i))
  }

  lemma {:induction false} PublishedIsARun(batchSize: nat, s: System, r: nat, a: Attempt, n: nat) returns (steps: seq<Step>)
    ensures Run(batchSize, s, steps) == Published(s, r, a, n)
    ensures forall k | 0 <= k < |steps| :: Own(r, a, steps[k])
  {
    steps := [];
    if n > 0 {
      steps := PublishedIsARun(batchSize, s, r, a, n - 1);
      if r in s.txns && n - 1 < |s.txns[r].batch| {
        RunOn(batchSize, s, steps, Publish(r, a.publish(s.txns[r].batch[n - 1])));
        steps := steps + [Publish(r, a.publish(s.txns[r].batch[n - 1]))];
      }
    }
  }

  lemma {:induction false} RunAppend(batchSize: nat, s: System, a: seq<Step>, b: seq<Step>)
    ensures Run(batchSize, s, a + b) == Run(batchSize, Run(batchSize, s, a), b)
  {
    if b == [] {
      assert a + b == a;
    } else {
      RunAppend(batchSize, s, a, b[..|b| - 1]);
      assert (a + b)[..|a + b| - 1] == a + b[..|b| - 1];
    }
  }

  /** A batch in one piece is a run of the relay's own steps. */
  lemma BatchIsARun(batchSize: nat, s: System, r: nat, a: Attempt) returns (steps: seq<Step>)
    ensures Run(batchSize, s, steps) == Batch(batchSize, s, r, a)
    ensures forall k | 0 <= k < |steps| :: Own(r, a, steps[k])
  {
    steps := [];
    if a.selected {
      var s1 := BeginStep(batchSize, s, r);
      var batch := if r in s1.txns then s1.txns[r].batch else [];
      var middle := PublishedIsARun(batchSize, s1, r, a, Reached(batch, a, 0));
      var last := if AllUpdated(batch, a) && a.commit != Refused then Commit(r) else Rollback(r);
      RunOn(batchSize, s, [], Begin(r));
      RunAppend(batchSize, s, [Begin(r)], middle);
      RunOn(batchSize, s, [Begin(r)] + middle, last);
      steps := [Begin(r)] + middle + [last];
      assert [] + [Begin(r)] == [Begin(r)];
    }
  }

  // ----- the source's own form -----

  /** The outbox table as the relays share it, with the topic behind the publisher. */
  class Outbox {
    var rows: seq<Row>
    var topic: seq<nat>
    var txns: map<nat, Txn>
    var failures: seq<nat>

    constructor ()
      ensures State() == EMPTY_SYSTEM
    {
      rows, topic, txns, failures := [], [], map[], [];
    }

    function State(): System
      reads this
    {
      System(rows, topic, txns, failures)
    }
  }

  class OutboxRelay {
    const outbox: Outbox
    const batchSize: nat
    const name: nat

    constructor (outbox: Outbox, batchSize: int, name: nat)
      ensures this.outbox == outbox && this.name == name
      ensures this.batchSize == if batchSize <= 0 then 100 else batchSize
    {
      this.outbox := outbox;
      this.batchSize := if batchSize <= 0 then 100 else batchSize;
      this.name := name;
    }

    /** lockPendingEvents, as the first thing in a transaction. */
    method LockPendingEvents() returns (batch: seq<nat>)
      requires name !in outbox.txns
      modifies outbox
      ensures outbox.State() == BeginStep(batchSize, old(outbox.State()), name)
      ensures name in outbox.txns && batch == outbox.txns[name].batch
    {
      batch := Select(outbox.rows, outbox.txns, 0, batchSize);
      outbox.txns := outbox.txns[name := Txn(batch, [])];
    }

    /** The next row of the batch: published, and then marked or its retry counted. */
    method PublishNext(outcome: Outcome)
      requires name in outbox.txns && |outbox.txns[name].results| < |outbox.txns[name].batch|
      modifies outbox
      ensures outbox.State() == PublishStep(old(outbox.State()), name, outcome)
    {
      var t := outbox.txns[name];
      if outcome != Refused { outbox.topic := outbox.topic + [t.batch[|t.results|]]; }
      outbox.txns := outbox.txns[name := t.(results := t.results + [outcome == Done])];
    }

    method CommitTxn()
      requires Sound(outbox.State())
      requires name in outbox.txns && |outbox.txns[name].results| == |outbox.txns[name].batch|
      modifies outbox
      ensures outbox.State() == CommitStep(old(outbox.State()), name)
    {
      var t := outbox.txns[name];
      assert SoundTxn(outbox.State(), t);
      outbox.rows, outbox.failures :=
        Updated(outbox.rows, t.batch, t.results), outbox.failures + FailedOf(t.batch, t.results);
      outbox.txns := outbox.txns - {name};
    }

    method RollbackTxn()
      modifies outbox
      ensures outbox.State() == RollbackStep(old(outbox.State()), name)
    {
      outbox.txns := outbox.txns - {name};
    }

    /** The loop over the locked rows, up to the first whose update fails. */
    method PublishAll(batch: seq<nat>, a: Attempt) returns (publishedCount: nat, updated: bool)
      requires name in outbox.txns && outbox.txns[name] == Txn(batch, [])
      modifies outbox
      ensures outbox.State() == Published(old(outbox.State()), name, a, Reached(batch, a, 0))
      ensures updated <==> AllUpdated(batch, a)
      ensures updated ==> publishedCount == CountDone(batch, a) && Reached(batch, a, 0) == |batch|
    {
      ghost var s := outbox.State();
      publishedCount := 0;
      for i := 0 to |batch|
        invariant outbox.State() == Published(s, name, a, i)
        invariant AllUpdated(batch, a) == UpdatedFrom(batch, a, i)
        invariant Reached(batch, a, 0) == Reached(batch, a, i)
        invariant publishedCount == CountDone(batch[..i], a)
      {
        PublishedOneMore(s, name, a, i);
        PublishNext(a.publish(batch[i]));
        if !a.updated(batch[i]) { return publishedCount, false; }
        CountOneMore(batch, a, i);
        if a.publish(batch[i]) == Done { publishedCount := publishedCount + 1; }
      }
      assert batch[..|batch|] == batch;
      updated := true;
    }

    /** Locks a batch, publishes its rows one by one, and commits; any error of the database rolls
        the transaction back, and then nothing counts as published. */
    method PublishPendingBatch(a: Attempt) returns (publishedCount: nat, failed: bool)
      requires name !in outbox.txns && Sound(outbox.State())
      modifies outbox
      ensures outbox.State() == Batch(batchSize, old(outbox.State()), name, a)
      ensures var batch := Select(old(outbox.rows), old(outbox.txns), 0, batchSize);
        && (failed <==> !a.selected || a.commit != Done || !AllUpdated(batch, a))
        && publishedCount == if failed then 0 else CountDone(batch, a)
    {
      if !a.selected { return 0, true; }
      NextKeepsSound(batchSize, outbox.State(), Begin(name));
      var batch := LockPendingEvents();
      ghost var s1 := outbox.State();
      var updated;
      publishedCount, updated := PublishAll(batch, a);
      if !updated || a.commit == Refused {
        RollbackTxn();
        return 0, true;
      }
      PublishedTxn(s1, name, a, |batch|);
      PublishedKeepsSound(batchSize, s1, name, a, |batch|);
      CommitTxn();
      failed := a.commit == Lost;
      if failed { publishedCount := 0; }
    }
  }

  function CountDone(batch: seq<nat>, a: Attempt): nat {
    if batch == [] then 0 else
      CountDone(batch[..|batch| - 1], a) + if a.publish(batch[|batch| - 1]) == Done then 1 else 0
  }

  /** The rows of the batch whose publish is reported as done. */
  function DoneIn(batch: seq<nat>, a: Attempt): set<nat> { set i | i in batch && a.publish(i) == Done }

  /** The count is their number. */
  lemma {:induction false} CountDoneCounts(batch: seq<nat>, a: Attempt)
    requires Increasing(batch)
    ensures CountDone(batch, a) == |DoneIn(batch, a)|
  {
    if batch != [] {
      var n := |batch| - 1;
      CountDoneCounts(batch[..n], a);
      DoneInOneMore(batch, a);
    }
  }

  lemma DoneInOneMore(batch: seq<nat>, a: Attempt)
    requires Increasing(batch) && batch != []
    ensures var n := |batch| - 1;
      |DoneIn(batch, a)| == |DoneIn(batch[..n], a)| + if a.publish(batch[n]) == Done then 1 else 0
  {
    var n := |batch| - 1;
    assert batch == batch[..n] + [batch[n]];
    assert batch[n] !in batch[..n];
    if a.publish(batch[n]) == Done {
      assert DoneIn(batch, a) == DoneIn(batch[..n], a) + {batch[n]};
    } else {
      assert DoneIn(batch, a) == DoneIn(batch[..n], a);
    }
  }
}
