// How far one relay gets: which rows it publishes in the end, how soon, and when it starves.
// A row that cannot be published stays at the head of the queue and takes up a place in every
// batch from then on.
module RelayProgress {
  import opened Arithmetic
  import opened Faults
  import opened Relay

  /** What happens around the only relay: a row comes in, a batch is tried, or other transactions than
      the relay's own are open from now on on these rows. Such a row is skipped: it is locked, or the
      transaction that inserts it has not committed. Rows stand in the order of created_at, the start of
      that transaction, so one that comes in is the youngest, and may be invisible for a while. */
  datatype Round = Arrive | Try(attempt: Attempt) | Others(txns: map<nat, Txn>)

  function PlayOne(batchSize: nat, s: System, r: Round): System {
    match r
    case Arrive => Next(batchSize, s, Insert)
    case Try(a) => Batch(batchSize, s, 0, a)
    case Others(txns) => s.(txns := txns)
  }

  function Play(batchSize: nat, s: System, rounds: seq<Round>): System {
    if rounds == [] then s
    else PlayOne(batchSize, Play(batchSize, s, rounds[..|rounds| - 1]), rounds[|rounds| - 1])
  }

  /** The publisher accepts exactly the rows that are not bad, whenever it is asked, and the relay has
      transactions only in its batches. */
  ghost predicate Fits(bad: nat -> bool, r: Round) {
    && (r.Try? ==> forall i :: r.attempt.publish(i) == Done <==> !bad(i))
    && (r.Others? ==> 0 !in r.txns)
  }

  /** Row i is not skipped at any time. */
  predicate Visible(s: System, rounds: seq<Round>, i: nat) {
    !Locked(s.txns, i) && forall k | 0 <= k < |rounds| && rounds[k].Others? :: !Locked(rounds[k].txns, i)
  }

  predicate Alone(rounds: seq<Round>) { forall k | 0 <= k < |rounds| :: !rounds[k].Others? }

  /** A batch in which the database does its part. */
  ghost predicate Clean(r: Round) {
    r.Try? && r.attempt.selected && r.attempt.commit != Refused && forall i :: r.attempt.updated(i)
  }

  ghost function CleanOnes(rounds: seq<Round>): nat {
    if rounds == [] then 0 else
      CleanOnes(rounds[..|rounds| - 1]) + if Clean(rounds[|rounds| - 1]) then 1 else 0
  }

  /** How many rows from k on and before `end` are pending and bad, or pending and not bad. */
  function Pending(rows: seq<Row>, bad: nat -> bool, which: bool, k: nat, end: nat): nat
    requires end <= |rows|
    decreases end - k
  {
    if k >= end then 0 else
      Pending(rows, bad, which, k + 1, end) + if !rows[k].published && bad(k) == which then 1 else 0
  }

  function Bad(s: System, bad: nat -> bool, i: nat): nat
    requires i <= |s.rows|
  {
    Pending(s.rows, bad, true, 0, i)
  }

  function Publishable(s: System, bad: nat -> bool, i: nat): nat
    requires i <= |s.rows|
  {
    Pending(s.rows, bad, false, 0, i)
  }

  // ----- one batch -----

  /** With nobody else about, a batch holds exactly the pending rows with fewer than `limit`
      pending rows before them. */
  lemma {:induction false} SelectsTheOldest(rows: seq<Row>, bad: nat -> bool, k: nat, limit: nat, i: nat)
    requires k <= i < |rows| && !rows[i].published
    ensures i in Select(rows, map[], k, limit)
       <==> Pending(rows, bad, true, k, i) + Pending(rows, bad, false, k, i) < limit
    decreases i - k
  {
    if limit > 0 {
      if k == i {
        assert Select(rows, map[], k, limit)[0] == i;
      } else if rows[k].published {
        SelectsTheOldest(rows, bad, k + 1, limit, i);
      } else {
        SelectsTheOldest(rows, bad, k + 1, limit - 1, i);
        assert Select(rows, map[], k, limit) == [k] + Select(rows, map[], k + 1, limit - 1);
      }
    }
  }

  /** after is what a committed batch makes of rows, from row k on. */
  ghost predicate Swept(rows: seq<Row>, after: seq<Row>, bad: nat -> bool, batch: seq<nat>, k: nat) {
    && |after| == |rows|
    && forall j | k <= j < |rows| :: after[j].published <==> rows[j].published || (j in batch && !bad(j))
  }

  lemma {:induction false} UnchangedCounts(rows: seq<Row>, after: seq<Row>, bad: nat -> bool, which: bool, k: nat, end: nat)
    requires end <= |rows| && end <= |after|
    requires forall j | k <= j < end && bad(j) == which :: after[j].published == rows[j].published
    ensures Pending(after, bad, which, k, end) == Pending(rows, bad, which, k, end)
    decreases end - k
  {
    if k < end { UnchangedCounts(rows, after, bad, which, k + 1, end); }
  }

  /** A batch that is full before it comes to row `end` publishes all the rows it holds but the bad. */
  lemma {:induction false} FullBatch(rows: seq<Row>, txns: map<nat, Txn>, after: seq<Row>, bad: nat -> bool,
                                     k: nat, limit: nat, end: nat)
    requires k <= end <= |rows| && Swept(rows, after, bad, Select(rows, txns, k, limit), k)
    requires |Select(rows, txns, k, limit)| == limit && forall m | m in Select(rows, txns, k, limit) :: m < end
    ensures Pending(after, bad, false, k, end) + limit
         <= Pending(rows, bad, true, k, end) + Pending(rows, bad, false, k, end)
    decreases end - k
  {
    SelectSpec(rows, txns, k, limit);
    assert limit > 0 ==> Select(rows, txns, k, limit)[0] in Select(rows, txns, k, limit);
    if limit == 0 {
      UnchangedCounts(rows, after, bad, false, k, end);
    } else if k == end {
      assert false;
    } else if rows[k].published || Locked(txns, k) {
      SelectSpec(rows, txns, k + 1, limit);
      FullBatch(rows, txns, after, bad, k + 1, limit, end);
    } else {
      var rest := Select(rows, txns, k + 1, limit - 1);
      SelectSpec(rows, txns, k + 1, limit - 1);
      SweptBehind(rows, after, bad, rest, k);
      assert forall m | m in rest :: m in [k] + rest;
      FullBatch(rows, txns, after, bad, k + 1, limit - 1, end);
    }
  }

  lemma SweptBehind(rows: seq<Row>, after: seq<Row>, bad: nat -> bool, rest: seq<nat>, k: nat)
    requires Swept(rows, after, bad, [k] + rest, k)
    ensures Swept(rows, after, bad, rest, k + 1)
  {
    assert forall j: nat | j > k :: j in [k] + rest <==> j in rest;
  }

  lemma {:induction false} AllAreUpdated(batch: seq<nat>, a: Attempt, k: nat)
    requires k <= |batch| && forall i :: a.updated(i)
    ensures UpdatedFrom(batch, a, k)
    decreases |batch| - k
  {
    if k < |batch| { AllAreUpdated(batch, a, k + 1); }
  }

  lemma {:induction false} ReachesAll(batch: seq<nat>, a: Attempt, k: nat)
    requires k <= |batch| && UpdatedFrom(batch, a, k)
    ensures Reached(batch, a, k) == |batch|
    decreases |batch| - k
  {
    if k < |batch| { ReachesAll(batch, a, k + 1); }
  }

  /** What one try does to the table: nothing, or a sweep; and a clean one always sweeps. */
  lemma TryEffect(batchSize: nat, s: System, bad: nat -> bool, a: Attempt)
    requires 0 !in s.txns && Fits(bad, Try(a))
    ensures var s' := Batch(batchSize, s, 0, a);
      && s'.txns == s.txns
      && (s'.rows == s.rows || Swept(s.rows, s'.rows, bad, Select(s.rows, s.txns, 0, batchSize), 0))
      && (Clean(Try(a)) ==> Swept(s.rows, s'.rows, bad, Select(s.rows, s.txns, 0, batchSize), 0))
  {
    if a.selected {
      var batch := Select(s.rows, s.txns, 0, batchSize);
      SelectSpec(s.rows, s.txns, 0, batchSize);
      Sweep(s.rows, bad, batch, a);
      if Clean(Try(a)) { AllAreUpdated(batch, a, 0); }
      BatchRows(batchSize, s, a);
    }
  }

  /** A batch in one piece, by its end: committed or rolled back. */
  lemma BatchRows(batchSize: nat, s: System, a: Attempt)
    requires 0 !in s.txns && a.selected
    ensures var s' := Batch(batchSize, s, 0, a);
      var batch := Select(s.rows, s.txns, 0, batchSize);
      && (forall k | 0 <= k < |batch| :: batch[k] < |s.rows|)
      && s'.txns == s.txns
      && s'.rows == if AllUpdated(batch, a) && a.commit != Refused then Updated(s.rows, batch, Results(batch, a)) else s.rows
  {
    var batch := Select(s.rows, s.txns, 0, batchSize);
    var n := Reached(batch, a, 0);
    SelectSpec(s.rows, s.txns, 0, batchSize);
    assert forall k | 0 <= k < |batch| :: batch[k] in batch;
    var s2 := BatchWork(batchSize, s, a, batch, n);
    BatchEnds(s.rows, s.txns, s2, batch, Results(batch[..n], a));
    if AllUpdated(batch, a) {
      ReachesAll(batch, a, 0);
      assert batch[..n] == batch;
    }
  }

  lemma BatchWork(batchSize: nat, s: System, a: Attempt, batch: seq<nat>, n: nat) returns (s2: System)
    requires 0 !in s.txns && a.selected
    requires batch == Select(s.rows, s.txns, 0, batchSize) && n == Reached(batch, a, 0)
    ensures s2.rows == s.rows && s2.txns == s.txns[0 := Txn(batch, Results(batch[..n], a))]
    ensures Batch(batchSize, s, 0, a)
         == if AllUpdated(batch, a) && a.commit != Refused then CommitStep(s2, 0) else RollbackStep(s2, 0)
  {
    var s1 := s.(txns := s.txns[0 := Txn(batch, [])]);
    assert BeginStep(batchSize, s, 0) == s1;
    s2 := Published(s1, 0, a, n);
    PublishedTxn(s1, 0, a, n);
  }

  lemma BatchEnds(rows: seq<Row>, txns: map<nat, Txn>, s: System, batch: seq<nat>, results: seq<bool>)
    requires s.rows == rows && 0 !in txns && s.txns == txns[0 := Txn(batch, results)] && |results| <= |batch|
    requires forall k | 0 <= k < |batch| :: batch[k] < |rows|
    ensures RollbackStep(s, 0).rows == rows && RollbackStep(s, 0).txns == txns
    ensures |results| == |batch| ==>
      CommitStep(s, 0).rows == Updated(rows, batch, results) && CommitStep(s, 0).txns == txns
  {
    assert s.txns - {0} == txns;
  }

  lemma Sweep(rows: seq<Row>, bad: nat -> bool, batch: seq<nat>, a: Attempt)
    requires Increasing(batch) && forall i | i in batch :: i < |rows| && !rows[i].published
    requires Fits(bad, Try(a))
    ensures forall k | 0 <= k < |batch| :: batch[k] in batch
    ensures Swept(rows, Updated(rows, batch, Results(batch, a)), bad, batch, 0)
  {
    assert forall k | 0 <= k < |batch| :: batch[k] in batch;
    var after := Updated(rows, batch, Results(batch, a));
    forall j | 0 <= j < |rows|
      ensures after[j].published <==> rows[j].published || (j in batch && !bad(j))
    {
      SweptRow(rows, batch, a, j);
      assert a.publish(j) == Done <==> !bad(j);
    }
  }

  lemma SweptRow(rows: seq<Row>, batch: seq<nat>, a: Attempt, j: nat)
    requires Increasing(batch) && j < |rows| && forall k | 0 <= k < |batch| :: batch[k] < |rows|
    ensures var after := Updated(rows, batch, Results(batch, a));
      after[j].published <==> rows[j].published || (j in batch && a.publish(j) == Done)
  {
    UpdatedSpec(rows, batch, Results(batch, a));
    assert batch[..|Results(batch, a)|] == batch;
    if j in batch {
      var k :| 0 <= k < |batch| && batch[k] == j;
      ResultsAre(batch, a);
    }
  }

  // ----- any number of rounds -----

  /** After n clean batches: row i is published, or each of them has brought it batchSize - b publishable
      rows nearer to the head, b being the bad rows before it. */
  ghost predicate Nearer(batchSize: nat, s: System, s': System, n: nat, bad: nat -> bool, i: nat)
    requires i < |s.rows|
  {
    && 0 !in s'.txns && !Locked(s'.txns, i) && i < |s'.rows| && Bad(s', bad, i) == Bad(s, bad, i)
    && (s'.rows[i].published ||
        Publishable(s', bad, i) + n * (batchSize - Bad(s, bad, i)) <= Publishable(s, bad, i))
  }

  /** Progress, with fewer than batchSize bad rows before a row that is not bad. */
  lemma {:induction false} Progress(batchSize: nat, s: System, rounds: seq<Round>, bad: nat -> bool, i: nat)
    requires 0 !in s.txns && i < |s.rows| && !bad(i) && Bad(s, bad, i) < batchSize
    requires Visible(s, rounds, i) && forall k | 0 <= k < |rounds| :: Fits(bad, rounds[k])
    ensures Nearer(batchSize, s, Play(batchSize, s, rounds), CleanOnes(rounds), bad, i)
  {
    if rounds != [] {
      var n := |rounds| - 1;
      Progress(batchSize, s, rounds[..n], bad, i);
      OneRoundNearer(batchSize, s, Play(batchSize, s, rounds[..n]), CleanOnes(rounds[..n]), rounds[n], bad, i);
      LastRound(batchSize, s, rounds);
    }
  }

  lemma LastRound(batchSize: nat, s: System, rounds: seq<Round>)
    requires rounds != []
    ensures var n := |rounds| - 1;
      && Play(batchSize, s, rounds) == PlayOne(batchSize, Play(batchSize, s, rounds[..n]), rounds[n])
      && CleanOnes(rounds) == CleanOnes(rounds[..n]) + if Clean(rounds[n]) then 1 else 0
  {}

  lemma OneRoundNearer(batchSize: nat, s: System, before: System, n: nat, r: Round, bad: nat -> bool, i: nat)
    requires i < |s.rows| && !bad(i) && Bad(s, bad, i) < batchSize && Fits(bad, r)
    requires r.Others? ==> !Locked(r.txns, i)
    requires Nearer(batchSize, s, before, n, bad, i)
    ensures Nearer(batchSize, s, PlayOne(batchSize, before, r), n + if Clean(r) then 1 else 0, bad, i)
  {
    RoundMakesProgress(batchSize, before, r, bad, i);
    var after := PlayOne(batchSize, before, r);
    if !after.rows[i].published {
      Closer(Publishable(s, bad, i), Publishable(before, bad, i), Publishable(after, bad, i),
             n, batchSize - Bad(s, bad, i), Clean(r));
    }
  }

  lemma Closer(first: nat, before: nat, after: nat, n: nat, step: nat, clean: bool)
    requires before + n * step <= first && after <= before && (clean ==> after + step <= before)
    ensures after + (n + if clean then 1 else 0) * step <= first
  {
    OneMoreTimes(n + 1, step);
  }

  lemma RoundMakesProgress(batchSize: nat, s: System, r: Round, bad: nat -> bool, i: nat)
    requires 0 !in s.txns && !Locked(s.txns, i) && i < |s.rows| && !bad(i) && Fits(bad, r)
    requires r.Others? ==> !Locked(r.txns, i)
    ensures var s' := PlayOne(batchSize, s, r);
      && 0 !in s'.txns && !Locked(s'.txns, i) && i < |s'.rows| && Bad(s', bad, i) == Bad(s, bad, i)
      && (s.rows[i].published ==> s'.rows[i].published)
      && Publishable(s', bad, i) <= Publishable(s, bad, i)
      && (Clean(r) ==> s'.rows[i].published
                       || Publishable(s', bad, i) + batchSize <= Publishable(s, bad, i) + Bad(s, bad, i))
  {
    var s' := PlayOne(batchSize, s, r);
    match r
    case Arrive =>
      UnchangedCounts(s.rows, s'.rows, bad, true, 0, i);
      UnchangedCounts(s.rows, s'.rows, bad, false, 0, i);
    case Try(a) =>
      TryEffect(batchSize, s, bad, a);
      if s'.rows != s.rows || Clean(r) {
        SweepMakesProgress(batchSize, s.rows, s.txns, s'.rows, bad, i);
      }
    case Others(_) =>
  }

  lemma SweepMakesProgress(batchSize: nat, rows: seq<Row>, txns: map<nat, Txn>, after: seq<Row>, bad: nat -> bool, i: nat)
    requires i < |rows| && !Locked(txns, i) && !bad(i)
    requires Swept(rows, after, bad, Select(rows, txns, 0, batchSize), 0)
    ensures Pending(after, bad, true, 0, i) == Pending(rows, bad, true, 0, i)
    ensures Pending(after, bad, false, 0, i) <= Pending(rows, bad, false, 0, i)
    ensures after[i].published
         || Pending(after, bad, false, 0, i) + batchSize
            <= Pending(rows, bad, false, 0, i) + Pending(rows, bad, true, 0, i)
  {
    UnchangedCounts(rows, after, bad, true, 0, i);
    FewerPending(rows, after, bad, 0, i);
    if !after[i].published {
      SelectTakesTheOldest(rows, txns, 0, batchSize, i);
      FullBatch(rows, txns, after, bad, 0, batchSize, i);
    }
  }

  lemma {:induction false} FewerPending(rows: seq<Row>, after: seq<Row>, bad: nat -> bool, k: nat, end: nat)
    requires end <= |rows| <= |after| && forall j | k <= j < end && rows[j].published :: after[j].published
    ensures Pending(after, bad, false, k, end) <= Pending(rows, bad, false, k, end)
    decreases end - k
  {
    if k < end { FewerPending(rows, after, bad, k + 1, end); }
  }

  /** Non-starvation with its bound: row i, which is not bad, is visible and has g publishable rows
      (itself among them) and b bad ones, b < batchSize, up to it, is published within any n clean
      batches with n * (batchSize - b) >= g, whatever arrives, however many other batches fail, and
      whichever of the other rows become visible or are skipped at any time; those that are not visible
      yet are among the g and the b. */
  lemma NonStarvation(batchSize: nat, s: System, rounds: seq<Round>, bad: nat -> bool, i: nat)
    requires 0 !in s.txns && i < |s.rows| && !bad(i) && Bad(s, bad, i) < batchSize
    requires Visible(s, rounds, i) && forall k | 0 <= k < |rounds| :: Fits(bad, rounds[k])
    requires CleanOnes(rounds) * (batchSize - Bad(s, bad, i)) > Publishable(s, bad, i)
    ensures i < |Play(batchSize, s, rounds).rows| && Play(batchSize, s, rounds).rows[i].published
  {
    Progress(batchSize, s, rounds, bad, i);
  }

  /** With k bad rows and g publishable ones in all, everything that can be published and is visible has
      been after the g / (batchSize - k) clean batches, rounded up. */
  lemma AllArePublished(batchSize: nat, s: System, rounds: seq<Round>, bad: nat -> bool)
    requires 0 !in s.txns && Bad(s, bad, |s.rows|) < batchSize
    requires forall k | 0 <= k < |rounds| :: Fits(bad, rounds[k])
    requires CleanOnes(rounds) * (batchSize - Bad(s, bad, |s.rows|)) >= Publishable(s, bad, |s.rows|)
    ensures var s' := Play(batchSize, s, rounds);
      forall i | 0 <= i < |s.rows| && !bad(i) && Visible(s, rounds, i) :: i < |s'.rows| && s'.rows[i].published
  {
    forall i | 0 <= i < |s.rows| && !bad(i) && Visible(s, rounds, i)
      ensures i < |Play(batchSize, s, rounds).rows| && Play(batchSize, s, rounds).rows[i].published
    {
      if s.rows[i].published {
        StaysPublished(batchSize, s, rounds, bad, i);
      } else {
        FewerUpTo(batchSize, s, bad, i, CleanOnes(rounds));
        NonStarvation(batchSize, s, rounds, bad, i);
      }
    }
  }

  /** Up to a pending publishable row there are fewer of both kinds than in all. */
  lemma FewerUpTo(batchSize: nat, s: System, bad: nat -> bool, i: nat, n: nat)
    requires i < |s.rows| && !bad(i) && !s.rows[i].published && Bad(s, bad, |s.rows|) < batchSize
    requires n * (batchSize - Bad(s, bad, |s.rows|)) >= Publishable(s, bad, |s.rows|)
    ensures Bad(s, bad, i) < batchSize && n * (batchSize - Bad(s, bad, i)) > Publishable(s, bad, i)
  {
    Split(s.rows, bad, true, 0, i, |s.rows|);
    Split(s.rows, bad, false, 0, i, |s.rows|);
    TimesKeepsOrder(batchSize - Bad(s, bad, |s.rows|), batchSize - Bad(s, bad, i), n);
  }

  lemma {:induction false} Split(rows: seq<Row>, bad: nat -> bool, which: bool, k: nat, m: nat, end: nat)
    requires k <= m < end <= |rows|
    ensures Pending(rows, bad, which, k, end)
         >= Pending(rows, bad, which, k, m) + if !rows[m].published && bad(m) == which then 1 else 0
    decreases m - k
  {
    if k < m { Split(rows, bad, which, k + 1, m, end); }
  }

  lemma {:induction false} StaysPublished(batchSize: nat, s: System, rounds: seq<Round>, bad: nat -> bool, i: nat)
    requires 0 !in s.txns && i < |s.rows| && !bad(i) && s.rows[i].published
    requires Visible(s, rounds, i) && forall k | 0 <= k < |rounds| :: Fits(bad, rounds[k])
    ensures var s' := Play(batchSize, s, rounds); 0 !in s'.txns && !Locked(s'.txns, i) && i < |s'.rows| && s'.rows[i].published
  {
    if rounds != [] {
      var n := |rounds| - 1;
      StaysPublished(batchSize, s, rounds[..n], bad, i);
      RoundMakesProgress(batchSize, Play(batchSize, s, rounds[..n]), rounds[n], bad, i);
    }
  }

  /** Starvation: with at least batchSize bad rows before it, and nobody else about, a pending row is never
      published, in any number of rounds; no batch so much as locks it. */
  lemma {:induction false} Starvation(batchSize: nat, s: System, rounds: seq<Round>, bad: nat -> bool, i: nat)
    requires s.txns == map[] && i < |s.rows| && !s.rows[i].published && Bad(s, bad, i) >= batchSize
    requires Alone(rounds) && forall k | 0 <= k < |rounds| :: Fits(bad, rounds[k])
    ensures var s' := Play(batchSize, s, rounds);
      && s'.txns == map[] && i < |s'.rows| && !s'.rows[i].published && Bad(s', bad, i) == Bad(s, bad, i)
      && i !in Select(s'.rows, map[], 0, batchSize)
  {
    if rounds == [] {
      SelectsTheOldest(s.rows, bad, 0, batchSize, i);
    } else {
      var n := |rounds| - 1;
      Starvation(batchSize, s, rounds[..n], bad, i);
      RoundStarves(batchSize, Play(batchSize, s, rounds[..n]), rounds[n], bad, i);
    }
  }

  lemma RoundStarves(batchSize: nat, s: System, r: Round, bad: nat -> bool, i: nat)
    requires s.txns == map[] && i < |s.rows| && !s.rows[i].published && Bad(s, bad, i) >= batchSize
    requires i !in Select(s.rows, map[], 0, batchSize) && Fits(bad, r) && !r.Others?
    ensures var s' := PlayOne(batchSize, s, r);
      && s'.txns == map[] && i < |s'.rows| && !s'.rows[i].published && Bad(s', bad, i) == Bad(s, bad, i)
      && i !in Select(s'.rows, map[], 0, batchSize)
  {
    var s' := PlayOne(batchSize, s, r);
    if r.Try? { TryEffect(batchSize, s, bad, r.attempt); }
    UnchangedCounts(s.rows, s'.rows, bad, true, 0, i);
    SelectsTheOldest(s'.rows, bad, 0, batchSize, i);
  }

  function CleanRounds(bad: nat -> bool, n: nat): seq<Round> {
    seq(n, _ => Try(Attempt(true, (i: nat) => if bad(i) then Refused else Done, _ => true, Done)))
  }

  lemma {:induction false} CleanRoundsAreClean(bad: nat -> bool, n: nat)
    ensures CleanOnes(CleanRounds(bad, n)) == n
    ensures Alone(CleanRounds(bad, n)) && forall k | 0 <= k < n :: Fits(bad, CleanRounds(bad, n)[k])
  {
    if n > 0 {
      CleanRoundsAreClean(bad, n - 1);
      assert CleanRounds(bad, n)[..n - 1] == CleanRounds(bad, n - 1);
    }
  }

  /** The sharp threshold: a pending row that is not bad is published in the end if and only if
      fewer than batchSize bad rows are older. */
  lemma Threshold(batchSize: nat, s: System, bad: nat -> bool, i: nat)
    requires s.txns == map[] && i < |s.rows| && !s.rows[i].published && !bad(i)
    ensures (exists n :: Reaches(batchSize, s, bad, i, n)) <==> Bad(s, bad, i) < batchSize
  {
    if Bad(s, bad, i) < batchSize {
      var n := Publishable(s, bad, i) + 1;
      CleanRoundsAreClean(bad, n);
      TimesKeepsOrder(1, batchSize - Bad(s, bad, i), n);
      NonStarvation(batchSize, s, CleanRounds(bad, n), bad, i);
      assert Reaches(batchSize, s, bad, i, n);
    } else {
      forall n
        ensures !Reaches(batchSize, s, bad, i, n)
      {
        CleanRoundsAreClean(bad, n);
        Starvation(batchSize, s, CleanRounds(bad, n), bad, i);
      }
    }
  }

  /** Row i is published after n clean batches. */
  ghost predicate Reaches(batchSize: nat, s: System, bad: nat -> bool, i: nat, n: nat) {
    var s' := Play(batchSize, s, CleanRounds(bad, n));
    i < |s'.rows| && s'.rows[i].published
  }
}
