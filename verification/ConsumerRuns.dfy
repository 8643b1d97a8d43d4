// What the handlers do to one order's payment, whatever fails: every attempt moves it along the
// path of the clean attempt, so retries and duplicates are invisible in the end.
module ConsumerRuns {
  import opened Wrappers
  import opened Faults
  import opened Text
  import opened Uuids
  import opened Payments
  import opened PaymentStore
  import opened PaymentCommands
  import opened PaymentRuns
  import opened Consumer

  // ----- the order's payment, and the clean step on it -----

  /** A payment without what a second attempt may choose anew: its id and its created_at. */
  function Anonymous(p: Snapshot): Snapshot { p.(id := "", createdAt := 0) }

  /** What the tables hold for an order, named by the UUID of its column: its newest payment. */
  function View(w: World, order: string): Option<Snapshot> {
    var i := LatestFor(w.rows, order);
    if i == |w.rows| then None else Some(Anonymous(Scanned(w.rows[i])))
  }

  /** Whether the consumer's settings allow it to create payments at all. */
  predicate Usable(cfg: Config) { 0 < cfg.amount && FitsColumn(cfg.amount) && IsCurrency(Trim(cfg.currency)) }

  function NewView(cfg: Config, order: string): Snapshot {
    Snapshot("", order, cfg.amount, Trim(cfg.currency), Pending, "", 0)
  }

  predicate IsPlacement(d: Delivery, order: string) { d.Placed? && Canonical(d.orderId) == Some(order) }

  predicate IsCancellation(d: Delivery, order: string) { d.Cancelled? && Canonical(d.orderId) == Some(order) }

  predicate Concerns(d: Delivery, order: string) { IsPlacement(d, order) || IsCancellation(d, order) }

  /** The meaning of a delivery that concerns an order, on the payment of that order. */
  function Target(cfg: Config, d: Delivery, order: string, v: Option<Snapshot>): Option<Snapshot> {
    match d
    case Placed(_) =>
      if v == None then (if Usable(cfg) then Some(NewView(cfg, order).(status := Paid)) else None)
      else if v.value.status == Pending then Some(v.value.(status := Paid, failureReason := ""))
      else v
    case Cancelled(_) =>
      if v == None then None
      else if v.value.status == Paid then Some(v.value.(status := Refunded))
      else if v.value.status == Pending then Some(v.value.(status := Failed, failureReason := "order_cancelled"))
      else v
    case _ => v
  }

  /** Where an attempt may stop: before the step, after it, or half-way, with a pending payment. */
  predicate Reaches(cfg: Config, d: Delivery, order: string, v: Option<Snapshot>, v': Option<Snapshot>) {
    || v' == v
    || v' == Target(cfg, d, order, v)
    || (d.Placed? && v == None && Usable(cfg) && v' == Some(NewView(cfg, order)))
  }

  ghost predicate OnePerOrder(rows: seq<Row>) {
    forall i, j | 0 <= i < j < |rows| :: rows[i].orderId != rows[j].orderId
  }

  ghost predicate AllDone(env: Env, from: nat) { forall k | k >= from :: env.outcome(k) == Done }

  // ----- one command on one row -----

  lemma ExecuteEffect(env: Env, w: World, i: nat, c: Command)
    requires Sound(w) && i < |w.rows|
    ensures var (w', err) := Execute(env, w, w.rows[i].id, c);
      && Sound(w') && |w'.rows| == |w.rows|
      && (forall j | 0 <= j < |w.rows| && j != i :: w'.rows[j] == w.rows[j])
      && w'.rows[i].id == w.rows[i].id && w'.rows[i].orderId == w.rows[i].orderId
      && w'.calls > w.calls
      && var applied := Apply(Scanned(w.rows[i]), c);
      && (Scanned(w'.rows[i]) == Scanned(w.rows[i])
          || (applied.Success? && Scanned(w'.rows[i]) == applied.value.0))
      && (err == None ==> applied.Success? && Scanned(w'.rows[i]) == applied.value.0)
      && (AllDone(env, w.calls) && applied.Success? ==> err == None)
  {
    ExecuteKeepsSound(env, w, w.rows[i].id, c);
    assert IndexOf(w.rows, w.rows[i].id) == i;
    LoadsTheRow(env, w, i);
    assert SoundRow(w.outbox, w.issued, w.rows[i]);
    var p := Scanned(w.rows[i]);
    if env.outcome(w.calls) == Done && Apply(p, c).Success? {
      var (q, events) := Apply(p, c).value;
      CommandFollows(p, c, q, events);
      ChargedEffect(env, Tick(w), i, c, q, events);
    }
  }

  /** The second half of a command: the provider, then the save. */
  lemma ChargedEffect(env: Env, w: World, i: nat, c: Command, q: Snapshot, events: seq<DomainEvent>)
    requires DistinctIds(w.rows) && i < |w.rows| && w.rows[i].id == q.id && w.rows[i].orderId == q.orderId
    requires FitsColumn(q.amount) && IsUuid(q.id) && IsUuid(q.orderId)
    ensures var (w', err) := ChargeAndSave(env, w, c, q, events);
      && |w'.rows| == |w.rows|
      && (forall j | 0 <= j < |w.rows| && j != i :: w'.rows[j] == w.rows[j])
      && w'.rows[i].id == q.id && w'.rows[i].orderId == q.orderId && w'.calls >= w.calls
      && (w'.rows[i] == w.rows[i] || Scanned(w'.rows[i]) == q.(createdAt := w.rows[i].createdAt))
      && (err == None ==> Scanned(w'.rows[i]) == q.(createdAt := w.rows[i].createdAt))
      && (AllDone(env, w.calls) ==> err == None)
  {
    var (w2, err) := Charge(env, w, c, q);
    ChargeKeepsTables(env, w, c, q);
    if err == None { SaveEffect(env, w2, i, q, events); }
  }

  lemma SaveEffect(env: Env, w: World, i: nat, q: Snapshot, events: seq<DomainEvent>)
    requires DistinctIds(w.rows) && i < |w.rows| && w.rows[i].id == q.id && w.rows[i].orderId == q.orderId
    requires FitsColumn(q.amount) && IsUuid(q.id) && IsUuid(q.orderId)
    ensures var (w', err) := SaveStep(env, w, q, events);
      && |w'.rows| == |w.rows|
      && (forall j | 0 <= j < |w.rows| && j != i :: w'.rows[j] == w.rows[j])
      && w'.rows[i].id == q.id && w'.rows[i].orderId == q.orderId
      && (w'.rows[i] == w.rows[i] || Scanned(w'.rows[i]) == q.(createdAt := w.rows[i].createdAt))
      && (err == None ==> Scanned(w'.rows[i]) == q.(createdAt := w.rows[i].createdAt))
  {
    assert IndexOf(w.rows, q.id) == i;
    SaveIs(env, w, q, events);
    SaveTouchesOneRow(env, w, i, q, events);
  }

  // ----- one attempt -----

  ghost predicate Good(w: World) { Sound(w) && OnePerOrder(w.rows) }

  /** Only row i may have changed, and only in what a command can change. */
  ghost predicate OnlyRow(w: World, w': World, i: nat)
    requires i < |w.rows|
  {
    && |w'.rows| == |w.rows|
    && w'.rows[i].id == w.rows[i].id && w'.rows[i].orderId == w.rows[i].orderId
    && forall j | 0 <= j < |w.rows| && j != i :: w'.rows[j] == w.rows[j]
  }

  lemma LoadsById(env: Env, w: World, i: nat)
    requires Sound(w) && i < |w.rows|
    ensures LoadById(env, w, w.rows[i].id)
         == (Tick(w), if env.outcome(w.calls) == Done then Success(Scanned(w.rows[i])) else Failure(StoreFailed))
  {
    assert SoundRow(w.outbox, w.issued, w.rows[i]) && IndexOf(w.rows, w.rows[i].id) == i;
    LoadsTheRow(env, w, i);
  }

  lemma SettleEffect(env: Env, w: World, i: nat)
    requires Good(w) && i < |w.rows|
    ensures var p := Scanned(w.rows[i]);
      var (w', err) := Settle(env, w, p);
      && Good(w') && OnlyRow(w, w', i)
      && (p.status != Pending ==> w' == w && err == None)
      && (p.status == Pending ==>
            && Scanned(w'.rows[i]) in {p, p.(status := Paid, failureReason := "")}
            && (err == None ==> Scanned(w'.rows[i]).status == Paid)
            && (AllDone(env, w.calls) ==> err == None))
  {
    var p := Scanned(w.rows[i]);
    if p.status == Pending {
      ExecuteEffect(env, w, i, MarkPaid);
      var w1 := Execute(env, w, p.id, MarkPaid).0;
      LoadsById(env, w1, i);
    }
  }

  /** On an order that has a payment already. */
  lemma PlacedOnRow(env: Env, w: World, cfg: Config, orderId: string, order: string)
    requires Good(w) && Canonical(orderId) == Some(order) && LatestFor(w.rows, order) < |w.rows|
    ensures var i := LatestFor(w.rows, order);
      var (w', err) := HandlePlaced(env, w, cfg, orderId);
      && Good(w') && OnlyRow(w, w', i)
      && Reaches(cfg, Placed(orderId), order, View(w, order), Some(Anonymous(Scanned(w'.rows[i]))))
      && (err == None ==> Some(Anonymous(Scanned(w'.rows[i]))) == Target(cfg, Placed(orderId), order, View(w, order)))
      && (AllDone(env, w.calls) ==> err == None)
  {
    var i := LatestFor(w.rows, order);
    LoadsTheRow(env, w, i);
    var w1 := Tick(w);
    if env.outcome(w.calls) == Done { SettleEffect(env, w1, i); }
  }

  lemma CancelledOnRow(env: Env, w: World, cfg: Config, orderId: string, order: string)
    requires Good(w) && Canonical(orderId) == Some(order) && LatestFor(w.rows, order) < |w.rows|
    ensures var i := LatestFor(w.rows, order);
      var (w', err) := HandleCancelled(env, w, orderId);
      && Good(w') && OnlyRow(w, w', i)
      && Reaches(cfg, Cancelled(orderId), order, View(w, order), Some(Anonymous(Scanned(w'.rows[i]))))
      && (err == None ==> Some(Anonymous(Scanned(w'.rows[i]))) == Target(cfg, Cancelled(orderId), order, View(w, order)))
      && (AllDone(env, w.calls) ==> err == None)
  {
    var i := LatestFor(w.rows, order);
    LoadsTheRow(env, w, i);
    CancelEffect(env, Tick(w), i);
    assert HandleCancelled(env, w, orderId)
        == if env.outcome(w.calls) == Done then Cancel(env, Tick(w), Scanned(w.rows[i])) else (Tick(w), Some(StoreFailed));
  }

  /** Refunding or failing the payment that is in hand. */
  lemma CancelEffect(env: Env, w: World, i: nat)
    requires Good(w) && i < |w.rows|
    ensures var p := Scanned(w.rows[i]);
      var (w', err) := Cancel(env, w, p);
      && Good(w') && OnlyRow(w, w', i)
      && (Scanned(w'.rows[i]) == p || Scanned(w'.rows[i]) == CancelledSnapshot(p))
      && (err == None ==> Scanned(w'.rows[i]) == CancelledSnapshot(p))
      && (AllDone(env, w.calls) ==> err == None)
  {
    var p := Scanned(w.rows[i]);
    if p.status == Paid {
      ExecuteEffect(env, w, i, Refund);
    } else if p.status == Pending {
      FailEffect(env, w, i);
    }
  }

  function CancelledSnapshot(p: Snapshot): Snapshot {
    if p.status == Paid then p.(status := Refunded)
    else if p.status == Pending then p.(status := Failed, failureReason := CANCEL_REASON)
    else p
  }

  lemma FailEffect(env: Env, w: World, i: nat)
    requires Good(w) && i < |w.rows| && w.rows[i].status == Pending
    ensures var p := Scanned(w.rows[i]);
      var (w', err) := Execute(env, w, p.id, MarkFailed(CANCEL_REASON));
      && Good(w') && OnlyRow(w, w', i)
      && Scanned(w'.rows[i]) in {p, p.(status := Failed, failureReason := CANCEL_REASON)}
      && (err == None ==> Scanned(w'.rows[i]) == p.(status := Failed, failureReason := CANCEL_REASON))
      && (AllDone(env, w.calls) ==> err == None)
  {
    CancelReasonIsClean();
    ExecuteEffect(env, w, i, MarkFailed(CANCEL_REASON));
  }

  lemma CancelReasonIsClean()
    ensures Trim(CANCEL_REASON) == CANCEL_REASON != ""
  {
    assert CANCEL_REASON[0] == 'o' && CANCEL_REASON[|CANCEL_REASON| - 1] == 'd';
    FixesTrimmed(CANCEL_REASON);
  }

  /** Creating a payment: one more row, or nothing; and a row for sure if it succeeds. */
  lemma CreateEffect(env: Env, w: World, cfg: Config, orderId: string, order: string)
    requires Sound(w) && Canonical(orderId) == Some(order)
    ensures var (w', r) := CreateStep(env, w, orderId, cfg.amount, cfg.currency);
      && Sound(w') && w.rows <= w'.rows && |w'.rows| <= |w.rows| + 1 && w'.calls >= w.calls
      && (|w'.rows| > |w.rows| <==> Usable(cfg) && env.outcome(w.calls) != Refused)
      && (|w'.rows| > |w.rows| ==> Anonymous(Scanned(w'.rows[|w.rows|])) == NewView(cfg, order))
      && (r.Success? <==> Usable(cfg) && env.outcome(w.calls) == Done)
      && (r.Success? ==> r.value == w'.rows[|w.rows|].id)
      && (Usable(cfg) ==> w'.calls == w.calls + 1)
  {
    CreateKeepsSound(env, w, orderId, cfg.amount, cfg.currency);
    FreshId(w);
    UuidIsUuid(w.issued);
    CanonicalIsUuid(orderId);
    FixesTrimmed(orderId);
    var p := NewSnapshot(Uuid(w.issued), orderId, cfg.amount, cfg.currency, env.clock(w.calls));
    if p.Success? && FitsColumn(cfg.amount) {
      var row := Upserted(Stored(p.value), None, env.clock(w.calls));
      assert Scanned(row) == Stored(p.value).(createdAt := row.createdAt);
    }
  }

  /** Only the tail may be new, and it is this order's. */
  ghost predicate OnlyAppended(rows: seq<Row>, rows': seq<Row>, order: string) {
    && rows <= rows' && |rows'| <= |rows| + 1
    && (|rows'| > |rows| ==> rows'[|rows|].orderId == order)
  }

  function Tail(rows: seq<Row>, rows': seq<Row>): Option<Snapshot> {
    if |rows'| <= |rows| then None else Some(Anonymous(Scanned(rows'[|rows|])))
  }

  /** What a placement can do to an order that has no payment. */
  ghost predicate PlacedAnew(rows: seq<Row>, w': World, cfg: Config, order: string, err: Option<Error>) {
    && Good(w') && OnlyAppended(rows, w'.rows, order)
    && (Tail(rows, w'.rows) != None ==> Usable(cfg) && MaybePaid(Tail(rows, w'.rows).value, NewView(cfg, order)))
    && (err == None ==> Tail(rows, w'.rows) != None && Tail(rows, w'.rows).value.status == Paid)
  }

  /** This payment, or the same one paid. */
  predicate MaybePaid(v: Snapshot, p: Snapshot) { v == p || v == p.(status := Paid) }

  /** The first branch of the handler. */
  lemma PlaceNewEffect(env: Env, w: World, cfg: Config, orderId: string, order: string)
    requires Good(w) && Canonical(orderId) == Some(order) && LatestFor(w.rows, order) == |w.rows|
    ensures var (w', err) := PlaceNew(env, w, cfg, orderId);
      && PlacedAnew(w.rows, w', cfg, order, err)
      && (AllDone(env, w.calls) && Usable(cfg) ==> err == None)
      && (Tail(w.rows, w'.rows) != None <==> Usable(cfg) && env.outcome(w.calls) != Refused)
  {
    var (w2, created) := CreateStep(env, w, orderId, cfg.amount, cfg.currency);
    CreateEffect(env, w, cfg, orderId, order);
    CreatedAnew(w, w2, cfg, order);
    if created.Success? {
      PayCreated(env, w2, |w.rows|);
      var (w', err) := PayNew(env, w2, created.value);
      PaidAnew(w, w2, w', cfg, order, err);
    }
  }

  lemma CreatedAnew(w: World, w2: World, cfg: Config, order: string)
    requires Good(w) && LatestFor(w.rows, order) == |w.rows| && Sound(w2)
    requires w.rows <= w2.rows && |w2.rows| <= |w.rows| + 1
    requires |w2.rows| > |w.rows| ==> Usable(cfg) && Anonymous(Scanned(w2.rows[|w.rows|])) == NewView(cfg, order)
    ensures Good(w2) && OnlyAppended(w.rows, w2.rows, order)
    ensures forall e :: PlacedAnew(w.rows, w2, cfg, order, Some(e))
    ensures |w2.rows| > |w.rows| ==> w2.rows[|w.rows|].status == Pending
  {
    if |w2.rows| > |w.rows| {
      assert w2.rows[|w.rows|].orderId == Anonymous(Scanned(w2.rows[|w.rows|])).orderId == order;
    }
  }

  lemma PaidAnew(w: World, w2: World, w': World, cfg: Config, order: string, err: Option<Error>)
    requires OnlyAppended(w.rows, w2.rows, order) && |w2.rows| == |w.rows| + 1 && Usable(cfg)
    requires Anonymous(Scanned(w2.rows[|w.rows|])) == NewView(cfg, order)
    requires Good(w') && OnlyRow(w2, w', |w.rows|) && (err == None ==> w'.rows[|w.rows|].status == Paid)
    requires var p := Scanned(w2.rows[|w.rows|]);
      Scanned(w'.rows[|w.rows|]) == p || Scanned(w'.rows[|w.rows|]) == p.(status := Paid, failureReason := "")
    ensures PlacedAnew(w.rows, w', cfg, order, err) && |w'.rows| == |w.rows| + 1
  {}

  lemma PlacesNew(env: Env, w: World, cfg: Config, orderId: string, order: string)
    requires Canonical(orderId) == Some(order) && LatestFor(w.rows, order) == |w.rows|
    ensures HandlePlaced(env, w, cfg, orderId)
         == if env.outcome(w.calls) == Done then PlaceNew(env, Tick(w), cfg, orderId) else (Tick(w), Some(StoreFailed))
  {}

  /** The rest of the first branch: the new row is paid, loaded again, and left alone. */
  lemma PayCreated(env: Env, w: World, n: nat)
    requires Good(w) && n + 1 == |w.rows| && w.rows[n].status == Pending
    ensures var p := Scanned(w.rows[n]);
      var (w', err) := PayNew(env, w, p.id);
      && Good(w') && OnlyRow(w, w', n)
      && (Scanned(w'.rows[n]) == p || Scanned(w'.rows[n]) == p.(status := Paid, failureReason := ""))
      && (err == None ==> w'.rows[n].status == Paid)
      && (AllDone(env, w.calls) ==> err == None)
  {
    ExecuteEffect(env, w, n, MarkPaid);
    var (w1, err) := Execute(env, w, w.rows[n].id, MarkPaid);
    LoadsById(env, w1, n);
    if err == None && env.outcome(w1.calls) == Done {
      assert PayNew(env, w, w.rows[n].id) == Settle(env, Tick(w1), Scanned(w1.rows[n]));
      assert Scanned(w1.rows[n]).status == Paid;
    }
  }

  // ----- from rows to views -----

  lemma ViewsOfOneRow(w: World, w': World, i: nat)
    requires OnePerOrder(w.rows) && i < |w.rows| && OnlyRow(w, w', i)
    ensures View(w', w.rows[i].orderId) == Some(Anonymous(Scanned(w'.rows[i])))
    ensures forall o | o != w.rows[i].orderId :: View(w', o) == View(w, o)
  {
    assert LatestFor(w'.rows, w.rows[i].orderId) == i;
    forall o | o != w.rows[i].orderId
      ensures View(w', o) == View(w, o)
    {
      var k, k' := LatestFor(w.rows, o), LatestFor(w'.rows, o);
      assert forall j | 0 <= j < |w.rows| :: w'.rows[j].orderId == w.rows[j].orderId;
      assert k == k';
    }
  }

  lemma ViewsOfTail(w: World, w': World, order: string)
    requires OnlyAppended(w.rows, w'.rows, order)
    ensures |w'.rows| > |w.rows| ==> View(w', order) == Tail(w.rows, w'.rows)
    ensures |w'.rows| == |w.rows| ==> View(w', order) == View(w, order)
    ensures forall o | o != order :: View(w', o) == View(w, o)
  {
    if |w'.rows| == |w.rows| {
      assert w'.rows == w.rows;
    } else {
      assert LatestFor(w'.rows, order) == |w.rows|;
      assert w'.rows[..|w.rows|] == w.rows;
    }
  }

  /** One attempt at one delivery, with any pattern of faults, on sound tables with one payment
      per order. It keeps them so; it touches no other order; it leaves its own order's payment
      where Reaches says; if it reports success then it has reached the target; and without
      faults it does. */
  lemma HandleEffect(env: Env, w: World, cfg: Config, d: Delivery)
    requires Good(w)
    ensures var (w', err) := Handle(env, w, cfg, d);
      && Good(w')
      && (forall o | !Concerns(d, o) :: View(w', o) == View(w, o))
      && (forall o | Concerns(d, o) ::
            && Reaches(cfg, d, o, View(w, o), View(w', o))
            && (err == None ==> View(w', o) == Target(cfg, d, o, View(w, o)))
            && (AllDone(env, w.calls) && (d.Placed? && View(w, o) == None ==> Usable(cfg)) ==> err == None))
  {
    if (d.Placed? || d.Cancelled?) && Canonical(d.orderId).Some? {
      HandleKnownOrder(env, w, cfg, d, Canonical(d.orderId).value);
    }
  }

  lemma HandleKnownOrder(env: Env, w: World, cfg: Config, d: Delivery, order: string)
    requires Good(w) && Concerns(d, order)
    ensures var (w', err) := Handle(env, w, cfg, d);
      && Good(w')
      && (forall o | o != order :: View(w', o) == View(w, o))
      && Reaches(cfg, d, order, View(w, order), View(w', order))
      && (err == None ==> View(w', order) == Target(cfg, d, order, View(w, order)))
      && (AllDone(env, w.calls) && (d.Placed? && View(w, order) == None ==> Usable(cfg)) ==> err == None)
  {
    var w', i := Handle(env, w, cfg, d).0, LatestFor(w.rows, order);
    if i < |w.rows| {
      if d.Placed? { PlacedOnRow(env, w, cfg, d.orderId, order); } else { CancelledOnRow(env, w, cfg, d.orderId, order); }
      ViewsOfOneRow(w, w', i);
    } else if d.Placed? {
      PlacesNew(env, w, cfg, d.orderId, order);
      if env.outcome(w.calls) == Done { PlaceNewEffect(env, Tick(w), cfg, d.orderId, order); }
      ViewsOfTail(w, w', order);
      assert View(w', order) == Tail(w.rows, w'.rows);
    }
  }

  /** An order id that is no UUID, be it only for white space around it, fails in every attempt and
      changes nothing; without other faults these are the only ones that fail. */
  lemma FailsIffNoUuid(env: Env, w: World, cfg: Config, d: Delivery)
    requires Good(w) && Usable(cfg) && (d.Placed? || d.Cancelled?)
    ensures Canonical(d.orderId) == None ==> Handle(env, w, cfg, d) == (Tick(w), Some(StoreFailed))
    ensures AllDone(env, w.calls) ==> (Handle(env, w, cfg, d).1 == None <==> Canonical(d.orderId).Some?)
    ensures !Trimmed(d.orderId) ==> Canonical(d.orderId) == None
  {
    HandleEffect(env, w, cfg, d);
    CanonicalIsUuid(d.orderId);
    if Canonical(d.orderId).Some? { assert Concerns(d, Canonical(d.orderId).value); }
  }

  // ----- retries and redeliveries of one message -----

  /** Where a partial attempt leads to, the target is the same as before: the step is idempotent
      under interruption. */
  lemma TargetSurvives(cfg: Config, d: Delivery, o: string, v: Option<Snapshot>, v': Option<Snapshot>)
    requires Reaches(cfg, d, o, v, v')
    ensures Target(cfg, d, o, v') == Target(cfg, d, o, v)
    ensures forall v'' | Reaches(cfg, d, o, v', v'') :: Reaches(cfg, d, o, v, v'')
  {}

  /** Attempts at one delivery, each with its own faults, whatever each of them reports. */
  function AttemptAll(envs: seq<Env>, w: World, cfg: Config, d: Delivery): World {
    if envs == [] then w else
      var n := |envs| - 1;
      Handle(envs[n], AttemptAll(envs[..n], w, cfg, d), cfg, d).0
  }

  lemma {:induction false} AttemptAllEffect(envs: seq<Env>, w: World, cfg: Config, d: Delivery)
    requires Good(w)
    ensures var w' := AttemptAll(envs, w, cfg, d);
      && Good(w')
      && (forall o | !Concerns(d, o) :: View(w', o) == View(w, o))
      && forall o | Concerns(d, o) :: Reaches(cfg, d, o, View(w, o), View(w', o))
  {
    if envs != [] {
      var n := |envs| - 1;
      AttemptAllEffect(envs[..n], w, cfg, d);
      var w1 := AttemptAll(envs[..n], w, cfg, d);
      HandleEffect(envs[n], w1, cfg, d);
      var w' := AttemptAll(envs, w, cfg, d);
      forall o | Concerns(d, o)
        ensures Reaches(cfg, d, o, View(w, o), View(w', o))
      {
        TargetSurvives(cfg, d, o, View(w, o), View(w1, o));
      }
    }
  }

  function Same(env: Env, k: nat): (envs: seq<Env>)
    ensures |envs| == k
  {
    if k == 0 then [] else [env] + Same(env, k - 1)
  }

  /** Attempt j of the retries, counted from 0. */
  function Attempt(env: Env, w: World, cfg: Config, d: Delivery, j: nat): (World, Option<Error>) {
    Handle(env, AttemptAll(Same(env, j), w, cfg, d), cfg, d)
  }

  predicate Fails(env: Env, w: World, cfg: Config, d: Delivery, j: nat) { Attempt(env, w, cfg, d, j).1 != None }

  ghost predicate AllFail(env: Env, w: World, cfg: Config, d: Delivery, k: nat) {
    forall j: nat | j < k :: Fails(env, w, cfg, d, j)
  }

  /** The consumer's own bounded retry is such a series of attempts: all but the last fail, the last is the
      one reported, and it succeeds or is the n-th. */
  lemma {:induction false} AttemptsAreAttempts(env: Env, w: World, cfg: Config, d: Delivery, n: nat) returns (k: nat)
    requires n > 0
    ensures k < n && Attempts(env, w, cfg, d, n) == Attempt(env, w, cfg, d, k)
    ensures AllFail(env, w, cfg, d, k) && (k == n - 1 || !Fails(env, w, cfg, d, k))
    decreases n
  {
    if LastAttempt(env, w, cfg, d, n) {
      k := 0;
    } else {
      var w1 := AfterFirst(env, w, cfg, d);
      var last := AttemptsAreAttempts(env, w1, cfg, d, n - 1);
      k := last + 1;
      NotTheLast(env, w, cfg, d, n, last);
      FailedBefore(env, w, cfg, d, n, k);
    }
  }

  lemma FailedBefore(env: Env, w: World, cfg: Config, d: Delivery, n: nat, k: nat)
    requires n > 0 && k > 0 && !LastAttempt(env, w, cfg, d, n)
    requires AllFail(env, AfterFirst(env, w, cfg, d), cfg, d, k - 1)
    ensures AllFail(env, w, cfg, d, k)
  {
    forall j: nat | j < k
      ensures Fails(env, w, cfg, d, j)
    {
      if j > 0 {
        NotTheLast(env, w, cfg, d, n, j - 1);
        assert Fails(env, AfterFirst(env, w, cfg, d), cfg, d, j - 1);
      }
    }
  }

  /** The retries report what the last attempt reports, if it is the n-th or succeeds, and otherwise that they
      were interrupted: so success exactly if the context allows an attempt and the last one made succeeds. */
  lemma RetriesReport(env: Env, w: World, cfg: Config, d: Delivery, n: nat, q: Patience) returns (k: nat)
    ensures var m := Allowed(q, 1, n);
      if m == 0 then Retried(env, w, cfg, d, n, q) == (w, Some(Interrupted))
      else
        && k < m && AllFail(env, w, cfg, d, k) && (k == m - 1 || !Fails(env, w, cfg, d, k))
        && Retried(env, w, cfg, d, n, q).0 == Attempt(env, w, cfg, d, k).0
        && (Retried(env, w, cfg, d, n, q).1 == None <==> !Fails(env, w, cfg, d, k))
  {
    var m := Allowed(q, 1, n);
    k := 0;
    if m > 0 { k := AttemptsAreAttempts(env, w, cfg, d, m); }
  }

  predicate LastAttempt(env: Env, w: World, cfg: Config, d: Delivery, n: nat) {
    n == 1 || Handle(env, w, cfg, d).1 == None
  }

  function AfterFirst(env: Env, w: World, cfg: Config, d: Delivery): World { Handle(env, w, cfg, d).0 }

  lemma NotTheLast(env: Env, w: World, cfg: Config, d: Delivery, n: nat, j: nat)
    requires n > 0 && !LastAttempt(env, w, cfg, d, n)
    ensures Attempts(env, w, cfg, d, n) == Attempts(env, AfterFirst(env, w, cfg, d), cfg, d, n - 1)
    ensures AttemptAll(Same(env, j + 1), w, cfg, d) == AttemptAll(Same(env, j), AfterFirst(env, w, cfg, d), cfg, d)
    ensures Attempt(env, w, cfg, d, j + 1) == Attempt(env, AfterFirst(env, w, cfg, d), cfg, d, j)
  {
    AttemptFirst(env, Same(env, j), w, cfg, d);
  }

  lemma {:induction false} AttemptFirst(env: Env, envs: seq<Env>, w: World, cfg: Config, d: Delivery)
    ensures AttemptAll([env] + envs, w, cfg, d) == AttemptAll(envs, Handle(env, w, cfg, d).0, cfg, d)
  {
    var all := [env] + envs;
    var n := |all| - 1;
    if envs == [] {
      assert all[..n] == [] && all[n] == env;
    } else {
      AttemptFirst(env, envs[..|envs| - 1], w, cfg, d);
      assert all[..n] == [env] + envs[..|envs| - 1];
    }
  }

  /** Retry transparency: any number of attempts, cut short by any faults, and then one that
      succeeds, leave every order's payment, and what has been sent about it, exactly as a
      single successful attempt does. */
  lemma RetryTransparency(envs: seq<Env>, last: Env, single: Env, w: World, cfg: Config, d: Delivery)
    requires Good(w)
    requires Handle(last, AttemptAll(envs, w, cfg, d), cfg, d).1 == None
    requires Handle(single, w, cfg, d).1 == None
    ensures var retried := Handle(last, AttemptAll(envs, w, cfg, d), cfg, d).0;
      var once := Handle(single, w, cfg, d).0;
      forall o :: View(retried, o) == View(once, o) && Sent(retried, o) == Sent(once, o)
  {
    var w1 := AttemptAll(envs, w, cfg, d);
    AttemptAllEffect(envs, w, cfg, d);
    HandleEffect(last, w1, cfg, d);
    HandleEffect(single, w, cfg, d);
    var retried, once := Handle(last, w1, cfg, d).0, Handle(single, w, cfg, d).0;
    forall o
      ensures View(retried, o) == View(once, o) && Sent(retried, o) == Sent(once, o)
    {
      if Concerns(d, o) { TargetSurvives(cfg, d, o, View(w, o), View(w1, o)); }
      SentIsHistory(retried, o);
      SentIsHistory(once, o);
    }
  }

  function Unnamed(r: Record): Record { r.(aggregateId := "", payload := r.payload.(paymentId := "")) }

  /** The records sent about an order's newest payment, without its id. */
  function Sent(w: World, orderId: string): seq<Record> {
    var i := LatestFor(w.rows, orderId);
    if i == |w.rows| then [] else
      var records := RecordsOf(w.outbox, w.rows[i].id);
      seq(|records|, k requires 0 <= k < |records| => Unnamed(records[k]))
  }

  lemma SentIsHistory(w: World, orderId: string)
    requires Good(w)
    ensures Sent(w, orderId) == match View(w, orderId) case None => [] case Some(v) => History(v)
  {
    var i := LatestFor(w.rows, orderId);
    if i < |w.rows| {
      assert RecordsOf(w.outbox, w.rows[i].id) == History(Scanned(w.rows[i])) by {
        assert SoundRow(w.outbox, w.issued, w.rows[i]);
      }
      UnnamedHistory(Scanned(w.rows[i]));
    }
  }

  lemma UnnamedHistory(p: Snapshot)
    ensures |History(Anonymous(p))| == |History(p)|
    ensures forall k | 0 <= k < |History(p)| :: Unnamed(History(p)[k]) == History(Anonymous(p))[k]
  {}

  // ----- any sequence of deliveries -----

  /** A delivered message, the faults of the attempts made at it, and whether the consumer then went
      on to the next message, as it does after its last attempt, or died before. */
  datatype Handled = Handled(delivery: Delivery, envs: seq<Env>, passed: bool)

  function Consume(w: World, cfg: Config, hs: seq<Handled>): World {
    if hs == [] then w else
      var n := |hs| - 1;
      AttemptAll(hs[n].envs, Consume(w, cfg, hs[..n]), cfg, hs[n].delivery)
  }

  /** The retries of one message are at most n attempts. */
  lemma RetriesAreAttempts(env: Env, w: World, cfg: Config, d: Delivery, n: nat) returns (envs: seq<Env>)
    ensures |envs| <= n && AttemptAll(envs, w, cfg, d) == Attempts(env, w, cfg, d, n).0
  {
    if n == 0 {
      envs := [];
    } else {
      var k := AttemptsAreAttempts(env, w, cfg, d, n);
      envs := Same(env, k) + [env];
      assert envs[..k] == Same(env, k);
    }
  }

  lemma ConsumeAppend(w: World, cfg: Config, hs: seq<Handled>, h: Handled)
    ensures Consume(w, cfg, hs + [h]) == AttemptAll(h.envs, Consume(w, cfg, hs), cfg, h.delivery)
  {
    assert (hs + [h])[..|hs|] == hs;
  }

  lemma DeliveriesAppend(hs: seq<Handled>, h: Handled)
    ensures Deliveries(hs + [h]) == Deliveries(hs) + [h.delivery]
  {}

  ghost predicate AtMost(hs: seq<Handled>, n: nat) { forall k | 0 <= k < |hs| :: |hs[k].envs| <= n && hs[k].passed }

  lemma LoopStep(env: Env, w: World, cfg: Config, before: seq<Handled>, d: Delivery, n: nat, m: nat)
    returns (hs: seq<Handled>)
    requires m <= n && AtMost(before, n)
    ensures Deliveries(hs) == Deliveries(before) + [d] && AtMost(hs, n)
    ensures Consume(w, cfg, hs) == Attempts(env, Consume(w, cfg, before), cfg, d, m).0
  {
    var envs := RetriesAreAttempts(env, Consume(w, cfg, before), cfg, d, m);
    hs := before + [Handled(d, envs, true)];
    ConsumeAppend(w, cfg, before, Handled(d, envs, true));
    DeliveriesAppend(before, Handled(d, envs, true));
  }

  /** The consumer's own loop is such a run: it goes on after every message, in order, with at most
      maxAttempts attempts at each. */
  lemma {:induction false} LoopIsConsume(env: Env, w: World, cfg: Config, ms: seq<Message>, maxAttempts: nat,
                                         q: nat -> Patience)
    returns (hs: seq<Handled>)
    ensures Deliveries(hs) == DecodeAll(ms) && AtMost(hs, maxAttempts)
    ensures Consume(w, cfg, hs) == HandleAll(env, w, cfg, ms, maxAttempts, q)
  {
    hs := [];
    if ms != [] {
      var n := |ms| - 1;
      var before := LoopIsConsume(env, w, cfg, ms[..n], maxAttempts, q);
      hs := LoopStep(env, w, cfg, before, Decode(ms[n]), maxAttempts, Allowed(q(n), 1, maxAttempts));
      DecodeLast(ms);
    }
  }

  function DecodeAll(ms: seq<Message>): seq<Delivery> { seq(|ms|, i requires 0 <= i < |ms| => Decode(ms[i])) }

  lemma DecodeLast(ms: seq<Message>)
    requires ms != []
    ensures DecodeAll(ms) == DecodeAll(ms[..|ms| - 1]) + [Decode(ms[|ms| - 1])]
  {}

  /** The last attempt reports success. */
  ghost predicate Settled(w: World, cfg: Config, h: Handled) {
    && h.envs != []
    && var m := |h.envs| - 1;
      Handle(h.envs[m], AttemptAll(h.envs[..m], w, cfg, h.delivery), cfg, h.delivery).1 == None
  }

  ghost predicate SettledAt(w: World, cfg: Config, hs: seq<Handled>, k: nat)
    requires k < |hs|
  {
    Settled(Consume(w, cfg, hs[..k]), cfg, hs[k])
  }

  /** Every message that concerns this order is settled; what becomes of the others is open. */
  ghost predicate AllSettled(w: World, cfg: Config, hs: seq<Handled>, order: string) {
    forall k | 0 <= k < |hs| && Concerns(hs[k].delivery, order) :: SettledAt(w, cfg, hs, k)
  }

  /** The payment of an order after these deliveries, by the meaning of each. */
  function Fate(cfg: Config, ds: seq<Delivery>, order: string): Option<Snapshot> {
    if ds == [] then None else
      var n := |ds| - 1;
      var before := Fate(cfg, ds[..n], order);
      if Concerns(ds[n], order) then Target(cfg, ds[n], order, before) else before
  }

  function Deliveries(hs: seq<Handled>): seq<Delivery> { seq(|hs|, i requires 0 <= i < |hs| => hs[i].delivery) }

  /** Whatever fails and whatever is delivered, the consumer keeps the tables sound and holds at most
      one payment for every order. */
  lemma {:induction false} ConsumeKeepsGood(w: World, cfg: Config, hs: seq<Handled>)
    requires Good(w)
    ensures Good(Consume(w, cfg, hs))
  {
    if hs != [] {
      var n := |hs| - 1;
      ConsumeKeepsGood(w, cfg, hs[..n]);
      AttemptAllEffect(hs[n].envs, Consume(w, cfg, hs[..n]), cfg, hs[n].delivery);
    }
  }

  /** Once every message of an order has been handled, however often and with whatever faults on the
      way, and whatever has become of all other messages, the order's payment is the one that the
      bare sequence of deliveries means. */
  lemma {:induction false} ConsumeMeansFate(cfg: Config, hs: seq<Handled>, order: string)
    requires AllSettled(EMPTY_WORLD, cfg, hs, order)
    ensures View(Consume(EMPTY_WORLD, cfg, hs), order) == Fate(cfg, Deliveries(hs), order)
  {
    if hs != [] {
      var n := |hs| - 1;
      AllSettledBefore(EMPTY_WORLD, cfg, hs, order);
      ConsumeMeansFate(cfg, hs[..n], order);
      ConsumeKeepsGood(EMPTY_WORLD, cfg, hs[..n]);
      assert Deliveries(hs)[..n] == Deliveries(hs[..n]);
      OneMoreHandled(Consume(EMPTY_WORLD, cfg, hs[..n]), cfg, hs[n], order);
    }
  }

  lemma AllSettledBefore(w: World, cfg: Config, hs: seq<Handled>, order: string)
    requires hs != [] && AllSettled(w, cfg, hs, order)
    ensures var n := |hs| - 1;
      && AllSettled(w, cfg, hs[..n], order)
      && (Concerns(hs[n].delivery, order) ==> Settled(Consume(w, cfg, hs[..n]), cfg, hs[n]))
  {
    var n := |hs| - 1;
    forall k | 0 <= k < n && Concerns(hs[..n][k].delivery, order)
      ensures SettledAt(w, cfg, hs[..n], k)
    {
      assert hs[..n][..k] == hs[..k] && SettledAt(w, cfg, hs, k);
    }
    if Concerns(hs[n].delivery, order) { assert SettledAt(w, cfg, hs, n); }
  }

  lemma OneMoreHandled(w: World, cfg: Config, h: Handled, order: string)
    requires Good(w)
    ensures var v, v' := View(w, order), View(AttemptAll(h.envs, w, cfg, h.delivery), order);
      if !Concerns(h.delivery, order) then v' == v
      else Reaches(cfg, h.delivery, order, v, v')
           && (Settled(w, cfg, h) ==> v' == Target(cfg, h.delivery, order, v))
  {
    AttemptAllEffect(h.envs, w, cfg, h.delivery);
    if Settled(w, cfg, h) && Concerns(h.delivery, order) {
      var m := |h.envs| - 1;
      var w1 := AttemptAll(h.envs[..m], w, cfg, h.delivery);
      AttemptAllEffect(h.envs[..m], w, cfg, h.delivery);
      HandleEffect(h.envs[m], w1, cfg, h.delivery);
      TargetSurvives(cfg, h.delivery, order, View(w, order), View(w1, order));
    }
  }

  ghost predicate SomePlacement(ds: seq<Delivery>, order: string) {
    exists k :: 0 <= k < |ds| && IsPlacement(ds[k], order)
  }

  ghost predicate SomeCancellation(ds: seq<Delivery>, order: string) {
    exists k :: 0 <= k < |ds| && IsCancellation(ds[k], order)
  }

  ghost predicate PlacedThenCancelled(ds: seq<Delivery>, order: string) {
    exists i, j :: 0 <= i < j < |ds| && IsPlacement(ds[i], order) && IsCancellation(ds[j], order)
  }

  /** What any sequence of deliveries means, in closed form, however they are repeated and
      reordered: no payment iff none was placed (or none can be created), refunded iff some
      placement comes before some cancellation, and paid otherwise. */
  lemma {:induction false} FateInClosedForm(cfg: Config, ds: seq<Delivery>, order: string)
    ensures var v := Fate(cfg, ds, order);
      && (v == None <==> !Usable(cfg) || !SomePlacement(ds, order))
      && (v.Some? && v.value.status == Refunded <==> Usable(cfg) && PlacedThenCancelled(ds, order))
      && (v.Some? ==> v == Some(NewView(cfg, order).(status := v.value.status)) && v.value.status in {Paid, Refunded})
  {
    if ds != [] {
      FateInClosedForm(cfg, ds[..|ds| - 1], order);
      LastDelivery(ds, order);
    }
  }

  lemma LastDelivery(ds: seq<Delivery>, order: string)
    requires ds != []
    ensures var n := |ds| - 1;
      && (SomePlacement(ds, order) <==> SomePlacement(ds[..n], order) || IsPlacement(ds[n], order))
      && (SomeCancellation(ds, order) <==> SomeCancellation(ds[..n], order) || IsCancellation(ds[n], order))
      && (PlacedThenCancelled(ds, order) <==>
            PlacedThenCancelled(ds[..n], order) || (IsCancellation(ds[n], order) && SomePlacement(ds[..n], order)))
  {
    var n := |ds| - 1;
    assert forall k | 0 <= k < n :: ds[..n][k] == ds[k];
    assert ds[..n] + [ds[n]] == ds;
    LastPair(ds[..n], ds[n], order);
  }

  lemma LastPair(ds: seq<Delivery>, d: Delivery, order: string)
    ensures PlacedThenCancelled(ds + [d], order) <==>
              PlacedThenCancelled(ds, order) || (IsCancellation(d, order) && SomePlacement(ds, order))
  {
    var all, n := ds + [d], |ds|;
    if PlacedThenCancelled(ds, order) {
      var i, j :| 0 <= i < j < n && IsPlacement(ds[i], order) && IsCancellation(ds[j], order);
      assert IsPlacement(all[i], order) && IsCancellation(all[j], order);
    } else if IsCancellation(d, order) && SomePlacement(ds, order) {
      var i :| 0 <= i < n && IsPlacement(ds[i], order);
      assert IsPlacement(all[i], order) && IsCancellation(all[n], order);
    }
    if PlacedThenCancelled(all, order) {
      var i, j :| 0 <= i < j < |all| && IsPlacement(all[i], order) && IsCancellation(all[j], order);
      assert IsPlacement(ds[i], order);
      if j < n { assert IsCancellation(ds[j], order); }
    }
  }

  // ----- when some handlings are given up -----

  /** Some handling of a placement of the order has settled. */
  ghost predicate PlacementSettled(cfg: Config, hs: seq<Handled>, order: string) {
    hs != [] && var n := |hs| - 1;
      || PlacementSettled(cfg, hs[..n], order)
      || (IsPlacement(hs[n].delivery, order) && Settled(Consume(EMPTY_WORLD, cfg, hs[..n]), cfg, hs[n]))
  }

  /** Some handling of a cancellation of the order has settled. */
  ghost predicate CancellationSettled(cfg: Config, hs: seq<Handled>, order: string) {
    hs != [] && var n := |hs| - 1;
      || CancellationSettled(cfg, hs[..n], order)
      || (IsCancellation(hs[n].delivery, order) && Settled(Consume(EMPTY_WORLD, cfg, hs[..n]), cfg, hs[n]))
  }

  /** No attempt at a cancellation before some placement of the order has settled. */
  ghost predicate PlacedFirst(cfg: Config, hs: seq<Handled>, order: string) {
    hs == [] || var n := |hs| - 1;
      && PlacedFirst(cfg, hs[..n], order)
      && (IsCancellation(hs[n].delivery, order) ==> PlacementSettled(cfg, hs[..n], order))
  }

  /** How far an order has come: has one of its placements been handled, and with success, and likewise
      its cancellations? */
  datatype Stage = Stage(placement: bool, placed: bool, cancellation: bool, cancelled: bool)

  ghost predicate Due(cfg: Config, order: string, g: Stage, v: Option<Snapshot>) {
    && (v.Some? ==> v == Some(NewView(cfg, order).(status := v.value.status))
                    && v.value.status in {Pending, Paid, Refunded} && g.placement && Usable(cfg))
    && (g.placed ==> (v.Some? <==> Usable(cfg)) && (v.Some? ==> v.value.status != Pending))
    && (g.cancelled && v.Some? ==> v.value.status == Refunded)
    && (v.Some? && v.value.status == Refunded ==> g.cancellation)
    && (g.cancelled ==> g.placed)
  }

  ghost function StageOf(cfg: Config, hs: seq<Handled>, order: string): Stage {
    Stage(SomePlacement(Deliveries(hs), order), PlacementSettled(cfg, hs, order),
          SomeCancellation(Deliveries(hs), order), CancellationSettled(cfg, hs, order))
  }

  /** Of an order whose placement settles before its cancellation is first tried, any handlings may be
      cut short, given up, tried again later or repeated: once a placement has settled there is one
      payment, paid or refunded; it is refunded once a cancellation has settled, and never without
      one. Messages of other orders do not matter. */
  lemma {:induction false} InterruptedFate(cfg: Config, hs: seq<Handled>, order: string)
    requires PlacedFirst(cfg, hs, order)
    ensures Due(cfg, order, StageOf(cfg, hs, order), View(Consume(EMPTY_WORLD, cfg, hs), order))
  {
    if hs != [] {
      var n := |hs| - 1;
      var w := Consume(EMPTY_WORLD, cfg, hs[..n]);
      InterruptedFate(cfg, hs[..n], order);
      ConsumeKeepsGood(EMPTY_WORLD, cfg, hs[..n]);
      OneMoreHandled(w, cfg, hs[n], order);
      StageStep(cfg, hs, order);
      DueStep(cfg, order, hs[n].delivery, Settled(w, cfg, hs[n]), StageOf(cfg, hs[..n], order), View(w, order),
              View(Consume(EMPTY_WORLD, cfg, hs), order));
    }
  }

  lemma StageStep(cfg: Config, hs: seq<Handled>, order: string)
    requires hs != []
    ensures var n := |hs| - 1;
      var g, d := StageOf(cfg, hs[..n], order), hs[n].delivery;
      var settled := Settled(Consume(EMPTY_WORLD, cfg, hs[..n]), cfg, hs[n]);
      StageOf(cfg, hs, order) == Stage(g.placement || IsPlacement(d, order), g.placed || (IsPlacement(d, order) && settled),
                                       g.cancellation || IsCancellation(d, order),
                                       g.cancelled || (IsCancellation(d, order) && settled))
  {
    assert Deliveries(hs)[..|hs| - 1] == Deliveries(hs[..|hs| - 1]);
    LastDelivery(Deliveries(hs), order);
  }

  lemma DueStep(cfg: Config, order: string, d: Delivery, settled: bool, g: Stage, v: Option<Snapshot>, v': Option<Snapshot>)
    requires Due(cfg, order, g, v) && (IsCancellation(d, order) ==> g.placed)
    requires if !Concerns(d, order) then v' == v
             else Reaches(cfg, d, order, v, v') && (settled ==> v' == Target(cfg, d, order, v))
    ensures Due(cfg, order, Stage(g.placement || IsPlacement(d, order), g.placed || (IsPlacement(d, order) && settled),
                                  g.cancellation || IsCancellation(d, order),
                                  g.cancelled || (IsCancellation(d, order) && settled)), v')
  {}

  /** No payment that no placement has called for, and none that has failed or been refunded without a
      cancellation. */
  ghost predicate CalledFor(v: Option<Snapshot>, placed: bool, cancelled: bool) {
    v.Some? ==> placed && (v.value.status in {Pending, Paid} || cancelled)
  }

  /** So it is for every order, whatever is delivered and whatever fails. */
  lemma {:induction false} NothingUncalledFor(cfg: Config, hs: seq<Handled>, order: string)
    ensures var ds := Deliveries(hs);
      CalledFor(View(Consume(EMPTY_WORLD, cfg, hs), order), SomePlacement(ds, order), SomeCancellation(ds, order))
  {
    if hs != [] {
      var n := |hs| - 1;
      NothingUncalledFor(cfg, hs[..n], order);
      ConsumeKeepsGood(EMPTY_WORLD, cfg, hs[..n]);
      OneMoreCalledFor(Consume(EMPTY_WORLD, cfg, hs[..n]), cfg, hs[n], Deliveries(hs[..n]), order);
      assert Deliveries(hs) == Deliveries(hs[..n]) + [hs[n].delivery];
    }
  }

  lemma OneMoreCalledFor(w: World, cfg: Config, h: Handled, ds: seq<Delivery>, order: string)
    requires Good(w) && CalledFor(View(w, order), SomePlacement(ds, order), SomeCancellation(ds, order))
    ensures var ds' := ds + [h.delivery];
      CalledFor(View(AttemptAll(h.envs, w, cfg, h.delivery), order), SomePlacement(ds', order), SomeCancellation(ds', order))
  {
    OneMoreHandled(w, cfg, h, order);
    var ds' := ds + [h.delivery];
    LastDelivery(ds', order);
    assert ds'[..|ds|] == ds;
    CalledForStep(cfg, h.delivery, order, View(w, order), View(AttemptAll(h.envs, w, cfg, h.delivery), order),
                  SomePlacement(ds, order), SomeCancellation(ds, order));
  }

  lemma CalledForStep(cfg: Config, d: Delivery, order: string, v: Option<Snapshot>, v': Option<Snapshot>,
                      placed: bool, cancelled: bool)
    requires if !Concerns(d, order) then v' == v else Reaches(cfg, d, order, v, v')
    requires CalledFor(v, placed, cancelled)
    ensures CalledFor(v', placed || IsPlacement(d, order), cancelled || IsCancellation(d, order))
  {}

  /** The consumer has not gone on from a message of this order without success. */
  ghost predicate Kept(cfg: Config, hs: seq<Handled>, order: string) {
    hs == [] || var n := |hs| - 1;
      && Kept(cfg, hs[..n], order)
      && (Concerns(hs[n].delivery, order) && hs[n].passed ==> Settled(Consume(EMPTY_WORLD, cfg, hs[..n]), cfg, hs[n]))
  }

  ghost predicate Passed(hs: seq<Handled>, d: Delivery) { exists m :: 0 <= m < |hs| && hs[m].passed && hs[m].delivery == d }

  /** Then what it has gone on from has settled. */
  lemma {:induction false} PassedIsSettled(cfg: Config, hs: seq<Handled>, d: Delivery, order: string)
    requires Kept(cfg, hs, order) && Passed(hs, d) && Concerns(d, order)
    ensures if d.Placed? then PlacementSettled(cfg, hs, order) else CancellationSettled(cfg, hs, order)
  {
    var m :| 0 <= m < |hs| && hs[m].passed && hs[m].delivery == d;
    var n := |hs| - 1;
    if m < n {
      assert Passed(hs[..n], d) by { assert hs[..n][m] == hs[m]; }
      PassedIsSettled(cfg, hs[..n], d, order);
    } else {
      LastIsSettled(cfg, hs, order);
    }
  }

  lemma LastIsSettled(cfg: Config, hs: seq<Handled>, order: string)
    requires hs != [] && Kept(cfg, hs, order) && hs[|hs| - 1].passed && Concerns(hs[|hs| - 1].delivery, order)
    ensures if hs[|hs| - 1].delivery.Placed? then PlacementSettled(cfg, hs, order) else CancellationSettled(cfg, hs, order)
  {}

  // ----- lost placements -----

  /** From call c on, the lookup of each of n attempts fails, or it is followed by a refused insert. */
  predicate NeverIn(env: Env, c: nat, n: nat)
    decreases n
  {
    || n == 0
    || (env.outcome(c) != Done && NeverIn(env, c + 1, n - 1))
    || (env.outcome(c) == Done && env.outcome(c + 1) == Refused && NeverIn(env, c + 2, n - 1))
  }

  /** Exactly when a placement is lost: the retries leave no payment if and only if no attempt gets as
      far as inserting one. Everything after the insert may fail as well, and the payment is there. */
  lemma {:induction false} PlacementIsLost(env: Env, w: World, cfg: Config, orderId: string, order: string, n: nat)
    requires Good(w) && Usable(cfg) && Canonical(orderId) == Some(order) && View(w, order) == None
    ensures var w' := Attempts(env, w, cfg, Placed(orderId), n).0;
      Good(w') && (View(w', order) == None <==> NeverIn(env, w.calls, n))
    decreases n
  {
    if n > 0 {
      var d := Placed(orderId);
      var (w1, err) := Handle(env, w, cfg, d);
      FirstAttempt(env, w, cfg, orderId, order);
      if err != None && n > 1 {
        if View(w1, order) == None {
          PlacementIsLost(env, w1, cfg, orderId, order, n - 1);
        } else {
          PaymentStays(env, w1, cfg, d, order, n - 1);
        }
      }
      LostStep(env, w, w1, err, Attempts(env, w, cfg, d, n).0, order, n);
    }
  }

  lemma LostStep(env: Env, w: World, w1: World, err: Option<Error>, w': World, order: string, n: nat)
    requires n > 0 && FirstTry(env, w, w1, err, order)
    requires if err == None || n == 1 then w' == w1
             else Good(w') && (View(w', order) == None <==> View(w1, order) == None && NeverIn(env, w1.calls, n - 1))
    ensures Good(w') && (View(w', order) == None <==> NeverIn(env, w.calls, n))
  {}

  /** What the first attempt comes to, for an order without a payment. */
  ghost predicate FirstTry(env: Env, w: World, w': World, err: Option<Error>, order: string) {
    && Good(w')
    && (View(w', order) != None <==> env.outcome(w.calls) == Done && env.outcome(w.calls + 1) != Refused)
    && (View(w', order) == None ==> err != None && w'.calls == w.calls + if env.outcome(w.calls) != Done then 1 else 2)
  }

  lemma FirstAttempt(env: Env, w: World, cfg: Config, orderId: string, order: string)
    requires Good(w) && Usable(cfg) && Canonical(orderId) == Some(order) && View(w, order) == None
    ensures var (w', err) := HandlePlaced(env, w, cfg, orderId); FirstTry(env, w, w', err, order)
  {
    PlacesNew(env, w, cfg, orderId, order);
    if env.outcome(w.calls) == Done { InsertAttempt(env, w, cfg, orderId, order); }
  }

  lemma InsertAttempt(env: Env, w: World, cfg: Config, orderId: string, order: string)
    requires Good(w) && Usable(cfg) && Canonical(orderId) == Some(order) && View(w, order) == None
    requires env.outcome(w.calls) == Done
    ensures var (w', err) := PlaceNew(env, Tick(w), cfg, orderId); FirstTry(env, w, w', err, order)
  {
    var w' := PlaceNew(env, Tick(w), cfg, orderId).0;
    PlaceNewEffect(env, Tick(w), cfg, orderId, order);
    RefusedInsert(env, Tick(w), cfg, orderId, order);
    assert View(w', order) == Tail(w.rows, w'.rows) by { ViewsOfTail(w, w', order); }
  }

  lemma RefusedInsert(env: Env, w: World, cfg: Config, orderId: string, order: string)
    requires Good(w) && Usable(cfg) && Canonical(orderId) == Some(order)
    ensures env.outcome(w.calls) == Refused ==>
      var (w', err) := PlaceNew(env, w, cfg, orderId); err != None && w'.calls == w.calls + 1
  {
    CreateEffect(env, w, cfg, orderId, order);
  }

  lemma PaymentStays(env: Env, w: World, cfg: Config, d: Delivery, order: string, n: nat)
    requires Good(w) && View(w, order) != None
    ensures var w' := Attempts(env, w, cfg, d, n).0; Good(w') && View(w', order) != None
  {
    var envs := RetriesAreAttempts(env, w, cfg, d, n);
    AttemptAllEffect(envs, w, cfg, d);
  }

  /** In particular against a store that refuses everything, whatever the order id. */
  lemma {:induction false} FailedPlacementIsLost(env: Env, w: World, cfg: Config, orderId: string, n: nat)
    requires n > 0 && forall k :: env.outcome(k) == Refused
    ensures var (w', err) := Attempts(env, w, cfg, Placed(orderId), n);
      err == Some(StoreFailed) && w'.rows == w.rows
    decreases n
  {
    if n > 1 { FailedPlacementIsLost(env, Tick(w), cfg, orderId, n - 1); }
  }

  /** In the consumer's loop: once the last of these messages has been committed the offset is past it,
      and it will not come again; if it was a placement of an order without a payment, the payment is
      missing if and only if no attempt that the context allowed got as far as the insert. */
  lemma LoopLosesPlacement(env: Env, w: World, cfg: Config, ms: seq<Message>, maxAttempts: nat, q: nat -> Patience,
                           commits: nat -> bool, orderId: string, order: string)
    requires Good(w) && Usable(cfg) && ms != [] && commits(|ms| - 1)
    requires Decode(ms[|ms| - 1]) == Placed(orderId) && Canonical(orderId) == Some(order)
    requires View(HandleAll(env, w, cfg, ms[..|ms| - 1], maxAttempts, q), order) == None
    ensures var n := |ms| - 1;
      var before := HandleAll(env, w, cfg, ms[..n], maxAttempts, q);
      && Offset(commits, |ms|) == |ms|
      && (View(HandleAll(env, w, cfg, ms, maxAttempts, q), order) == None <==>
            NeverIn(env, before.calls, Allowed(q(n), 1, maxAttempts)))
  {
    var n := |ms| - 1;
    var hs := LoopIsConsume(env, w, cfg, ms[..n], maxAttempts, q);
    ConsumeKeepsGood(w, cfg, hs);
    PlacementIsLost(env, HandleAll(env, w, cfg, ms[..n], maxAttempts, q), cfg, orderId, order,
                    Allowed(q(n), 1, maxAttempts));
  }
}
