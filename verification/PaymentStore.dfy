// What the payment service works on outside its own memory, one call at a time: the payments
// table, the payment_outbox table and the payment provider
// (payment/infrastructure/persistence and payment/application/payment_provider.go).
module PaymentStore {
  import opened Wrappers
  import opened Faults
  import opened Text
  import opened Uuids
  import opened Payments

  type Instant = t: int | t > 0 witness 1

  /** Outcome and time of every outside call, by the number of calls made before it. */
  datatype Env = Env(outcome: nat -> Outcome, clock: nat -> Instant)

  /** A row of the payments table; id and order_id are UUID columns, and rows stand in the order of
      their created_at. */
  datatype Row = Row(id: string, orderId: string, amount: int, currency: string, status: Status,
                     failureReason: Option<string>, paidAt: Option<Instant>, createdAt: Instant)

  datatype Payload =
    | Amount(version: nat, orderId: string, paymentId: string, amount: int, currency: string)
    | Reason(version: nat, orderId: string, paymentId: string, reason: string)

  datatype EventName = PaymentConfirmed | PaymentFailed | PaymentRefunded

  /** A row of the payment_outbox table; its aggregate_type is always payment. */
  datatype Record = Record(aggregateId: string, eventName: EventName, eventVersion: nat, payload: Payload)

  /** Provider calls and saves, as they really ended. */
  datatype Effect =
    | CaptureCall(id: string, amount: int, currency: string, outcome: Outcome)
    | RefundCall(id: string, outcome: Outcome)
    | SaveCall(id: string, status: Status, outcome: Outcome)

  /** issued counts the payment ids taken from the supply, calls the outside calls. */
  datatype World = World(rows: seq<Row>, outbox: seq<Record>, log: seq<Effect>, issued: nat, calls: nat)

  const EMPTY_WORLD := World([], [], [], 0, 0)

  /** One past the largest amount that DECIMAL(10, 2) holds. */
  const AMOUNT_LIMIT := 100_000_000

  predicate FitsColumn(amount: int) { -AMOUNT_LIMIT < amount < AMOUNT_LIMIT }

  // ----- lookups -----

  /** The row with this primary key, or |rows|. */
  function IndexOf(rows: seq<Row>, id: string): (i: nat)
    ensures i <= |rows|
    ensures i < |rows| ==> rows[i].id == id
    ensures forall j | 0 <= j < i :: rows[j].id != id
  {
    IndexFrom(rows, id, 0)
  }

  function IndexFrom(rows: seq<Row>, id: string, from: nat): (i: nat)
    requires from <= |rows|
    ensures from <= i <= |rows|
    ensures i < |rows| ==> rows[i].id == id
    ensures forall j | from <= j < i :: rows[j].id != id
    decreases |rows| - from
  {
    if from == |rows| || rows[from].id == id then from else IndexFrom(rows, id, from + 1)
  }

  /** The newest row of an order, or |rows|. */
  function LatestFor(rows: seq<Row>, orderId: string): (i: nat)
    ensures i <= |rows|
    ensures i < |rows| ==> rows[i].orderId == orderId && forall j | i < j < |rows| :: rows[j].orderId != orderId
    ensures i == |rows| ==> forall j | 0 <= j < |rows| :: rows[j].orderId != orderId
  {
    LatestBelow(rows, orderId, |rows|)
  }

  function LatestBelow(rows: seq<Row>, orderId: string, below: nat): (i: nat)
    requires below <= |rows|
    ensures i < below || i == |rows|
    ensures i < |rows| ==> rows[i].orderId == orderId && forall j | i < j < below :: rows[j].orderId != orderId
    ensures i == |rows| ==> forall j | 0 <= j < below :: rows[j].orderId != orderId
  {
    if below == 0 then |rows|
    else if rows[below - 1].orderId == orderId then below - 1
    else LatestBelow(rows, orderId, below - 1)
  }

  // ----- mapping between payments, rows and records -----

  /** The columns that getOne scans, with COALESCE(failure_reason, ''). */
  function Scanned(row: Row): Snapshot {
    Snapshot(row.id, row.orderId, row.amount, row.currency, row.status,
             if row.failureReason.Some? then row.failureReason.value else "", row.createdAt)
  }

  /** Whether the columns take this payment: the amount fits, and both ids are UUIDs. */
  predicate Storable(p: Snapshot) { FitsColumn(p.amount) && Canonical(p.id).Some? && Canonical(p.orderId).Some? }

  /** The payment as the columns give it back. */
  function Stored(p: Snapshot): Snapshot
    requires Storable(p)
  {
    p.(id := Canonical(p.id).value, orderId := Canonical(p.orderId).value)
  }

  /** The upserted row: on conflict, created_at stays and paid_at is set once. */
  function Upserted(p: Snapshot, was: Option<Row>, now: Instant): Row {
    var reason := if p.failureReason == "" then None else Some(p.failureReason);
    match was
    case None => Row(p.id, p.orderId, p.amount, p.currency, p.status, reason, None, now)
    case Some(previous) =>
      Row(p.id, p.orderId, p.amount, p.currency, p.status, reason,
          if p.status == Paid && previous.paidAt == None then Some(now) else previous.paidAt, previous.createdAt)
  }

  function Upsert(rows: seq<Row>, p: Snapshot, now: Instant): seq<Row> {
    var i := IndexOf(rows, p.id);
    if i == |rows| then rows + [Upserted(p, None, now)] else rows[i := Upserted(p, Some(rows[i]), now)]
  }

  /** mapDomainEventToOutboxRecord: PaymentInitiated stays inside the service. */
  function MapEvent(p: Snapshot, event: DomainEvent): Option<Record> {
    match event
    case PaymentPaid(id, orderId) =>
      Some(Record(id, EventName.PaymentConfirmed, 1, Amount(1, orderId, id, p.amount, p.currency)))
    case PaymentFailed(id, orderId, reason) =>
      Some(Record(id, EventName.PaymentFailed, 1, Reason(1, orderId, id, reason)))
    case PaymentRefunded(id, orderId) =>
      Some(Record(id, EventName.PaymentRefunded, 1, Amount(1, orderId, id, p.amount, p.currency)))
    case PaymentInitiated(_, _, _, _) => None
  }

  function MapEvents(p: Snapshot, events: seq<DomainEvent>): seq<Record> {
    if events == [] then [] else
      var n := |events| - 1;
      MapEvents(p, events[..n]) + (match MapEvent(p, events[n]) case Some(r) => [r] case None => [])
  }

  /** The records of some events are those of each, in order. */
  lemma {:induction false} MapEventsInOrder(p: Snapshot, a: seq<DomainEvent>, b: seq<DomainEvent>)
    ensures MapEvents(p, a + b) == MapEvents(p, a) + MapEvents(p, b)
    ensures |b| == 1 ==> MapEvents(p, b) == match MapEvent(p, b[0]) case Some(r) => [r] case None => []
  {
    if b == [] {
      assert a + b == a;
    } else {
      var n := |b| - 1;
      MapEventsInOrder(p, a, b[..n]);
      var last := match MapEvent(p, b[n]) case Some(r) => [r] case None => [];
      assert (a + b)[..|a + b| - 1] == a + b[..n] && (a + b)[|a + b| - 1] == b[n];
      assert MapEvents(p, a + b) == MapEvents(p, a + b[..n]) + last;
      assert MapEvents(p, b) == MapEvents(p, b[..n]) + last;
    }
  }

  // ----- the outside calls as state changes -----

  function Tick(w: World): World { w.(calls := w.calls + 1) }

  function LoadStep(env: Env, w: World, index: nat): (World, Result<Snapshot, Error>) {
    var r :=
      if env.outcome(w.calls) != Done then Failure(StoreFailed)
      else if index >= |w.rows| then Failure(NotFound)
      else match Reconstruct(Scanned(w.rows[index]))
           case Success(p) => Success(p)
           case Failure(_) => Failure(StoreFailed);
    (Tick(w), r)
  }

  /** The lookup by primary key; text that is no UUID is an error of the database, not an absence. */
  function LoadById(env: Env, w: World, id: string): (World, Result<Snapshot, Error>) {
    match Canonical(id)
    case None => (Tick(w), Failure(StoreFailed))
    case Some(key) => LoadStep(env, w, IndexOf(w.rows, key))
  }

  /** The lookup of an order's newest payment, likewise. */
  function LoadByOrder(env: Env, w: World, orderId: string): (World, Result<Snapshot, Error>) {
    match Canonical(orderId)
    case None => (Tick(w), Failure(StoreFailed))
    case Some(key) => LoadStep(env, w, LatestFor(w.rows, key))
  }

  /** What a lookup finds: nothing is found only if the call is done and the id is a UUID; text that is none
      is an error, whatever the call. */
  lemma Lookups(env: Env, w: World, id: string)
    ensures var key, o := Canonical(id), env.outcome(w.calls);
      && (LoadById(env, w, id).1 == Failure(NotFound) <==>
            o == Done && key.Some? && forall i | 0 <= i < |w.rows| :: w.rows[i].id != key.value)
      && (LoadByOrder(env, w, id).1 == Failure(NotFound) <==>
            o == Done && key.Some? && forall i | 0 <= i < |w.rows| :: w.rows[i].orderId != key.value)
  {}

  function SaveStep(env: Env, w: World, p: Snapshot, events: seq<DomainEvent>): (World, Option<Error>) {
    var o := env.outcome(w.calls);
    if !Storable(p) || o == Refused then
      (w.(log := w.log + [SaveCall(p.id, p.status, Refused)], calls := w.calls + 1), Some(StoreFailed))
    else
      (World(Upsert(w.rows, Stored(p), env.clock(w.calls)), w.outbox + MapEvents(p, events),
             w.log + [SaveCall(p.id, p.status, o)], w.issued, w.calls + 1),
       if o == Done then None else Some(StoreFailed))
  }

  function CaptureStep(env: Env, w: World, id: string, amount: int, currency: string): (World, Option<Error>) {
    var o := env.outcome(w.calls);
    (Tick(w).(log := w.log + [CaptureCall(id, amount, currency, o)]), if o == Done then None else Some(ProviderFailed))
  }

  function RefundStep(env: Env, w: World, id: string): (World, Option<Error>) {
    var o := env.outcome(w.calls);
    (Tick(w).(log := w.log + [RefundCall(id, o)]), if o == Done then None else Some(ProviderFailed))
  }

  // ----- the round trip -----

  /** Every payment that any run of domain commands can reach, saved and loaded again without a
      fault: the save succeeds exactly if both ids are UUIDs and the amount has at most eight digits; then
      the payment comes back as it was but for the ids, which are canonical, and created_at, which is the table's own; so it comes
      back equal exactly if its ids are their own canonical text. */
  lemma RoundTrip(env: Env, w: World, p: Snapshot, cs: seq<Command>, events: seq<DomainEvent>)
    requires p.WellFormed()
    requires env.outcome(w.calls) == Done && env.outcome(w.calls + 1) == Done
    ensures var q := ApplyAll(p, cs);
      var (saved, err) := SaveStep(env, w, q, events);
      var loaded := LoadById(env, saved, q.id).1;
      && (err == None <==> Canonical(p.id).Some? && Canonical(p.orderId).Some? && p.amount <= 99_999_999)
      && (err == None ==> loaded.Success? && Stored(q) == loaded.value.(createdAt := q.createdAt))
      && ((err == None && loaded.Success? && loaded.value.(createdAt := q.createdAt) == q)
            <==> IsUuid(p.id) && IsUuid(p.orderId) && p.amount <= 99_999_999)
  {
    LifeCycle(p, cs);
    var q := ApplyAll(p, cs);
    if Storable(q) { StoredComesBack(env, w, q, events); }
  }

  lemma StoredComesBack(env: Env, w: World, q: Snapshot, events: seq<DomainEvent>)
    requires q.WellFormed() && Storable(q)
    requires env.outcome(w.calls) == Done && env.outcome(w.calls + 1) == Done
    ensures var saved := SaveStep(env, w, q, events).0;
      var loaded := LoadById(env, saved, q.id).1;
      loaded.Success? && Stored(q) == loaded.value.(createdAt := q.createdAt)
  {
    var r, saved := Stored(q), SaveStep(env, w, q, events).0;
    assert r.WellFormed() by {
      CanonicalIsUuid(q.id);
      CanonicalIsUuid(q.orderId);
    }
    assert saved.rows == Upsert(w.rows, r, env.clock(w.calls)) && saved.calls == w.calls + 1;
    UpsertedComesBack(w.rows, r, env.clock(w.calls));
    assert LoadById(env, saved, q.id) == LoadStep(env, saved, IndexOf(saved.rows, r.id));
  }

  lemma UpsertedComesBack(rows: seq<Row>, p: Snapshot, now: Instant)
    requires p.WellFormed()
    ensures var after := Upsert(rows, p, now);
      var i := IndexOf(after, p.id);
      i < |after| && Reconstruct(Scanned(after[i])) == Success(p.(createdAt := after[i].createdAt))
  {
    UpsertLookup(rows, p, now);
    var after := Upsert(rows, p, now);
    var row := after[IndexOf(after, p.id)];
    assert Scanned(row) == p.(createdAt := row.createdAt);
    ReconstructIsWellFormed(Scanned(row));
  }

  lemma UpsertLookup(rows: seq<Row>, p: Snapshot, now: Instant)
    ensures var i := IndexOf(rows, p.id);
      var after := Upsert(rows, p, now);
      && IndexOf(after, p.id) == i < |after|
      && after[i] == Upserted(p, if i < |rows| then Some(rows[i]) else None, now)
      && |after| == (if i < |rows| then |rows| else |rows| + 1)
      && forall j | 0 <= j < |rows| && j != i :: after[j] == rows[j]
  {
    var i := IndexOf(rows, p.id);
    var after := Upsert(rows, p, now);
    assert after[i].id == p.id;
    assert forall j | 0 <= j < i :: after[j] == rows[j];
    assert IndexOf(after, p.id) >= i;
  }

  /** What a committed save makes of the columns that the domain does not see. created_at is the time of
      the insert and stays. paid_at is set once, by the first update to paid, to the time of that save; an
      insert leaves it null whatever the status. An empty reason is stored as null. */
  lemma PaidAtAfterSave(env: Env, w: World, p: Snapshot, events: seq<DomainEvent>)
    requires Storable(p) && env.outcome(w.calls) != Refused
    ensures var i, rows, now := IndexOf(w.rows, Stored(p).id), SaveStep(env, w, p, events).0.rows, env.clock(w.calls);
      && i < |rows| && IndexOf(rows, Stored(p).id) == i
      && (rows[i].failureReason == None <==> p.failureReason == "")
      && if i == |w.rows| then rows[i].paidAt == None && rows[i].createdAt == now
         else
           && rows[i].createdAt == w.rows[i].createdAt
           && rows[i].paidAt == if w.rows[i].paidAt.None? && p.status == Paid then Some(now) else w.rows[i].paidAt
  {
    UpsertLookup(w.rows, Stored(p), env.clock(w.calls));
  }

  // ----- the source's own form -----

  /** The database and the provider behind one connection pool and one HTTP client. */
  class Backend {
    const env: Env
    var rows: seq<Row>
    var outbox: seq<Record>
    var log: seq<Effect>
    var issued: nat
    var calls: nat

    constructor (env: Env)
      ensures this.env == env && State() == EMPTY_WORLD
    {
      this.env := env;
      rows, outbox, log, issued, calls := [], [], [], 0, 0;
    }

    function State(): World
      reads this
    {
      World(rows, outbox, log, issued, calls)
    }

    /** uuid.NewString */
    method NewId() returns (id: string)
      modifies this`issued
      ensures id == Uuid(old(issued)) && State() == old(State()).(issued := old(issued) + 1)
    {
      id := Uuid(issued);
      issued := issued + 1;
    }
  }

  class PaymentRepository {
    const backend: Backend

    constructor (backend: Backend)
      ensures this.backend == backend
    {
      this.backend := backend;
    }

    method GetByID(id: string) returns (r: Result<Payment, Error>)
      modifies backend`calls
      ensures Loaded(LoadById(backend.env, old(backend.State()), id), r)
      ensures r.Success? ==> fresh(r.value)
    {
      r := GetOne(match Canonical(id) case Some(key) => Some(IndexOf(backend.rows, key)) case None => None);
    }

    method GetByOrderID(orderId: string) returns (r: Result<Payment, Error>)
      modifies backend`calls
      ensures Loaded(LoadByOrder(backend.env, old(backend.State()), orderId), r)
      ensures r.Success? ==> fresh(r.value)
    {
      r := GetOne(match Canonical(orderId) case Some(key) => Some(LatestFor(backend.rows, key)) case None => None);
    }

    /** Scans the row that the query selects and reconstructs the payment; None is a query whose
        argument the column refuses. */
    method GetOne(index: Option<nat>) returns (r: Result<Payment, Error>)
      modifies backend`calls
      ensures Loaded(if index.Some? then LoadStep(backend.env, old(backend.State()), index.value)
                     else (Tick(old(backend.State())), Failure(StoreFailed)), r)
      ensures r.Success? ==> fresh(r.value)
    {
      var outcome := backend.env.outcome(backend.calls);
      backend.calls := backend.calls + 1;
      if outcome != Done || index.None? { return Failure(StoreFailed); }
      if index.value >= |backend.rows| { return Failure(NotFound); }
      var payment := Reconstruct(Scanned(backend.rows[index.value]));
      if payment.Failure? { return Failure(StoreFailed); }
      var p := new Payment(payment.value, []);
      r := Success(p);
    }

    /** One transaction: upsert the row, append the records of the events, commit. */
    method Save(payment: Payment, events: seq<DomainEvent>) returns (err: Option<Error>)
      modifies backend`rows, backend`outbox, backend`log, backend`calls
      ensures (backend.State(), err) == SaveStep(backend.env, old(backend.State()), payment.View(), events)
    {
      var outcome, now := backend.env.outcome(backend.calls), backend.env.clock(backend.calls);
      if !Storable(payment.View()) { outcome := Refused; }
      backend.calls := backend.calls + 1;

      var rows := if outcome != Refused then Upsert(backend.rows, Stored(payment.View()), now) else backend.rows;
      var outbox := backend.outbox;
      for i := 0 to |events|
        invariant outbox == backend.outbox + MapEvents(payment.View(), events[..i])
      {
        var record := MapEvent(payment.View(), events[i]);
        assert events[..i + 1][..i] == events[..i];
        if record.Some? { outbox := outbox + [record.value]; }
      }
      assert events[..|events|] == events;

      if outcome != Refused { backend.rows, backend.outbox := rows, outbox; }
      backend.log := backend.log + [SaveCall(payment.id, payment.status, outcome)];
      err := if outcome == Done then None else Some(StoreFailed);
    }

    /** A load that leads to this world and this result has ended in `r`. */
    ghost predicate Loaded(after: (World, Result<Snapshot, Error>), r: Result<Payment, Error>)
      reads backend, if r.Success? then {r.value} else {}
    {
      && backend.State() == after.0
      && match after.1
         case Success(p) => r.Success? && r.value.View() == p && r.value.events == []
         case Failure(e) => r == Failure(e)
    }
  }

  class PaymentProvider {
    const backend: Backend

    constructor (backend: Backend)
      ensures this.backend == backend
    {
      this.backend := backend;
    }

    method Capture(id: string, amount: int, currency: string) returns (err: Option<Error>)
      modifies backend`log, backend`calls
      ensures (backend.State(), err) == CaptureStep(backend.env, old(backend.State()), id, amount, currency)
    {
      var outcome := backend.env.outcome(backend.calls);
      backend.calls := backend.calls + 1;
      backend.log := backend.log + [CaptureCall(id, amount, currency, outcome)];
      err := if outcome == Done then None else Some(ProviderFailed);
    }

    method Refund(id: string) returns (err: Option<Error>)
      modifies backend`log, backend`calls
      ensures (backend.State(), err) == RefundStep(backend.env, old(backend.State()), id)
    {
      var outcome := backend.env.outcome(backend.calls);
      backend.calls := backend.calls + 1;
      backend.log := backend.log + [RefundCall(id, outcome)];
      err := if outcome == Done then None else Some(ProviderFailed);
    }
  }
}
