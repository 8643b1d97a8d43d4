// The payment service: payment/application/payment_service.go. A command loads the payment,
// changes it, calls the provider and saves it, with nothing that keeps another command on the
// same payment from running in between.
module PaymentCommands {
  import opened Wrappers
  import opened Faults
  import opened Text
  import opened Uuids
  import opened Payments
  import opened PaymentStore

  // ----- one command at a time -----

  /** The provider call between the domain change and the save. */
  function Charge(env: Env, w: World, c: Command, p: Snapshot): (World, Option<Error>) {
    match c
    case MarkPaid => CaptureStep(env, w, p.id, p.amount, p.currency)
    case MarkFailed(_) => (w, None)
    case Refund => RefundStep(env, w, p.id)
  }

  function Execute(env: Env, w: World, id: string, c: Command): (World, Option<Error>) {
    var (w1, loaded) := LoadById(env, w, id);
    match loaded
    case Failure(e) => (w1, Some(e))
    case Success(p) =>
      match Apply(p, c)
      case Failure(e) => (w1, Some(e))
      case Success((q, events)) => ChargeAndSave(env, w1, c, q, events)
  }

  /** The second half of a command: the provider, then the save. */
  function ChargeAndSave(env: Env, w: World, c: Command, q: Snapshot, events: seq<DomainEvent>): (World, Option<Error>) {
    var (w1, err) := Charge(env, w, c, q);
    if err.Some? then (w1, err) else SaveStep(env, w1, q, events)
  }

  function CreateStep(env: Env, w: World, orderId: string, amount: int, currency: string): (World, Result<string, Error>) {
    var w1 := w.(issued := w.issued + 1);
    match NewSnapshot(Uuid(w.issued), orderId, amount, currency, env.clock(w.calls))
    case Failure(e) => (w1, Failure(e))
    case Success(p) => SaveNew(env, w1, p)
  }

  function SaveNew(env: Env, w: World, p: Snapshot): (World, Result<string, Error>) {
    var (w1, err) := SaveStep(env, w, p, [PaymentInitiated(p.id, p.orderId, p.amount, p.currency)]);
    (w1, if err.Some? then Failure(err.value) else Success(p.id))
  }

  class PaymentService {
    const backend: Backend
    const repository: PaymentRepository
    const provider: PaymentProvider

    ghost predicate Valid() { repository.backend == backend && provider.backend == backend }

    constructor (backend: Backend)
      ensures Valid() && this.backend == backend
    {
      this.backend := backend;
      repository := new PaymentRepository(backend);
      provider := new PaymentProvider(backend);
    }

    method Create(orderId: string, amount: int, currency: string) returns (r: Result<string, Error>)
      requires Valid()
      modifies backend
      ensures (backend.State(), r) == CreateStep(backend.env, old(backend.State()), orderId, amount, currency)
    {
      var now := backend.env.clock(backend.calls);
      var id := backend.NewId();
      var payment := NewPayment(id, orderId, amount, currency, now);
      if payment.Failure? { return Failure(payment.error); }
      var err := PersistNew(payment.value);
      r := if err.Some? then Failure(err.value) else Success(payment.value.id);
    }

    method MarkPaid(id: string) returns (err: Option<Error>)
      requires Valid()
      modifies backend
      ensures (backend.State(), err) == Execute(backend.env, old(backend.State()), id, Command.MarkPaid)
    {
      var payment := repository.GetByID(id);
      if payment.Failure? { return Some(payment.error); }
      err := payment.value.MarkPaid();
      if err.Some? { return; }
      assert Execute(backend.env, old(backend.State()), id, Command.MarkPaid)
          == ChargeAndSave(backend.env, backend.State(), Command.MarkPaid, payment.value.View(), payment.value.events);
      err := ChargeAndPersist(Command.MarkPaid, payment.value);
    }

    method MarkFailed(id: string, reason: string) returns (err: Option<Error>)
      requires Valid()
      modifies backend
      ensures (backend.State(), err) == Execute(backend.env, old(backend.State()), id, Command.MarkFailed(reason))
    {
      var payment := repository.GetByID(id);
      if payment.Failure? { return Some(payment.error); }
      err := payment.value.MarkFailed(reason);
      if err.Some? { return; }
      assert Execute(backend.env, old(backend.State()), id, Command.MarkFailed(reason))
          == ChargeAndSave(backend.env, backend.State(), Command.MarkFailed(reason),
                           payment.value.View(), payment.value.events);
      err := ChargeAndPersist(Command.MarkFailed(reason), payment.value);
    }

    method Refund(id: string) returns (err: Option<Error>)
      requires Valid()
      modifies backend
      ensures (backend.State(), err) == Execute(backend.env, old(backend.State()), id, Command.Refund)
    {
      var payment := repository.GetByID(id);
      if payment.Failure? { return Some(payment.error); }
      err := payment.value.Refund();
      if err.Some? { return; }
      assert Execute(backend.env, old(backend.State()), id, Command.Refund)
          == ChargeAndSave(backend.env, backend.State(), Command.Refund, payment.value.View(), payment.value.events);
      err := ChargeAndPersist(Command.Refund, payment.value);
    }

    /** The end of a command: the provider's part, if it has one, and then the save. */
    method ChargeAndPersist(c: Command, payment: Payment) returns (err: Option<Error>)
      requires Valid()
      modifies backend`rows, backend`outbox, backend`log, backend`calls, payment`events
      ensures (backend.State(), err)
           == ChargeAndSave(backend.env, old(backend.State()), c, payment.View(), old(payment.events))
    {
      match c {
        case MarkPaid => err := provider.Capture(payment.id, payment.amount, payment.currency);
        case MarkFailed(_) => err := None;
        case Refund => err := provider.Refund(payment.id);
      }
      if err.Some? { return; }
      err := Persist(payment);
    }

    /** The end of Create. */
    method PersistNew(payment: Payment) returns (err: Option<Error>)
      requires Valid()
      requires payment.events
            == [PaymentInitiated(payment.id, payment.orderId, payment.amount, payment.currency)]
      modifies backend`rows, backend`outbox, backend`log, backend`calls, payment`events
      ensures (backend.State(), if err.Some? then Failure(err.value) else Success(payment.id))
           == SaveNew(backend.env, old(backend.State()), payment.View())
    {
      err := Persist(payment);
    }

    method Persist(payment: Payment) returns (err: Option<Error>)
      requires Valid()
      modifies backend`rows, backend`outbox, backend`log, backend`calls, payment`events
      ensures (backend.State(), err)
           == SaveStep(backend.env, old(backend.State()), payment.View(), old(payment.events))
    {
      var events := payment.FlushEvents();
      err := repository.Save(payment, events);
    }
  }
}
