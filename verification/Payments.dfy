// The payment aggregate: payment/domain.
module Payments {
  import opened Wrappers
  import opened Text

  /** PaymentStatus is a string type; Unknown stands for every text that names none of the four. */
  datatype Status = Pending | Paid | Failed | Refunded | Unknown(text: string) {
    predicate IsValid() { !Unknown? }
  }

  datatype Error =
    | ValidationFailed
    | InvalidStateTransition
    | NotFound
    | StoreFailed
    | ProviderFailed
    | Undecodable
    | Interrupted

  datatype DomainEvent =
    | PaymentInitiated(paymentId: string, orderId: string, amount: int, currency: string)
    | PaymentPaid(paymentId: string, orderId: string)
    | PaymentFailed(paymentId: string, orderId: string, reason: string)
    | PaymentRefunded(paymentId: string, orderId: string)

  /** The fields of a payment, apart from its pending events. The zero time is 0. */
  datatype Snapshot = Snapshot(id: string, orderId: string, amount: int, currency: string,
                               status: Status, failureReason: string, createdAt: int)
  {
    /** What every payment that the domain can build satisfies. */
    ghost predicate WellFormed() {
      && Clean(id) && Clean(orderId) && amount > 0 && IsCurrency(currency)
      && status.IsValid() && createdAt != 0
      && Trimmed(failureReason) && (failureReason != "" <==> status == Failed)
    }
  }

  datatype Command = MarkPaid | MarkFailed(reason: string) | Refund

  function ValidateNewPayment(orderId: string, amount: int, currency: string): Result<(string, string), Error> {
    var o, c := Trim(orderId), Trim(currency);
    if o == "" || amount <= 0 || !IsCurrency(c) then Failure(ValidationFailed) else Success((o, c))
  }

  function ValidateFailureReason(reason: string): Result<string, Error> {
    if Trim(reason) == "" then Failure(ValidationFailed) else Success(Trim(reason))
  }

  /** validateReconstructedPayment: the normalised snapshot, or an error. */
  function Reconstruct(raw: Snapshot): Result<Snapshot, Error> {
    var p := raw.(id := Trim(raw.id), orderId := Trim(raw.orderId), currency := Trim(raw.currency),
                  failureReason := Trim(raw.failureReason));
    if p.id == "" || p.orderId == "" || p.amount <= 0 || !IsCurrency(p.currency)
       || !p.status.IsValid() || p.createdAt == 0 then Failure(ValidationFailed)
    else if p.status == Failed && p.failureReason == "" then Failure(ValidationFailed)
    else if p.status != Failed && p.failureReason != "" then Failure(ValidationFailed)
    else Success(p)
  }

  /** The domain transition of a command: the new snapshot and the events it records. */
  function Apply(p: Snapshot, c: Command): Result<(Snapshot, seq<DomainEvent>), Error> {
    match c
    case MarkPaid =>
      if p.status == Paid then Success((p, []))
      else if p.status == Pending then
        Success((p.(status := Paid, failureReason := ""), [PaymentPaid(p.id, p.orderId)]))
      else Failure(InvalidStateTransition)
    case MarkFailed(reason) =>
      (match ValidateFailureReason(reason)
       case Failure(e) => Failure(e)
       case Success(r) =>
         if p.status == Failed && p.failureReason == r then Success((p, []))
         else if p.status == Pending then
           Success((p.(status := Failed, failureReason := r), [PaymentFailed(p.id, p.orderId, r)]))
         else Failure(InvalidStateTransition))
    case Refund =>
      if p.status == Refunded then Success((p, []))
      else if p.status == Paid then
        Success((p.(status := Refunded), [PaymentRefunded(p.id, p.orderId)]))
      else Failure(InvalidStateTransition)
  }

  function NewSnapshot(id: string, orderId: string, amount: int, currency: string, now: int): Result<Snapshot, Error> {
    match ValidateNewPayment(orderId, amount, currency)
    case Failure(e) => Failure(e)
    case Success((o, c)) => Success(Snapshot(id, o, amount, c, Pending, "", now))
  }

  /** Any run of domain commands; a rejected command leaves the payment as it was. */
  function ApplyAll(p: Snapshot, cs: seq<Command>): Snapshot {
    if cs == [] then p else
      var q := ApplyAll(p, cs[..|cs| - 1]);
      match Apply(q, cs[|cs| - 1])
      case Success((r, _)) => r
      case Failure(_) => q
  }

  /** A new payment is well-formed, pending and made of the trimmed input; it is refused exactly on bad
      input. */
  lemma NewIsWellFormed(id: string, orderId: string, amount: int, currency: string, now: int)
    requires Clean(id) && now != 0
    ensures NewSnapshot(id, orderId, amount, currency, now).Success?
       <==> !Blank(orderId) && amount > 0 && |Trim(currency)| == 3 && forall c | c in Trim(currency) :: 'A' <= c <= 'Z'
    ensures var r := NewSnapshot(id, orderId, amount, currency, now);
      r.Success? ==> r.value.WellFormed() && r.value == Snapshot(id, Trim(orderId), amount, Trim(currency), Pending, "", now)
  {
    CapitalLetters(Trim(currency));
    BlankTrimsToEmpty(orderId);
    TrimFixesExactlyTheTrimmed(orderId);
  }

  /** Commands keep payments well-formed and never touch identity, amount or currency. */
  lemma ApplyKeeps(p: Snapshot, c: Command)
    requires p.WellFormed() && Apply(p, c).Success?
    ensures var (q, events) := Apply(p, c).value;
      && q.WellFormed()
      && q == p.(status := q.status, failureReason := q.failureReason)
      && (events == [] <==> q == p)
  {
    if c.MarkFailed? { TrimLandsTrimmed(c.reason); }
  }

  /** The status that a command leads to, and the reason that goes with it. */
  function Goal(c: Command): Status {
    match c
    case MarkPaid => Paid
    case MarkFailed(_) => Failed
    case Refund => Refunded
  }

  function Cause(c: Command): string { if c.MarkFailed? then Trim(c.reason) else "" }

  /** A payment takes the commands that lead on from its status, and those that have nothing left to do. */
  predicate Takes(p: Snapshot, c: Command) {
    match c
    case MarkPaid => p.status in {Pending, Paid}
    case MarkFailed(reason) =>
      !Blank(reason) && (p.status == Pending || (p.status == Failed && p.failureReason == Trim(reason)))
    case Refund => p.status in {Paid, Refunded}
  }

  /** Which commands are accepted, what they make of the payment and which event they record, and with which
      error the others are refused. */
  lemma Acceptance(p: Snapshot, c: Command)
    requires p.WellFormed()
    ensures Apply(p, c).Success? <==> Takes(p, c)
    ensures Apply(p, c).Success? ==>
      var (q, events) := Apply(p, c).value;
      && q == p.(status := Goal(c), failureReason := Cause(c))
      && events == if p.status == Goal(c) then [] else match c
           case MarkPaid => [PaymentPaid(p.id, p.orderId)]
           case MarkFailed(_) => [PaymentFailed(p.id, p.orderId, Cause(c))]
           case Refund => [PaymentRefunded(p.id, p.orderId)]
    ensures Apply(p, c).Failure? ==>
      Apply(p, c).error == if c.MarkFailed? && Blank(c.reason) then ValidationFailed else InvalidStateTransition
  {
    if c.MarkFailed? { BlankTrimsToEmpty(c.reason); }
  }

  /** The life cycle over any number of commands: failed and refunded are final, and a
      payment is refunded only by way of paid. */
  lemma {:induction false} LifeCycle(p: Snapshot, cs: seq<Command>)
    requires p.WellFormed()
    ensures ApplyAll(p, cs).WellFormed()
    ensures var q := ApplyAll(p, cs); q == p.(status := q.status, failureReason := q.failureReason)
    ensures p.status in {Failed, Refunded} ==> ApplyAll(p, cs) == p
    ensures p.status == Paid ==> ApplyAll(p, cs).status in {Paid, Refunded}
    ensures p.status == Pending && ApplyAll(p, cs).status == Refunded ==>
      exists k | 0 <= k < |cs| :: ApplyAll(p, cs[..k]).status == Paid
  {
    if cs != [] {
      var k := |cs| - 1;
      LifeCycle(p, cs[..k]);
      var q := ApplyAll(p, cs[..k]);
      if Apply(q, cs[k]).Success? { ApplyKeeps(q, cs[k]); }
      if p.status == Pending && ApplyAll(p, cs).status == Refunded && q.status != Paid {
        var j :| 0 <= j < k && ApplyAll(p, cs[..k][..j]).status == Paid;
        assert cs[..k][..j] == cs[..j];
      }
    }
  }

  /** Marking a payment again as what it already is: accepted without an event, for a failed one exactly
      if the reason is the same but for white space around it. */
  lemma MarkedAgain(p: Snapshot, c: Command)
    requires p.WellFormed() && ((p.status == Paid && c == MarkPaid) || (p.status == Failed && c.MarkFailed?))
    ensures Apply(p, c).Success? <==> c == MarkPaid || Trim(c.reason) == p.failureReason
    ensures Apply(p, c).Success? ==> Apply(p, c).value == (p, [])
  {}

  /** Reconstruction trims the texts and then accepts exactly the well-formed payments, so a well-formed
      one comes back unchanged. */
  lemma ReconstructIsWellFormed(raw: Snapshot)
    ensures raw.WellFormed() ==> Reconstruct(raw) == Success(raw)
    ensures var p := raw.(id := Trim(raw.id), orderId := Trim(raw.orderId), currency := Trim(raw.currency),
                          failureReason := Trim(raw.failureReason));
      Reconstruct(raw) == if p.WellFormed() then Success(p) else Failure(ValidationFailed)
  {
    if raw.WellFormed() {
      CurrencyIsClean(raw.currency);
      FixesTrimmed(raw.id); FixesTrimmed(raw.orderId);
      FixesTrimmed(raw.currency); FixesTrimmed(raw.failureReason);
    }
    TrimLandsTrimmed(raw.id); TrimLandsTrimmed(raw.orderId); TrimLandsTrimmed(raw.failureReason);
  }

  class Payment {
    var id: string
    var orderId: string
    var amount: int
    var currency: string
    var status: Status
    var failureReason: string
    var createdAt: int
    var events: seq<DomainEvent>

    function View(): Snapshot
      reads this
    {
      Snapshot(id, orderId, amount, currency, status, failureReason, createdAt)
    }

    constructor (p: Snapshot, events: seq<DomainEvent>)
      ensures View() == p && this.events == events
    {
      id, orderId, amount, currency := p.id, p.orderId, p.amount, p.currency;
      status, failureReason, createdAt := p.status, p.failureReason, p.createdAt;
      this.events := events;
    }

    method MarkPaid() returns (err: Option<Error>)
      modifies this`status, this`failureReason, this`events
      ensures Applied(Command.MarkPaid, old(View()), old(events), err)
    {
      match status {
        case Paid => err := None;
        case Pending =>
          status := Paid;
          failureReason := "";
          events := events + [PaymentPaid(id, orderId)];
          err := None;
        case _ => err := Some(InvalidStateTransition);
      }
    }

    method MarkFailed(reason: string) returns (err: Option<Error>)
      modifies this`status, this`failureReason, this`events
      ensures Applied(Command.MarkFailed(reason), old(View()), old(events), err)
    {
      var normalized := ValidateFailureReason(reason);
      if normalized.Failure? { return Some(normalized.error); }
      match status {
        case Failed =>
          if failureReason == normalized.value { return None; }
          err := Some(InvalidStateTransition);
        case Pending =>
          status := Failed;
          failureReason := normalized.value;
          events := events + [PaymentFailed(id, orderId, normalized.value)];
          err := None;
        case _ => err := Some(InvalidStateTransition);
      }
    }

    method Refund() returns (err: Option<Error>)
      modifies this`status, this`events
      ensures Applied(Command.Refund, old(View()), old(events), err)
    {
      match status {
        case Refunded => err := None;
        case Paid =>
          status := Refunded;
          events := events + [PaymentRefunded(id, orderId)];
          err := None;
        case _ => err := Some(InvalidStateTransition);
      }
    }

    method FlushEvents() returns (flushed: seq<DomainEvent>)
      modifies this`events
      ensures flushed == old(events) && events == []
    {
      flushed := events;
      events := [];
    }

    /** This object now is what the command makes of the payment `was` with pending events `pending`. */
    ghost predicate Applied(c: Command, was: Snapshot, pending: seq<DomainEvent>, err: Option<Error>)
      reads this
    {
      match Apply(was, c)
      case Success((p, recorded)) => View() == p && events == pending + recorded && err == None
      case Failure(e) => View() == was && events == pending && err == Some(e)
    }
  }

  method NewPayment(id: string, orderId: string, amount: int, currency: string, now: int)
    returns (r: Result<Payment, Error>)
    ensures match NewSnapshot(id, orderId, amount, currency, now)
      case Success(p) =>
        r.Success? && fresh(r.value) && r.value.View() == p
        && r.value.events == [PaymentInitiated(p.id, p.orderId, p.amount, p.currency)]
      case Failure(e) => r == Failure(e)
  {
    var valid := ValidateNewPayment(orderId, amount, currency);
    if valid.Failure? { return Failure(valid.error); }
    var (o, c) := valid.value;
    var payment := new Payment(Snapshot(id, o, amount, c, Pending, "", now),
                               [PaymentInitiated(id, o, amount, c)]);
    return Success(payment);
  }
}
