// The order service up to its outbox: order/domain/order.go, order/application/order_service.go,
// order/application/event_upcaster.go and the order repository.
module Orders {
  import opened Wrappers
  import opened Faults
  import opened Text
  import opened Uuids

  /** OrderStatus is a string type; Unknown stands for every text that names none of the four. */
  datatype Status = Draft | Placed | Confirmed | Cancelled | Unknown(text: string) {
    predicate IsValid() { !Unknown? }
  }

  datatype Error = ValidationFailed | InvalidStateTransition | StoreFailed

  const MAX_QUANTITY := 50
  const MIN_REASON := 5

  datatype DomainEvent =
    | OrderPlaced(orderId: string, userId: string, itemId: string, quantity: nat)
    | OrderConfirmed(orderId: string)
    | OrderCancelled(orderId: string, reason: string)

  datatype IntegrationEvent =
    | PlacedV1(orderId: string, userId: string, itemId: string, quantity: nat)
    | PlacedV2(orderId: string, customerId: string, itemId: string, quantity: nat)
    | CancelledV1(orderId: string, reason: string)

  datatype Snapshot = Snapshot(id: string, userId: string, itemId: string, quantity: nat, status: Status) {
    ghost predicate WellFormed() {
      Clean(id) && Clean(userId) && Clean(itemId) && 0 < quantity <= MAX_QUANTITY && status.IsValid()
    }
  }

  datatype Command = Place | Confirm | Cancel(reason: string)

  // ----- the aggregate -----

  function NewDraft(id: string, userId: string, itemId: string, quantity: nat): Result<Snapshot, Error> {
    if Trim(userId) == "" || Trim(itemId) == "" || quantity == 0 || quantity > MAX_QUANTITY
    then Failure(ValidationFailed)
    else Success(Snapshot(id, Trim(userId), Trim(itemId), quantity, Draft))
  }

  function Reconstruct(raw: Snapshot): Result<Snapshot, Error> {
    var o := raw.(id := Trim(raw.id), userId := Trim(raw.userId), itemId := Trim(raw.itemId));
    if o.id == "" || o.userId == "" || o.itemId == "" || o.quantity == 0 || o.quantity > MAX_QUANTITY
       || !o.status.IsValid() then Failure(ValidationFailed) else Success(o)
  }

  function Apply(o: Snapshot, c: Command): Result<(Snapshot, DomainEvent), Error> {
    match c
    case Place =>
      if o.status != Draft then Failure(InvalidStateTransition)
      else Success((o.(status := Placed), OrderPlaced(o.id, o.userId, o.itemId, o.quantity)))
    case Confirm =>
      if o.status != Placed then Failure(InvalidStateTransition)
      else Success((o.(status := Confirmed), OrderConfirmed(o.id)))
    case Cancel(reason) =>
      if ByteLength(Trim(reason)) < MIN_REASON then Failure(ValidationFailed)
      else if o.status != Placed then Failure(InvalidStateTransition)
      else Success((o.(status := Cancelled), OrderCancelled(o.id, Trim(reason))))
  }

  /** Reconstruction trims the texts and then accepts exactly the well-formed orders. */
  lemma ReconstructIsWellFormed(raw: Snapshot)
    ensures var o := raw.(id := Trim(raw.id), userId := Trim(raw.userId), itemId := Trim(raw.itemId));
      Reconstruct(raw) == if o.WellFormed() then Success(o) else Failure(ValidationFailed)
    ensures raw.WellFormed() ==> 0 < raw.quantity <= 50
  {
    TrimLandsTrimmed(raw.id); TrimLandsTrimmed(raw.userId); TrimLandsTrimmed(raw.itemId);
  }

  /** A draft can be placed, and a placed order confirmed, or cancelled with reason enough. */
  predicate Takes(o: Snapshot, c: Command) {
    match c
    case Place => o.status == Draft
    case Confirm => o.status == Placed
    case Cancel(reason) => o.status == Placed && LongEnough(reason)
  }

  predicate LongEnough(reason: string) { NonSpace(reason) + Surplus(Trim(reason)) >= 5 }

  /** Which commands are accepted, what they make of the order and which event they record, and with which
      error the others are refused. */
  lemma Acceptance(o: Snapshot, c: Command)
    ensures Apply(o, c) ==
      if !Takes(o, c) then
        Failure(if c.Cancel? && !LongEnough(c.reason) then ValidationFailed else InvalidStateTransition)
      else match c
        case Place => Success((o.(status := Placed), OrderPlaced(o.id, o.userId, o.itemId, o.quantity)))
        case Confirm => Success((o.(status := Confirmed), OrderConfirmed(o.id)))
        case Cancel(reason) => Success((o.(status := Cancelled), OrderCancelled(o.id, Trim(reason))))
  {
    if c.Cancel? { TrimmedBytes(c.reason); }
  }

  /** A placed order is asked to be cancelled: the code takes the reason exactly if its non-space
      characters and the surplus bytes of its trimmed text are five together, and so every reason with five
      non-space characters. For one with fewer it departs from the rule that asks for five, exactly if
      the surplus makes up for them; there is none exactly if the trimmed text is ASCII and in one word. */
  lemma ReasonRule(o: Snapshot, reason: string)
    requires o.status == Placed
    ensures Apply(o, Cancel(reason)).Success? <==> NonSpace(reason) + Surplus(Trim(reason)) >= MIN_REASON
    ensures NonSpace(reason) >= MIN_REASON ==> Apply(o, Cancel(reason)).Success?
    ensures Surplus(Trim(reason)) == 0 <==>
      forall i | 0 <= i < |Trim(reason)| :: !IsSpace(Trim(reason)[i]) && Trim(reason)[i] as int < 0x80
  {
    TrimmedBytes(reason);
    NoSurplus(Trim(reason));
  }

  /** For instance two letters with three spaces between them. */
  lemma ShortReasonTaken(o: Snapshot)
    requires o.status == Placed
    ensures NonSpace("a   b") == 2 < MIN_REASON && Apply(o, Cancel("a   b")).Success?
  {
    var s := "a   b";
    FixesTrimmed(s);
    assert s[1..] == "   b" && s[1..][1..] == "  b" && s[1..][1..][1..] == " b" && s[1..][1..][1..][1..] == "b";
    assert NonSpace("b") == 1 && Surplus("b") == 0;
    assert NonSpace(" b") == 1 && Surplus(" b") == 1;
    assert NonSpace("  b") == 1 && Surplus("  b") == 2;
    ReasonRule(o, s);
  }

  class Order {
    var id: string
    var userId: string
    var itemId: string
    var quantity: nat
    var status: Status
    var events: seq<DomainEvent>

    function View(): Snapshot
      reads this
    {
      Snapshot(id, userId, itemId, quantity, status)
    }

    constructor (o: Snapshot)
      ensures View() == o && events == []
    {
      id, userId, itemId, quantity, status, events := o.id, o.userId, o.itemId, o.quantity, o.status, [];
    }

    /** This object now is what the command makes of the order `was` with pending events `pending`. */
    ghost predicate Applied(c: Command, was: Snapshot, pending: seq<DomainEvent>, err: Option<Error>)
      reads this
    {
      match Apply(was, c)
      case Success((o, event)) => View() == o && events == pending + [event] && err == None
      case Failure(e) => View() == was && events == pending && err == Some(e)
    }

    method Place() returns (err: Option<Error>)
      modifies this`status, this`events
      ensures Applied(Command.Place, old(View()), old(events), err)
    {
      if status != Draft { return Some(InvalidStateTransition); }
      status := Placed;
      events := events + [OrderPlaced(id, userId, itemId, quantity)];
      err := None;
    }

    method Confirm() returns (err: Option<Error>)
      modifies this`status, this`events
      ensures Applied(Command.Confirm, old(View()), old(events), err)
    {
      if status != Placed { return Some(InvalidStateTransition); }
      status := Confirmed;
      events := events + [OrderConfirmed(id)];
      err := None;
    }

    method Cancel(reason: string) returns (err: Option<Error>)
      modifies this`status, this`events
      ensures Applied(Command.Cancel(reason), old(View()), old(events), err)
    {
      var normalized := Trim(reason);
      if ByteLength(normalized) < MIN_REASON { return Some(ValidationFailed); }
      if status != Placed { return Some(InvalidStateTransition); }
      status := Cancelled;
      events := events + [OrderCancelled(id, normalized)];
      err := None;
    }

    method FlushEvents() returns (flushed: seq<DomainEvent>)
      modifies this`events
      ensures flushed == old(events) && events == []
    {
      flushed := events;
      events := [];
    }
  }

  // ----- from domain events to integration events -----

  /** What one domain event becomes in the outbox: confirmations stay inside the service, and
      placements go out as version 2. */
  function Outgoing(event: DomainEvent): seq<IntegrationEvent> {
    match event
    case OrderPlaced(o, u, i, q) => [PlacedV2(o, u, i, q)]
    case OrderConfirmed(_) => []
    case OrderCancelled(o, r) => [CancelledV1(o, r)]
  }

  function AllOutgoing(events: seq<DomainEvent>): seq<IntegrationEvent> {
    if events == [] then [] else AllOutgoing(events[..|events| - 1]) + Outgoing(events[|events| - 1])
  }

  /** The events go out in their order. */
  lemma {:induction false} OutgoingInOrder(a: seq<DomainEvent>, b: seq<DomainEvent>)
    ensures AllOutgoing(a + b) == AllOutgoing(a) + AllOutgoing(b)
  {
    if b == [] {
      assert a + b == a;
    } else {
      var n := |b| - 1;
      OutgoingInOrder(a, b[..n]);
      assert (a + b)[..|a + b| - 1] == a + b[..n] && (a + b)[|a + b| - 1] == b[n];
      assert AllOutgoing(a + b) == AllOutgoing(a + b[..n]) + Outgoing(b[n]);
    }
  }

  function Upcasted(event: IntegrationEvent): IntegrationEvent {
    if event.PlacedV1? then PlacedV2(event.orderId, event.userId, event.itemId, event.quantity) else event
  }

  method MapToIntegrationEvents(events: seq<DomainEvent>) returns (mapped: seq<IntegrationEvent>)
    ensures seq(|mapped|, i requires 0 <= i < |mapped| => Upcasted(mapped[i])) == AllOutgoing(events)
  {
    mapped := [];
    for i := 0 to |events|
      invariant seq(|mapped|, k requires 0 <= k < |mapped| => Upcasted(mapped[k])) == AllOutgoing(events[..i])
    {
      assert events[..i + 1][..i] == events[..i];
      match events[i] {
        case OrderPlaced(o, u, item, q) => mapped := mapped + [PlacedV1(o, u, item, q)];
        case OrderCancelled(o, r) => mapped := mapped + [CancelledV1(o, r)];
        case OrderConfirmed(_) =>
      }
    }
    assert events[..|events|] == events;
  }

  method Upcast(events: seq<IntegrationEvent>) returns (upcasted: seq<IntegrationEvent>)
    ensures upcasted == seq(|events|, i requires 0 <= i < |events| => Upcasted(events[i]))
    ensures forall e | e in upcasted :: !e.PlacedV1?
  {
    upcasted := [];
    for i := 0 to |events|
      invariant |upcasted| == i && forall k | 0 <= k < i :: upcasted[k] == Upcasted(events[k])
    {
      match events[i] {
        case PlacedV1(o, u, item, q) => upcasted := upcasted + [PlacedV2(o, u, item, q)];
        case _ => upcasted := upcasted + [events[i]];
      }
    }
  }

  // ----- the tables and the commands -----

  /** The orders table by primary key, the contents of the outbox in the order of created_at, and
      the number of order ids taken from the supply. */
  datatype World = World(rows: map<string, Snapshot>, outbox: seq<IntegrationEvent>, issued: nat)

  const EMPTY_WORLD := World(map[], [], 0)

  function Load(w: World, id: string, o: Outcome): Result<Snapshot, Error> {
    if o != Done || id !in w.rows then Failure(StoreFailed)
    else match Reconstruct(w.rows[id])
         case Success(s) => Success(s)
         case Failure(_) => Failure(StoreFailed)
  }

  /** SaveOrder: the row and the outbox rows of the events, or neither. */
  function Save(w: World, s: Snapshot, events: seq<DomainEvent>, o: Outcome): (World, Option<Error>) {
    (if o == Refused then w else w.(rows := w.rows[s.id := s], outbox := w.outbox + AllOutgoing(events)),
     if o == Done then None else Some(StoreFailed))
  }

  function CreateOrder(w: World, userId: string, itemId: string, quantity: nat, o: Outcome): (World, Result<string, Error>) {
    var w1 := w.(issued := w.issued + 1);
    match NewDraft(Uuid(w.issued), userId, itemId, quantity)
    case Failure(e) => (w1, Failure(e))
    case Success(draft) =>
      match Apply(draft, Place)
      case Failure(e) => (w1, Failure(e))
      case Success((s, event)) =>
        var (w2, err) := Save(w1, s, [event], o);
        (w2, if err.Some? then Failure(err.value) else Success(s.id))
  }

  /** Confirm and Cancel: load, change, save. */
  function Execute(w: World, id: string, c: Command, atLoad: Outcome, atSave: Outcome): (World, Option<Error>) {
    match Load(w, id, atLoad)
    case Failure(e) => (w, Some(e))
    case Success(s) =>
      match Apply(s, c)
      case Failure(e) => (w, Some(e))
      case Success((s', event)) => Save(w, s', [event], atSave)
  }

  class Database {
    const outcomes: nat -> Outcome
    var calls: nat
    var rows: map<string, Snapshot>
    var outbox: seq<IntegrationEvent>
    var issued: nat

    constructor (outcomes: nat -> Outcome)
      ensures State() == EMPTY_WORLD && calls == 0
    {
      this.outcomes := outcomes;
      calls, rows, outbox, issued := 0, map[], [], 0;
    }

    function State(): World
      reads this
    {
      World(rows, outbox, issued)
    }
  }

  class OrderService {
    const db: Database

    constructor (db: Database)
      ensures this.db == db
    {
      this.db := db;
    }

    method Create(userId: string, itemId: string, quantity: nat) returns (r: Result<string, Error>)
      modifies db
      ensures (db.State(), r) == CreateOrder(old(db.State()), userId, itemId, quantity, db.outcomes(old(db.calls)))
    {
      var draft := NewDraft(Uuid(db.issued), userId, itemId, quantity);
      db.issued := db.issued + 1;
      if draft.Failure? { return Failure(draft.error); }
      var order := new Order(draft.value);
      var err := order.Place();
      if err.Some? { return Failure(InvalidStateTransition); }
      err := Persist(order);
      r := if err.Some? then Failure(err.value) else Success(order.id);
    }

    method Confirm(id: string) returns (err: Option<Error>)
      modifies db
      ensures (db.State(), err) == Execute(old(db.State()), id, Command.Confirm,
                                           db.outcomes(old(db.calls)), db.outcomes(old(db.calls) + 1))
    {
      var loaded := GetOrderById(id);
      if loaded.Failure? { return Some(loaded.error); }
      err := loaded.value.Confirm();
      if err.Some? { return; }
      err := Persist(loaded.value);
    }

    method Cancel(id: string, reason: string) returns (err: Option<Error>)
      modifies db
      ensures (db.State(), err) == Execute(old(db.State()), id, Command.Cancel(reason),
                                           db.outcomes(old(db.calls)), db.outcomes(old(db.calls) + 1))
    {
      var loaded := GetOrderById(id);
      if loaded.Failure? { return Some(loaded.error); }
      err := loaded.value.Cancel(reason);
      if err.Some? { return; }
      err := Persist(loaded.value);
    }

    method GetOrderById(id: string) returns (r: Result<Order, Error>)
      modifies db`calls
      ensures db.calls == old(db.calls) + 1
      ensures match Load(db.State(), id, db.outcomes(old(db.calls)))
        case Success(s) => r.Success? && fresh(r.value) && r.value.View() == s && r.value.events == []
        case Failure(e) => r == Failure(e)
    {
      var loaded := Load(db.State(), id, db.outcomes(db.calls));
      db.calls := db.calls + 1;
      if loaded.Failure? { return Failure(loaded.error); }
      var order := new Order(loaded.value);
      r := Success(order);
    }

    /** The end of every command: map, upcast, and save in one transaction. */
    method Persist(order: Order) returns (err: Option<Error>)
      modifies db`calls, db`rows, db`outbox, order`events
      ensures order.View() == old(order.View())
      ensures (db.State(), err)
           == Save(old(db.State()), order.View(), old(order.events), db.outcomes(old(db.calls)))
    {
      var events := order.FlushEvents();
      var mapped := MapToIntegrationEvents(events);
      var upcasted := Upcast(mapped);
      var outcome := db.outcomes(db.calls);
      db.calls := db.calls + 1;
      if outcome != Refused {
        db.rows := db.rows[order.id := order.View()];
        db.outbox := db.outbox + upcasted;
      }
      err := if outcome == Done then None else Some(StoreFailed);
    }
  }
}
