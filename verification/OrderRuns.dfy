// What every run of order commands keeps, when commands on different orders interleave step by
// step and any call may fail: an order has sent one OrderPlaced (version 2), and one OrderCancelled
// (version 1) exactly if it is cancelled.
module OrderRuns {
  import opened Wrappers
  import opened Faults
  import opened Text
  import opened Uuids
  import opened Orders

  function EventsOf(outbox: seq<IntegrationEvent>, id: string): seq<IntegrationEvent> {
    if outbox == [] then [] else
      var n := |outbox| - 1;
      EventsOf(outbox[..n], id) + (if outbox[n].orderId == id then [outbox[n]] else [])
  }

  /** The events that an order in this state has sent. */
  predicate Fits(o: Snapshot, sent: seq<IntegrationEvent>) {
    && |sent| == (if o.status == Cancelled then 2 else 1)
    && sent[0] == PlacedV2(o.id, o.userId, o.itemId, o.quantity)
    && (o.status == Cancelled ==> sent[1].CancelledV1? && sent[1].orderId == o.id)
  }

  ghost predicate SoundOrder(w: World, id: string)
    requires id in w.rows
  {
    var o := w.rows[id];
    && o.id == id && o.WellFormed() && o.status in {Placed, Confirmed, Cancelled}
    && |id| < w.issued + 36 && IsUuid(id) && Fits(o, EventsOf(w.outbox, id))
  }

  ghost predicate Sound(w: World) {
    && (forall id {:trigger SoundOrder(w, id)} | id in w.rows :: SoundOrder(w, id))
    && forall k | 0 <= k < |w.outbox| :: w.outbox[k].orderId in w.rows
  }

  lemma {:induction false} EventsOfAppend(a: seq<IntegrationEvent>, b: seq<IntegrationEvent>, id: string)
    ensures EventsOf(a + b, id) == EventsOf(a, id) + EventsOf(b, id)
  {
    if b == [] {
      assert a + b == a;
    } else {
      EventsOfAppend(a, b[..|b| - 1], id);
      assert (a + b)[..|a + b| - 1] == a + b[..|b| - 1];
    }
  }

  lemma {:induction false} NoEvents(outbox: seq<IntegrationEvent>, id: string)
    requires forall k | 0 <= k < |outbox| :: outbox[k].orderId != id
    ensures EventsOf(outbox, id) == []
  {
    if outbox != [] { NoEvents(outbox[..|outbox| - 1], id); }
  }

  lemma OneOutgoing(event: DomainEvent, id: string)
    ensures AllOutgoing([event]) == Outgoing(event)
    ensures EventsOf(Outgoing(event), id) == if event.orderId == id then Outgoing(event) else []
  {
    assert [event][..0] == [];
    OneEvent(Outgoing(event), id);
  }

  lemma OneEvent(events: seq<IntegrationEvent>, id: string)
    requires |events| <= 1
    ensures EventsOf(events, id) == if events != [] && events[0].orderId == id then events else []
  {
    if events != [] { assert events[..0] == []; }
  }

  /** A command's result, saved onto an order it is a successor of, or as a new order. */
  ghost predicate Successor(w: World, o: Snapshot, event: DomainEvent) {
    && o.WellFormed() && event.orderId == o.id && |o.id| < w.issued + 36 && IsUuid(o.id)
    && o.status in {Placed, Confirmed, Cancelled}
    && Fits(o, EventsOf(w.outbox, o.id) + Outgoing(event))
  }

  lemma SaveKeepsSound(w: World, o: Snapshot, event: DomainEvent, outcome: Outcome)
    requires Sound(w) && Successor(w, o, event)
    ensures Sound(Save(w, o, [event], outcome).0)
  {
    OneOutgoing(event, o.id);
    if outcome != Refused { SavedSound(w, Save(w, o, [event], outcome).0, o, event); }
  }

  lemma SavedSound(w: World, w': World, o: Snapshot, event: DomainEvent)
    requires Sound(w) && Successor(w, o, event)
    requires w' == World(w.rows[o.id := o], w.outbox + Outgoing(event), w.issued)
    ensures Sound(w')
  {
    forall id | id in w'.rows
      ensures SoundOrder(w', id)
    {
      assert EventsOf(w'.outbox, id) == EventsOf(w.outbox, id) + if event.orderId == id then Outgoing(event) else [] by {
        EventsOfAppend(w.outbox, Outgoing(event), id);
        OneOutgoing(event, id);
      }
      if id != o.id { assert SoundOrder(w, id); }
    }
    forall k | 0 <= k < |w'.outbox|
      ensures w'.outbox[k].orderId in w'.rows
    {
      if k >= |w.outbox| { assert w'.outbox[k] == Outgoing(event)[k - |w.outbox|]; }
    }
  }

  lemma LoadsTheRow(w: World, id: string)
    requires Sound(w) && id in w.rows
    ensures Load(w, id, Done) == Success(w.rows[id])
  {
    assert SoundOrder(w, id);
    FixesTrimmed(w.rows[id].id); FixesTrimmed(w.rows[id].userId); FixesTrimmed(w.rows[id].itemId);
  }

  lemma CommandSucceeds(w: World, id: string, c: Command)
    requires Sound(w) && id in w.rows && Apply(w.rows[id], c).Success?
    ensures var (o, event) := Apply(w.rows[id], c).value; Successor(w, o, event) && o.id == id
  {
    assert SoundOrder(w, id);
  }

  lemma CreateKeepsSound(w: World, userId: string, itemId: string, quantity: nat, outcome: Outcome)
    requires Sound(w)
    ensures var w' := CreateOrder(w, userId, itemId, quantity, outcome).0;
      Sound(w') && forall id | id in w.rows :: id in w'.rows && w'.rows[id] == w.rows[id]
  {
    FreshOrderId(w);
    CreateIsSave(w, userId, itemId, quantity, outcome);
    var draft := NewDraft(Uuid(w.issued), userId, itemId, quantity);
    if draft.Success? {
      var (o, event) := Apply(draft.value, Place).value;
      NewOrder(w, o, event, userId, itemId, quantity);
      SaveKeepsSound(w.(issued := w.issued + 1), o, event, outcome);
    }
  }

  /** Creating an order is saving a draft that has been placed, with the next id of the supply. */
  lemma CreateIsSave(w: World, userId: string, itemId: string, quantity: nat, outcome: Outcome)
    ensures var draft := NewDraft(Uuid(w.issued), userId, itemId, quantity);
      var w' := CreateOrder(w, userId, itemId, quantity, outcome).0;
      if draft.Failure? then w' == w.(issued := w.issued + 1)
      else
        var (o, event) := Apply(draft.value, Place).value;
        && o.id == Uuid(w.issued)
        && w' == Save(w.(issued := w.issued + 1), o, [event], outcome).0
        && forall id | id in w.rows && id != o.id :: id in w'.rows && w'.rows[id] == w.rows[id]
  {}

  lemma FreshOrderId(w: World)
    requires Sound(w)
    ensures Sound(w.(issued := w.issued + 1)) && Uuid(w.issued) !in w.rows
  {
    forall id | id in w.rows
      ensures SoundOrder(w.(issued := w.issued + 1), id) && id != Uuid(w.issued)
    {
      assert SoundOrder(w, id);
    }
  }

  lemma NewOrder(w: World, o: Snapshot, event: DomainEvent, userId: string, itemId: string, quantity: nat)
    requires Sound(w) && Uuid(w.issued) !in w.rows && NewDraft(Uuid(w.issued), userId, itemId, quantity).Success?
    requires Apply(NewDraft(Uuid(w.issued), userId, itemId, quantity).value, Place) == Success((o, event))
    ensures Successor(w.(issued := w.issued + 1), o, event) && o.id == Uuid(w.issued)
  {
    UuidIsUuid(w.issued);
    TrimLandsTrimmed(userId);
    TrimLandsTrimmed(itemId);
    NoEvents(w.outbox, o.id);
    assert EventsOf(w.outbox, o.id) + Outgoing(event) == [PlacedV2(o.id, o.userId, o.itemId, o.quantity)];
  }

  // ----- what the commands do to the tables -----

  /** Creating an order: exactly then it succeeds, if its save does, and then there is one row more, with the
      trimmed texts of the caller and placed, and exactly its placement has been sent; a save that took
      effect has done so also if it is reported as failed. */
  lemma CreateOnTables(w: World, userId: string, itemId: string, quantity: nat, o: Outcome)
    requires Sound(w)
    ensures var (w', created) := CreateOrder(w, userId, itemId, quantity, o);
      var id, user, item := Uuid(w.issued), Trim(userId), Trim(itemId);
      var accepted := !Blank(userId) && !Blank(itemId) && 0 < quantity <= 50;
      && created == (if !accepted then Failure(ValidationFailed)
                     else if o == Done then Success(id) else Failure(StoreFailed))
      && id !in w.rows
      && w' == if accepted && o != Refused
           then World(w.rows[id := Snapshot(id, user, item, quantity, Placed)],
                      w.outbox + [PlacedV2(id, user, item, quantity)], w.issued + 1)
           else w.(issued := w.issued + 1)
  {
    BlankTrimsToEmpty(userId);
    BlankTrimsToEmpty(itemId);
    FreshOrderId(w);
    OneOutgoing(OrderPlaced(Uuid(w.issued), Trim(userId), Trim(itemId), quantity), Uuid(w.issued));
  }

  /** Confirming and cancelling: exactly then they succeed, if their save does, and then the row has its new
      status, and exactly the cancellation with its trimmed reason has been sent, for a confirmation nothing. */
  lemma CommandOnTables(w: World, id: string, c: Command, atLoad: Outcome, atSave: Outcome)
    requires Sound(w)
    ensures var (w', err) := Execute(w, id, c, atLoad, atSave);
      var accepted := atLoad == Done && id in w.rows && Takes(w.rows[id], c);
      && (err == None <==> accepted && atSave == Done)
      && w' == if accepted && atSave != Refused then Commanded(w, id, c) else w
  {
    if atLoad == Done && id in w.rows {
      LoadsTheRow(w, id);
      assert w.rows[id].id == id && w.rows[id].status in {Placed, Confirmed, Cancelled} by { assert SoundOrder(w, id); }
      Acceptance(w.rows[id], c);
      if Takes(w.rows[id], c) {
        var (o, event) := Apply(w.rows[id], c).value;
        assert Execute(w, id, c, atLoad, atSave) == Save(w, o, [event], atSave);
        CommandedSave(w, id, c, o, event, atSave);
      }
    }
  }

  lemma CommandedSave(w: World, id: string, c: Command, o: Snapshot, event: DomainEvent, atSave: Outcome)
    requires id in w.rows && w.rows[id].id == id && !c.Place?
    requires (o, event) == match c
      case Cancel(reason) => (w.rows[id].(status := Cancelled), OrderCancelled(id, Trim(reason)))
      case _ => (w.rows[id].(status := Confirmed), OrderConfirmed(id))
    ensures Save(w, o, [event], atSave)
         == (if atSave == Refused then w else Commanded(w, id, c), if atSave == Done then None else Some(StoreFailed))
  {
    OneOutgoing(event, id);
    assert w.outbox + [] == w.outbox;
    assert o.id == id;
  }

  function Commanded(w: World, id: string, c: Command): World
    requires id in w.rows
  {
    match c
    case Cancel(reason) =>
      w.(rows := w.rows[id := w.rows[id].(status := Cancelled)], outbox := w.outbox + [CancelledV1(id, Trim(reason))])
    case _ => w.(rows := w.rows[id := w.rows[id].(status := Confirmed)])
  }

  // ----- interleaved runs -----

  /** A command between its load and its save. */
  datatype Flight = Flight(order: Snapshot, event: DomainEvent)

  datatype Net = Net(world: World, flights: map<string, Flight>)

  datatype Step =
    | Open(userId: string, itemId: string, quantity: nat, outcome: Outcome)
    | Begin(id: string, command: Command, outcome: Outcome)
    | Finish(id: string, outcome: Outcome)
    | Die(id: string)

  function FinishStep(n: Net, id: string, o: Outcome): Net {
    if id !in n.flights then n
    else Net(Save(n.world, n.flights[id].order, [n.flights[id].event], o).0, n.flights - {id})
  }

  /** One atomic step; a command does not begin on an order that has one in flight. */
  function Next(n: Net, s: Step): Net {
    match s
    case Open(u, i, q, o) => n.(world := CreateOrder(n.world, u, i, q, o).0)
    case Begin(id, c, o) =>
      if id in n.flights then n else
        var loaded := Load(n.world, id, o);
        if loaded.Failure? || Apply(loaded.value, c).Failure? then n
        else n.(flights := n.flights[id := Flight(Apply(loaded.value, c).value.0, Apply(loaded.value, c).value.1)])
    case Finish(id, o) => FinishStep(n, id, o)
    case Die(id) => n.(flights := n.flights - {id})
  }

  ghost predicate SoundNet(n: Net) {
    && Sound(n.world)
    && forall id | id in n.flights ::
         && id in n.world.rows && n.flights[id].order.id == id
         && Successor(n.world, n.flights[id].order, n.flights[id].event)
         && (n.flights[id].event.OrderCancelled? ==> n.world.rows[id].status == Placed)
  }

  lemma NextKeepsSound(n: Net, s: Step)
    requires SoundNet(n)
    ensures SoundNet(Next(n, s))
  {
    match s
    case Open(u, i, q, o) => OpenKeepsSound(n, u, i, q, o);
    case Begin(id, c, o) => BeginKeepsSound(n, id, c, o);
    case Finish(id, o) => if id in n.flights { FinishKeepsSound(n, id, o); }
    case Die(id) =>
  }

  lemma OpenKeepsSound(n: Net, userId: string, itemId: string, quantity: nat, outcome: Outcome)
    requires SoundNet(n)
    ensures SoundNet(Next(n, Open(userId, itemId, quantity, outcome)))
  {
    var w, w' := n.world, CreateOrder(n.world, userId, itemId, quantity, outcome).0;
    CreateKeepsSound(w, userId, itemId, quantity, outcome);
    CreateSendsItsOwn(w, userId, itemId, quantity, outcome);
    forall id | id in n.flights
      ensures EventsOf(w'.outbox, id) == EventsOf(w.outbox, id)
    {
      assert |id| < w.issued + 36 by { assert SoundOrder(w, id); }
      OthersSend(w.outbox, w'.outbox, id);
    }
    Opened(n, w');
  }

  lemma OthersSend(outbox: seq<IntegrationEvent>, outbox': seq<IntegrationEvent>, id: string)
    requires outbox <= outbox' && forall k | |outbox| <= k < |outbox'| :: outbox'[k].orderId != id
    ensures EventsOf(outbox', id) == EventsOf(outbox, id)
  {
    var added := outbox'[|outbox|..];
    assert outbox' == outbox + added;
    EventsOfAppend(outbox, added, id);
    NoEvents(added, id);
  }

  lemma Opened(n: Net, w: World)
    requires SoundNet(n) && Sound(w) && w.issued >= n.world.issued
    requires forall id | id in n.world.rows :: id in w.rows && w.rows[id] == n.world.rows[id]
    requires forall id | id in n.flights :: EventsOf(w.outbox, id) == EventsOf(n.world.outbox, id)
    ensures SoundNet(n.(world := w))
  {}

  lemma CreateSendsItsOwn(w: World, userId: string, itemId: string, quantity: nat, outcome: Outcome)
    requires Sound(w)
    ensures var w' := CreateOrder(w, userId, itemId, quantity, outcome).0;
      && w.outbox <= w'.outbox && w'.issued == w.issued + 1
      && forall k | |w.outbox| <= k < |w'.outbox| :: w'.outbox[k].orderId == Uuid(w.issued)
  {
    CreateOnTables(w, userId, itemId, quantity, outcome);
  }

  lemma BeginKeepsSound(n: Net, id: string, c: Command, outcome: Outcome)
    requires SoundNet(n)
    ensures SoundNet(Next(n, Begin(id, c, outcome)))
  {
    if id in n.world.rows && outcome == Done {
      LoadsTheRow(n.world, id);
      if Apply(n.world.rows[id], c).Success? { CommandSucceeds(n.world, id, c); }
    }
  }

  lemma FinishKeepsSound(n: Net, id: string, outcome: Outcome)
    requires SoundNet(n) && id in n.flights
    ensures SoundNet(FinishStep(n, id, outcome))
  {
    var o, event := n.flights[id].order, n.flights[id].event;
    var w' := Save(n.world, o, [event], outcome).0;
    SaveKeepsSound(n.world, o, event, outcome);
    forall other | other in n.flights && other != id
      ensures other in w'.rows && w'.rows[other] == n.world.rows[other]
      ensures EventsOf(w'.outbox, other) == EventsOf(n.world.outbox, other)
    {
      SaveSendsItsOwn(n.world, o, event, outcome, other);
    }
    Landed(n, w', id);
  }

  lemma SaveSendsItsOwn(w: World, o: Snapshot, event: DomainEvent, outcome: Outcome, other: string)
    requires event.orderId == o.id != other
    ensures EventsOf(Save(w, o, [event], outcome).0.outbox, other) == EventsOf(w.outbox, other)
  {
    EventsOfAppend(w.outbox, Outgoing(event), other);
    OneOutgoing(event, other);
  }

  /** The commands on other orders do not notice. */
  lemma Landed(n: Net, w: World, id: string)
    requires SoundNet(n) && Sound(w) && w.issued == n.world.issued
    requires forall other | other in n.flights && other != id ::
      && other in w.rows && w.rows[other] == n.world.rows[other]
      && EventsOf(w.outbox, other) == EventsOf(n.world.outbox, other)
    ensures SoundNet(Net(w, n.flights - {id}))
  {}

  function Run(n: Net, steps: seq<Step>): Net {
    if steps == [] then n else Next(Run(n, steps[..|steps| - 1]), steps[|steps| - 1])
  }

  /** In every run, whatever fails and however commands on different orders interleave, each order
      has sent exactly the events of its status. */
  lemma {:induction false} OutboxFollowsStatus(steps: seq<Step>)
    ensures SoundNet(Run(Net(EMPTY_WORLD, map[]), steps))
  {
    if steps != [] {
      OutboxFollowsStatus(steps[..|steps| - 1]);
      NextKeepsSound(Run(Net(EMPTY_WORLD, map[]), steps[..|steps| - 1]), steps[|steps| - 1]);
    }
  }

  /** A save does not look at what it overwrites. A command loads an order while it is placed; if
      its save commits after other commands on the same order, then the order's events still fit
      its row exactly if nobody has cancelled the order meanwhile. */
  lemma StaleSave(w: World, id: string, c: Command, outcome: Outcome)
    requires Sound(w) && id in w.rows && outcome != Refused
    requires Apply(w.rows[id].(status := Placed), c).Success?
    ensures var (o, event) := Apply(w.rows[id].(status := Placed), c).value;
      var w' := Save(w, o, [event], outcome).0;
      Fits(w'.rows[id], EventsOf(w'.outbox, id)) <==> w.rows[id].status != Cancelled
  {
    var (o, event) := Apply(w.rows[id].(status := Placed), c).value;
    StaleFits(w, id, o, event, outcome);
  }

  lemma StaleFits(w: World, id: string, o: Snapshot, event: DomainEvent, outcome: Outcome)
    requires Sound(w) && id in w.rows && outcome != Refused
    requires o == w.rows[id].(status := o.status) && event.orderId == w.rows[id].id
    requires (o.status == Confirmed && event.OrderConfirmed?) || (o.status == Cancelled && event.OrderCancelled?)
    ensures var w' := Save(w, o, [event], outcome).0;
      id in w'.rows && (Fits(w'.rows[id], EventsOf(w'.outbox, id)) <==> w.rows[id].status != Cancelled)
  {
    var row, sent := w.rows[id], EventsOf(w.outbox, id);
    assert row.id == id && row.status in {Placed, Confirmed, Cancelled} && Fits(row, sent) by { assert SoundOrder(w, id); }
    assert EventsOf(w.outbox + Outgoing(event), id) == sent + Outgoing(event) by {
      EventsOfAppend(w.outbox, Outgoing(event), id);
      OneOutgoing(event, id);
    }
    StaleEvents(row, o, event, sent);
    OneOutgoing(event, id);
  }

  lemma StaleEvents(row: Snapshot, o: Snapshot, event: DomainEvent, sent: seq<IntegrationEvent>)
    requires Fits(row, sent) && row.status in {Placed, Confirmed, Cancelled} && o == row.(status := o.status)
    requires event.orderId == o.id
    requires (o.status == Confirmed && event.OrderConfirmed?) || (o.status == Cancelled && event.OrderCancelled?)
    ensures Fits(o, sent + Outgoing(event)) <==> row.status != Cancelled
  {}
}
