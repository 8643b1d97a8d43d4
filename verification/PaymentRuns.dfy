// What every run of payment commands keeps, when commands on different payments interleave
// step by step and any call may fail: the outbox of a payment is a function of its row.
module PaymentRuns {
  import opened Wrappers
  import opened Faults
  import opened Text
  import opened Uuids
  import opened Payments
  import opened PaymentStore
  import opened PaymentCommands

  // ----- the invariant -----

  function RecordsOf(outbox: seq<Record>, id: string): seq<Record> {
    if outbox == [] then [] else
      var n := |outbox| - 1;
      RecordsOf(outbox[..n], id) + (if outbox[n].aggregateId == id then [outbox[n]] else [])
  }

  /** The records that a payment in this state has sent, in order and with their contents. */
  function History(p: Snapshot): seq<Record> {
    var confirmed := Record(p.id, EventName.PaymentConfirmed, 1, Amount(1, p.orderId, p.id, p.amount, p.currency));
    match p.status
    case Paid => [confirmed]
    case Failed => [Record(p.id, EventName.PaymentFailed, 1, Reason(1, p.orderId, p.id, p.failureReason))]
    case Refunded =>
      [confirmed, Record(p.id, EventName.PaymentRefunded, 1, Amount(1, p.orderId, p.id, p.amount, p.currency))]
    case _ => []
  }

  ghost predicate Sound(w: World) {
    && DistinctIds(w.rows)
    && SoundRows(w)
    && Owned(w.rows, w.outbox)
  }

  /** Looking a row up by its own id finds that row: no two rows share an id. */
  ghost predicate DistinctIds(rows: seq<Row>) {
    forall i {:trigger IndexOf(rows, rows[i].id)} | 0 <= i < |rows| :: IndexOf(rows, rows[i].id) == i
  }

  ghost predicate SoundRows(w: World) {
    forall i {:trigger SoundRow(w.outbox, w.issued, w.rows[i])} | 0 <= i < |w.rows| ::
      SoundRow(w.outbox, w.issued, w.rows[i])
  }

  /** Every record belongs to a row. */
  ghost predicate Owned(rows: seq<Row>, outbox: seq<Record>) {
    forall k | 0 <= k < |outbox| :: IndexOf(rows, outbox[k].aggregateId) < |rows|
  }

  ghost predicate SoundRow(outbox: seq<Record>, issued: nat, row: Row) {
    && Scanned(row).WellFormed()
    && row.failureReason != Some("")
    && FitsColumn(row.amount)
    && |row.id| < issued + 36
    && IsUuid(row.id) && IsUuid(row.orderId)
    && RecordsOf(outbox, row.id) == History(Scanned(row))
    && (row.paidAt.Some? <==> row.status in {Paid, Refunded})
  }

  // ----- one save -----

  lemma {:induction false} RecordsOfAppend(a: seq<Record>, b: seq<Record>, id: string)
    ensures RecordsOf(a + b, id) == RecordsOf(a, id) + RecordsOf(b, id)
  {
    if b == [] {
      assert a + b == a;
    } else {
      var n := |b| - 1;
      RecordsOfAppend(a, b[..n], id);
      assert (a + b)[..|a + b| - 1] == a + b[..n];
    }
  }

  lemma {:induction false} NoRecords(outbox: seq<Record>, id: string)
    requires forall k | 0 <= k < |outbox| :: outbox[k].aggregateId != id
    ensures RecordsOf(outbox, id) == []
  {
    if outbox != [] { NoRecords(outbox[..|outbox| - 1], id); }
  }

  /** q is what some command makes of p, with these events recorded. */
  ghost predicate Follows(p: Snapshot, q: Snapshot, events: seq<DomainEvent>) {
    && q.WellFormed()
    && q == p.(status := q.status, failureReason := q.failureReason)
    && (p.status in {Paid, Refunded} ==> q.status in {Paid, Refunded})
    && (q.status == Refunded ==> p.status in {Paid, Refunded})
    && History(q) == History(p) + MapEvents(q, events)
    && forall k | 0 <= k < |MapEvents(q, events)| :: MapEvents(q, events)[k].aggregateId == p.id
  }

  /** What a command adds to the payment's history is exactly the records it sends. */
  lemma CommandFollows(p: Snapshot, c: Command, q: Snapshot, events: seq<DomainEvent>)
    requires p.WellFormed() && Apply(p, c) == Success((q, events))
    ensures Follows(p, q, events)
  {
    ApplyKeeps(p, c);
    if events != [] {
      assert events == [events[0]] && events[..0] == [];
      assert MapEvents(q, events) == [MapEvent(q, events[0]).value];
    }
  }

  lemma {:induction false} OwnRecords(outbox: seq<Record>, id: string)
    requires forall k | 0 <= k < |outbox| :: outbox[k].aggregateId == id
    ensures RecordsOf(outbox, id) == outbox
  {
    if outbox != [] { OwnRecords(outbox[..|outbox| - 1], id); }
  }

  /** Histories tell the states of one payment apart. */
  lemma HistoryInjective(p: Snapshot, q: Snapshot)
    requires p.WellFormed() && q.WellFormed()
    requires q == p.(status := q.status, failureReason := q.failureReason)
    ensures History(p) == History(q) <==> p == q
  {
    if History(p) == History(q) {
      if |History(p)| == 1 {
        assert History(p)[0].eventName == History(q)[0].eventName;
      }
      assert p.status == q.status;
    }
  }

  /** Records of other payments do not concern a row. */
  lemma OtherRow(w: World, w': World, row: Row, added: seq<Record>)
    requires SoundRow(w.outbox, w.issued, row) && w'.outbox == w.outbox + added && w.issued <= w'.issued
    requires forall k | 0 <= k < |added| :: added[k].aggregateId != row.id
    ensures SoundRow(w'.outbox, w'.issued, row)
  {
    RecordsOfAppend(w.outbox, added, row.id);
    NoRecords(added, row.id);
  }

  lemma UpsertedRow(row: Row, q: Snapshot, events: seq<DomainEvent>, now: Instant)
    requires row.paidAt.Some? <==> row.status in {Paid, Refunded}
    requires Follows(Scanned(row), q, events)
    ensures var r := Upserted(q, Some(row), now);
      && Scanned(r) == q && r.failureReason != Some("")
      && (r.paidAt.Some? <==> r.status in {Paid, Refunded})
  {}

  lemma SavedRow(w: World, w': World, row: Row, q: Snapshot, events: seq<DomainEvent>, now: Instant)
    requires SoundRow(w.outbox, w.issued, row) && Follows(Scanned(row), q, events)
    requires w'.outbox == w.outbox + MapEvents(q, events) && w.issued <= w'.issued
    ensures SoundRow(w'.outbox, w'.issued, Upserted(q, Some(row), now))
  {
    UpsertedRow(row, q, events, now);
    RecordsOfAppend(w.outbox, MapEvents(q, events), row.id);
    OwnRecords(MapEvents(q, events), row.id);
  }

  /** A save whose ids the columns store as they are. */
  lemma SaveIs(env: Env, w: World, q: Snapshot, events: seq<DomainEvent>)
    requires IsUuid(q.id) && IsUuid(q.orderId) && FitsColumn(q.amount)
    ensures SaveStep(env, w, q, events).0.log == w.log + [SaveCall(q.id, q.status, env.outcome(w.calls))]
    ensures SaveStep(env, w, q, events).1 == if env.outcome(w.calls) == Done then None else Some(StoreFailed)
    ensures var w' := SaveStep(env, w, q, events).0;
      if env.outcome(w.calls) == Refused then w' == w.(log := w'.log, calls := w.calls + 1)
      else w'.rows == Upsert(w.rows, q, env.clock(w.calls)) && w'.outbox == w.outbox + MapEvents(q, events)
           && w'.issued == w.issued
  {}

  /** Saving a payment onto the row of which it is a successor. */
  lemma SaveKeepsSound(env: Env, w: World, i: nat, q: Snapshot, events: seq<DomainEvent>)
    requires Sound(w) && i < |w.rows| && Follows(Scanned(w.rows[i]), q, events)
    ensures var w' := SaveStep(env, w, q, events).0; Sound(w') && Extends(w, w')
  {
    assert SoundRow(w.outbox, w.issued, w.rows[i]);
    SaveIs(env, w, q, events);
    var w' := SaveStep(env, w, q, events).0;
    if env.outcome(w.calls) == Refused {
      SoundAfterCharge(w, w');
    } else {
      SavedSound(w, w', i, q, events, env.clock(w.calls));
    }
  }

  lemma SavedSound(w: World, w': World, i: nat, q: Snapshot, events: seq<DomainEvent>, now: Instant)
    requires Sound(w) && i < |w.rows| && Follows(Scanned(w.rows[i]), q, events)
    requires w'.rows == Upsert(w.rows, q, now) && w'.outbox == w.outbox + MapEvents(q, events) && w'.issued == w.issued
    ensures Sound(w') && Extends(w, w')
  {
    assert IndexOf(w.rows, q.id) == i;
    SavedRows(w, w', i, q, events, now);
    UpsertLookup(w.rows, q, now);
    SameIds(w.rows, w'.rows);
    forall k | 0 <= k < |w'.outbox|
      ensures IndexOf(w'.rows, w'.outbox[k].aggregateId) < |w'.rows|
    {
      if k >= |w.outbox| { assert w'.outbox[k] == MapEvents(q, events)[k - |w.outbox|]; }
    }
  }

  lemma SavedRows(w: World, w': World, i: nat, q: Snapshot, events: seq<DomainEvent>, now: Instant)
    requires Sound(w) && i < |w.rows| && Follows(Scanned(w.rows[i]), q, events)
    requires w'.rows == Upsert(w.rows, q, now) && w'.outbox == w.outbox + MapEvents(q, events) && w'.issued == w.issued
    ensures SoundRows(w') && Extends(w, w')
  {
    assert IndexOf(w.rows, q.id) == i;
    UpsertLookup(w.rows, q, now);
    forall j | 0 <= j < |w.rows|
      ensures SoundRow(w'.outbox, w'.issued, w'.rows[j])
    {
      assert SoundRow(w.outbox, w.issued, w.rows[j]);
      if j == i {
        SavedRow(w, w', w.rows[i], q, events, now);
      } else {
        OtherRow(w, w', w.rows[j], MapEvents(q, events));
      }
    }
  }

  /** Nothing that a command or a handler does removes a payment, or changes its identity, its
      order, its amount or its currency. */
  ghost predicate Extends(w: World, w': World) {
    && |w.rows| <= |w'.rows|
    && w.issued <= w'.issued
    && forall j | 0 <= j < |w.rows| ::
         w'.rows[j] == w.rows[j].(status := w'.rows[j].status, failureReason := w'.rows[j].failureReason,
                                  paidAt := w'.rows[j].paidAt)
  }

  lemma {:induction false} SameIds(a: seq<Row>, b: seq<Row>)
    requires |a| <= |b| && forall j | 0 <= j < |a| :: a[j].id == b[j].id
    ensures forall id | IndexOf(a, id) < |a| :: IndexOf(b, id) == IndexOf(a, id)
  {
    forall id | IndexOf(a, id) < |a|
      ensures IndexOf(b, id) == IndexOf(a, id)
    {
      var i := IndexOf(a, id);
      assert b[i].id == a[i].id;
      assert forall j | 0 <= j < i :: b[j].id == a[j].id;
    }
  }

  /** An id fresh from the supply is on no row. */
  lemma FreshId(w: World)
    requires Sound(w)
    ensures IndexOf(w.rows, Uuid(w.issued)) == |w.rows|
  {
    forall j | 0 <= j < |w.rows|
      ensures w.rows[j].id != Uuid(w.issued)
    {
      assert SoundRow(w.outbox, w.issued, w.rows[j]);
    }
  }

  /** A row for a payment just created, with the id that is next in the supply. */
  ghost predicate NewRow(issued: nat, row: Row) {
    && Scanned(row).WellFormed() && FitsColumn(row.amount) && row.id == Uuid(issued) && IsUuid(row.orderId)
    && row.status == Pending && row.failureReason == None && row.paidAt == None
  }

  /** What can be created: the order id is a UUID once it is trimmed, the amount is positive and fits, and
      the currency is three capital letters once it is trimmed. */
  predicate Creatable(orderId: string, amount: int, currency: string) {
    && Canonical(Trim(orderId)).Some? && 0 < amount <= 99_999_999
    && |Trim(currency)| == 3 && forall c | c in Trim(currency) :: 'A' <= c <= 'Z'
  }

  /** Creating a payment: exactly then it succeeds, if its save does, and then it is one more row at the end,
      of this content and pending; a save that took effect leaves it there also if it is reported as failed. */
  lemma CreateOnTables(env: Env, w: World, orderId: string, amount: int, currency: string)
    requires Sound(w)
    ensures var (w', created) := CreateStep(env, w, orderId, amount, currency);
      var o, accepted := env.outcome(w.calls), Creatable(orderId, amount, currency);
      && (if accepted && o == Done then created == Success(Uuid(w.issued)) else created.Failure?)
      && (Blank(orderId) || amount <= 0 || !IsCurrency(Trim(currency)) ==> created == Failure(ValidationFailed))
      && w'.outbox == w.outbox && w'.issued == w.issued + 1
      && w'.rows == if accepted && o != Refused
           then w.rows + [Row(Uuid(w.issued), Canonical(Trim(orderId)).value, amount, Trim(currency), Pending, None, None,
                              env.clock(w.calls))]
           else w.rows
  {
    var created := NewSnapshot(Uuid(w.issued), orderId, amount, currency, env.clock(w.calls));
    NewIsWellFormed(Uuid(w.issued), orderId, amount, currency, env.clock(w.calls));
    CanonicalIsUuid(Trim(orderId));
    BlankTrimsToEmpty(orderId);
    CapitalLetters(Trim(currency));
    if created.Success? {
      FreshId(w);
      SaveNewOnTables(env, w.(issued := w.issued + 1), w.issued, created.value);
    }
  }

  lemma SaveNewOnTables(env: Env, w: World, n: nat, p: Snapshot)
    requires p.WellFormed() && p.status == Pending && p.id == Uuid(n) && IndexOf(w.rows, p.id) == |w.rows|
    ensures var (w', created) := SaveNew(env, w, p);
      var o, accepted := env.outcome(w.calls), Canonical(p.orderId).Some? && p.amount <= 99_999_999;
      && created == (if accepted && o == Done then Success(p.id) else Failure(StoreFailed))
      && w'.outbox == w.outbox && w'.issued == w.issued
      && w'.rows == if accepted && o != Refused
           then w.rows + [Row(p.id, Canonical(p.orderId).value, p.amount, p.currency, Pending, None, None,
                              env.clock(w.calls))]
           else w.rows
  {
    var event := PaymentInitiated(p.id, p.orderId, p.amount, p.currency);
    assert MapEvents(p, [event]) == [] by { assert [event][..0] == []; }
    UuidIsUuid(n);
  }

  /** So a created payment is one more row at the end, well-formed, pending and without records. */
  lemma CreateAppends(env: Env, w: World, orderId: string, amount: int, currency: string)
    requires Sound(w)
    ensures var w' := CreateStep(env, w, orderId, amount, currency).0;
      && w'.outbox == w.outbox && w'.issued == w.issued + 1
      && (w'.rows == w.rows ||
          exists row :: w'.rows == w.rows + [row] && NewRow(w.issued, row)
            && Canonical(Trim(orderId)) == Some(row.orderId))
  {
    CreateOnTables(env, w, orderId, amount, currency);
    if Creatable(orderId, amount, currency) { CreatedIsNew(w.issued, orderId, amount, currency, env.clock(w.calls)); }
  }

  lemma CreatedIsNew(issued: nat, orderId: string, amount: int, currency: string, now: Instant)
    requires Creatable(orderId, amount, currency)
    ensures NewRow(issued, Row(Uuid(issued), Canonical(Trim(orderId)).value, amount, Trim(currency), Pending, None, None, now))
  {
    UuidIsUuid(issued);
    CanonicalIsUuid(Trim(orderId));
    CapitalLetters(Trim(currency));
  }

  lemma AppendedRows(w: World, w': World, row: Row)
    requires Sound(w) && w'.rows == w.rows + [row] && w'.outbox == w.outbox && w'.issued == w.issued + 1
    requires NewRow(w.issued, row)
    ensures SoundRows(w')
  {
    FreshId(w);
    UuidIsUuid(w.issued);
    NoRecords(w.outbox, row.id);
    forall j | 0 <= j < |w'.rows|
      ensures SoundRow(w'.outbox, w'.issued, w'.rows[j])
    {
      if j < |w.rows| { assert SoundRow(w.outbox, w.issued, w.rows[j]); }
    }
  }

  lemma CreateKeepsSound(env: Env, w: World, orderId: string, amount: int, currency: string)
    requires Sound(w)
    ensures var w' := CreateStep(env, w, orderId, amount, currency).0;
      && Sound(w') && Extends(w, w') && w.rows <= w'.rows
      && forall id | IndexOf(w.rows, id) < |w.rows| :: IndexOf(w'.rows, id) == IndexOf(w.rows, id)
  {
    CreateAppends(env, w, orderId, amount, currency);
    AppendKeepsSound(w, CreateStep(env, w, orderId, amount, currency).0);
  }

  lemma AppendKeepsSound(w: World, w': World)
    requires Sound(w) && w'.outbox == w.outbox && w'.issued == w.issued + 1
    requires w'.rows == w.rows || exists row :: w'.rows == w.rows + [row] && NewRow(w.issued, row)
    ensures Sound(w') && Extends(w, w') && w.rows <= w'.rows
    ensures forall id | IndexOf(w.rows, id) < |w.rows| :: IndexOf(w'.rows, id) == IndexOf(w.rows, id)
  {
    if w'.rows == w.rows {
      forall j | 0 <= j < |w.rows|
        ensures SoundRow(w'.outbox, w'.issued, w'.rows[j])
      {
        assert SoundRow(w.outbox, w.issued, w.rows[j]);
      }
    } else {
      AppendedRows(w, w', w'.rows[|w.rows|]);
      FreshId(w);
      SameIds(w.rows, w'.rows);
      assert IndexOf(w'.rows, Uuid(w.issued)) == |w.rows|;
    }
  }

  // ----- interleaved runs -----

  /** A command between its load and its save: the changed copy it holds. */
  datatype Flight = Flight(command: Command, payment: Snapshot, events: seq<DomainEvent>, charged: bool)

  /** The primary key that a text stands for. */
  function Key(id: string): string { if Canonical(id).Some? then Canonical(id).value else id }

  /** flights holds the command in progress on each payment, by its primary key: at most one. */
  datatype Net = Net(world: World, flights: map<string, Flight>)

  datatype Step =
    | Open(orderId: string, amount: int, currency: string)
    | Begin(id: string, command: Command)
    | Pay(id: string)
    | Finish(id: string)
    | Die(id: string)

  function BeginStep(env: Env, n: Net, id: string, c: Command): Net {
    if Key(id) in n.flights then n else
      var (w, loaded) := LoadById(env, n.world, id);
      if loaded.Failure? then Net(w, n.flights) else Launch(Net(w, n.flights), Key(id), c, loaded.value)
  }

  /** The domain change on the loaded copy. */
  function Launch(n: Net, id: string, c: Command, p: Snapshot): Net {
    match Apply(p, c)
    case Failure(_) => n
    case Success(applied) => n.(flights := n.flights[id := FlightOf(c, applied)])
  }

  function FlightOf(c: Command, applied: (Snapshot, seq<DomainEvent>)): Flight { Flight(c, applied.0, applied.1, false) }

  function PayStep(env: Env, n: Net, id: string): Net {
    if id !in n.flights || n.flights[id].charged then n else
      var (w, err) := Charge(env, n.world, n.flights[id].command, n.flights[id].payment);
      if err.Some? then Net(w, n.flights - {id}) else Net(w, n.flights[id := n.flights[id].(charged := true)])
  }

  function FinishStep(env: Env, n: Net, id: string): Net {
    if id !in n.flights || !n.flights[id].charged then n else
      Net(SaveStep(env, n.world, n.flights[id].payment, n.flights[id].events).0, n.flights - {id})
  }

  /** One atomic step; a step that is not enabled changes nothing. */
  function Next(env: Env, n: Net, s: Step): Net {
    match s
    case Open(orderId, amount, currency) =>
      n.(world := CreateStep(env, n.world, orderId, amount, currency).0)
    case Begin(id, c) => BeginStep(env, n, id, c)
    case Pay(id) => PayStep(env, n, id)
    case Finish(id) => FinishStep(env, n, id)
    case Die(id) => n.(flights := n.flights - {id})
  }

  function Run(env: Env, n: Net, steps: seq<Step>): Net {
    if steps == [] then n else Next(env, Run(env, n, steps[..|steps| - 1]), steps[|steps| - 1])
  }

  /** The world is sound, and every command in flight holds a successor of the row as it still is. */
  ghost predicate SoundNet(n: Net) {
    && Sound(n.world)
    && forall id | id in n.flights ::
         var i := IndexOf(n.world.rows, id);
         && i < |n.world.rows|
         && Follows(Scanned(n.world.rows[i]), n.flights[id].payment, n.flights[id].events)
  }

  lemma NextKeepsSound(env: Env, n: Net, s: Step)
    requires SoundNet(n)
    ensures SoundNet(Next(env, n, s))
  {
    match s
    case Open(orderId, amount, currency) => OpenKeepsSound(env, n, orderId, amount, currency);
    case Begin(id, c) => BeginKeepsSound(env, n, id, c);
    case Pay(id) => PayKeepsSound(env, n, id);
    case Finish(id) => if id in n.flights && n.flights[id].charged { FinishKeepsSound(env, n, id); }
    case Die(id) =>
  }

  lemma ChargeKeepsTables(env: Env, w: World, c: Command, p: Snapshot)
    ensures var w' := Charge(env, w, c, p).0; w' == w.(log := w'.log, calls := w'.calls)
  {}

  lemma PayKeepsSound(env: Env, n: Net, id: string)
    requires SoundNet(n)
    ensures SoundNet(PayStep(env, n, id))
  {
    if id in n.flights && !n.flights[id].charged {
      var f := n.flights[id];
      var (w, err) := Charge(env, n.world, f.command, f.payment);
      ChargeKeepsTables(env, n.world, f.command, f.payment);
      SameTables(n, w, if err.Some? then n.flights - {id} else n.flights[id := f.(charged := true)]);
    }
  }

  lemma SameTables(n: Net, w: World, flights: map<string, Flight>)
    requires SoundNet(n) && w == n.world.(log := w.log, calls := w.calls)
    requires forall id | id in flights ::
      id in n.flights && flights[id].(charged := n.flights[id].charged) == n.flights[id]
    ensures SoundNet(Net(w, flights))
  {}

  lemma FinishKeepsSound(env: Env, n: Net, id: string)
    requires SoundNet(n) && id in n.flights && n.flights[id].charged
    ensures SoundNet(FinishStep(env, n, id))
  {
    SavedNet(env, n, id, n.flights[id].payment, n.flights[id].events);
  }

  lemma SavedNet(env: Env, n: Net, id: string, p: Snapshot, events: seq<DomainEvent>)
    requires SoundNet(n) && id in n.flights && n.flights[id].payment == p && n.flights[id].events == events
    ensures SoundNet(Net(SaveStep(env, n.world, p, events).0, n.flights - {id}))
  {
    var i := IndexOf(n.world.rows, id);
    assert SoundRow(n.world.outbox, n.world.issued, n.world.rows[i]);
    SaveKeepsSound(env, n.world, i, p, events);
    SaveTouchesOneRow(env, n.world, i, p, events);
    Landed(n, Net(SaveStep(env, n.world, p, events).0, n.flights - {id}), id);
  }

  /** The commands on other payments do not notice. */
  lemma Landed(n: Net, n': Net, id: string)
    requires SoundNet(n) && id in n.flights && n'.flights == n.flights - {id}
    requires Sound(n'.world) && |n'.world.rows| == |n.world.rows|
    requires forall j | 0 <= j < |n.world.rows| && j != IndexOf(n.world.rows, id) :: n'.world.rows[j] == n.world.rows[j]
    requires forall other :: IndexOf(n'.world.rows, other) == IndexOf(n.world.rows, other)
    ensures SoundNet(n')
  {
    forall other | other in n.flights && other != id
      ensures IndexOf(n.world.rows, other) != IndexOf(n.world.rows, id)
    {
      assert n.world.rows[IndexOf(n.world.rows, other)].id == other;
    }
  }

  lemma OpenKeepsSound(env: Env, n: Net, orderId: string, amount: int, currency: string)
    requires SoundNet(n)
    ensures SoundNet(Next(env, n, Open(orderId, amount, currency)))
  {
    CreateKeepsSound(env, n.world, orderId, amount, currency);
  }

  lemma BeginKeepsSound(env: Env, n: Net, id: string, c: Command)
    requires SoundNet(n)
    ensures SoundNet(BeginStep(env, n, id, c))
  {
    var (w, loaded) := LoadById(env, n.world, id);
    assert w == Tick(n.world);
    SameTables(n, w, n.flights);
    if loaded.Success? {
      LoadedOnRow(env, n.world, id);
      LaunchKeepsSound(Net(w, n.flights), Key(id), c);
    }
  }

  lemma LaunchKeepsSound(n: Net, id: string, c: Command)
    requires SoundNet(n) && IndexOf(n.world.rows, id) < |n.world.rows|
    ensures SoundNet(Launch(n, id, c, Scanned(n.world.rows[IndexOf(n.world.rows, id)])))
  {
    var i := IndexOf(n.world.rows, id);
    match Apply(Scanned(n.world.rows[i]), c)
    case Failure(_) =>
    case Success((q, events)) => CommandOnRow(n.world, i, c, q, events);
  }

  /** What is loaded by a text is the row of its key. */
  lemma LoadedOnRow(env: Env, w: World, id: string)
    requires Sound(w) && LoadById(env, w, id).1.Success?
    ensures var i := IndexOf(w.rows, Key(id)); i < |w.rows| && LoadById(env, w, id).1.value == Scanned(w.rows[i])
  {
    LoadsByKey(env, w, id);
  }

  lemma LoadsByKey(env: Env, w: World, id: string)
    requires Sound(w) && Canonical(id).Some? && IndexOf(w.rows, Key(id)) < |w.rows|
    ensures LoadById(env, w, id)
         == (Tick(w), if env.outcome(w.calls) == Done then Success(Scanned(w.rows[IndexOf(w.rows, Key(id))]))
                      else Failure(StoreFailed))
  {
    LoadsTheRow(env, w, IndexOf(w.rows, Key(id)));
  }

  lemma CommandOnRow(w: World, i: nat, c: Command, q: Snapshot, events: seq<DomainEvent>)
    requires Sound(w) && i < |w.rows| && Apply(Scanned(w.rows[i]), c) == Success((q, events))
    ensures Follows(Scanned(w.rows[i]), q, events)
  {
    assert SoundRow(w.outbox, w.issued, w.rows[i]);
    CommandFollows(Scanned(w.rows[i]), c, q, events);
  }

  lemma LoadsTheRow(env: Env, w: World, i: nat)
    requires Sound(w) && i < |w.rows|
    ensures LoadStep(env, w, i).1
         == if env.outcome(w.calls) == Done then Success(Scanned(w.rows[i])) else Failure(StoreFailed)
  {
    assert SoundRow(w.outbox, w.issued, w.rows[i]);
    ReconstructIsWellFormed(Scanned(w.rows[i]));
  }

  lemma SaveTouchesOneRow(env: Env, w: World, i: nat, p: Snapshot, events: seq<DomainEvent>)
    requires i < |w.rows| && i == IndexOf(w.rows, p.id) && IsUuid(p.id)
    ensures var rows := SaveStep(env, w, p, events).0.rows;
      && |rows| == |w.rows|
      && (forall j | 0 <= j < |rows| :: rows[j].id == w.rows[j].id)
      && (forall j | 0 <= j < |rows| && j != i :: rows[j] == w.rows[j])
      && forall id :: IndexOf(rows, id) == IndexOf(w.rows, id)
  {
    var rows := SaveStep(env, w, p, events).0.rows;
    SameIds(w.rows, rows);
    SameIds(rows, w.rows);
  }

  /** In every run from the empty tables, whatever fails and however commands on different
      payments interleave, each payment's outbox records are those of its status and nothing
      else, and paid_at is set exactly on the paid and the refunded ones. */
  lemma {:induction false} OutboxFollowsStatus(env: Env, steps: seq<Step>)
    ensures SoundNet(Run(env, Net(EMPTY_WORLD, map[]), steps))
  {
    if steps != [] {
      var n := |steps| - 1;
      OutboxFollowsStatus(env, steps[..n]);
      NextKeepsSound(env, Run(env, Net(EMPTY_WORLD, map[]), steps[..n]), steps[n]);
    }
  }

  /** A command that nothing interleaves with is the run of its three steps. */
  lemma CommandIsARun(env: Env, w: World, id: string, c: Command)
    ensures Run(env, Net(w, map[]), [Begin(id, c), Pay(Key(id)), Finish(Key(id))]).world == Execute(env, w, id, c).0
  {
    var n0 := Net(w, map[]);
    RunThree(env, n0, Begin(id, c), Pay(Key(id)), Finish(Key(id)));
    PayThenFinish(env, BeginStep(env, n0, id, c), Key(id));
  }

  /** From its load on, a command that nothing interleaves with charges and saves. */
  lemma PayThenFinish(env: Env, n: Net, id: string)
    requires id in n.flights ==> !n.flights[id].charged
    ensures FinishStep(env, PayStep(env, n, id), id).world
         == if id !in n.flights then n.world
            else ChargeAndSave(env, n.world, n.flights[id].command, n.flights[id].payment, n.flights[id].events).0
  {}

  lemma RunThree(env: Env, n: Net, a: Step, b: Step, c: Step)
    ensures Run(env, n, [a, b, c]) == Next(env, Next(env, Next(env, n, a), b), c)
  {
    RunOneMore(env, n, [], a);
    RunOneMore(env, n, [a], b);
    RunOneMore(env, n, [a, b], c);
    assert [] + [a] == [a] && [a] + [b] == [a, b] && [a, b] + [c] == [a, b, c];
  }

  lemma RunOneMore(env: Env, n: Net, steps: seq<Step>, s: Step)
    ensures Run(env, n, steps + [s]) == Next(env, Run(env, n, steps), s)
  {
    assert (steps + [s])[..|steps|] == steps;
  }

  /** So one command keeps the tables sound. */
  lemma ExecuteKeepsSound(env: Env, w: World, id: string, c: Command)
    requires Sound(w)
    ensures var w' := Execute(env, w, id, c).0; Sound(w') && Extends(w, w')
  {
    var i := IndexOf(w.rows, Key(id));
    if Canonical(id).Some? && i < |w.rows| {
      LoadsByKey(env, w, id);
      var p := Scanned(w.rows[i]);
      if env.outcome(w.calls) == Done && Apply(p, c).Success? {
        var (q, events) := Apply(p, c).value;
        CommandOnRow(w, i, c, q, events);
        SoundAfterCharge(w, Tick(w));
        ChargedKeepsSound(env, Tick(w), i, c, q, events);
      }
    }
  }

  /** The second half of a command. */
  lemma ChargedKeepsSound(env: Env, w: World, i: nat, c: Command, q: Snapshot, events: seq<DomainEvent>)
    requires Sound(w) && i < |w.rows| && Follows(Scanned(w.rows[i]), q, events)
    ensures var w' := ChargeAndSave(env, w, c, q, events).0; Sound(w') && Extends(w, w')
  {
    var w2 := Charge(env, w, c, q).0;
    ChargeKeepsTables(env, w, c, q);
    SoundAfterCharge(w, w2);
    SaveKeepsSound(env, w2, i, q, events);
  }

  lemma SoundAfterCharge(w: World, w': World)
    requires Sound(w) && w' == w.(log := w'.log, calls := w'.calls)
    ensures Sound(w') && Extends(w, w')
  {}

  // ----- without the hypothesis -----

  /** Commands on one payment may overlap in the code, because a save does not look at what it
      overwrites. A committed save of a copy that was loaded as `loaded` keeps the payment's
      records in step with its row exactly if the row is still what was loaded. */
  lemma StaleSave(env: Env, w: World, i: nat, loaded: Snapshot, c: Command)
    requires Sound(w) && i < |w.rows|
    requires loaded.WellFormed() && Apply(loaded, c).Success? && env.outcome(w.calls) != Refused
    requires var now := Scanned(w.rows[i]); loaded == now.(status := loaded.status, failureReason := loaded.failureReason)
    ensures var (q, events) := Apply(loaded, c).value;
      var w' := SaveStep(env, w, q, events).0;
      && i < |w'.rows| && Scanned(w'.rows[i]) == q
      && (RecordsOf(w'.outbox, q.id) == History(q) <==> Scanned(w.rows[i]) == loaded)
  {
    var row := w.rows[i];
    var (q, events) := Apply(loaded, c).value;
    CommandFollows(loaded, c, q, events);
    StaleCopy(env, w, i, loaded, q, events);
  }

  lemma StaleCopy(env: Env, w: World, i: nat, loaded: Snapshot, q: Snapshot, events: seq<DomainEvent>)
    requires Sound(w) && i < |w.rows| && loaded.WellFormed()
    requires Follows(loaded, q, events) && env.outcome(w.calls) != Refused
    requires var now := Scanned(w.rows[i]); loaded == now.(status := loaded.status, failureReason := loaded.failureReason)
    ensures var w' := SaveStep(env, w, q, events).0;
      && i < |w'.rows| && Scanned(w'.rows[i]) == q
      && (RecordsOf(w'.outbox, q.id) == History(q) <==> Scanned(w.rows[i]) == loaded)
  {
    var row, added := w.rows[i], MapEvents(q, events);
    assert SoundRow(w.outbox, w.issued, row);
    assert IndexOf(w.rows, q.id) == i;
    assert Storable(q) && Stored(q) == q;
    UpsertLookup(w.rows, q, env.clock(w.calls));
    RecordsOfAppend(w.outbox, added, q.id);
    OwnRecords(added, q.id);
    HistoryInjective(loaded, Scanned(row));
    SameSuffix(History(Scanned(row)), History(loaded), added);
  }

  lemma SameSuffix<T>(a: seq<T>, b: seq<T>, c: seq<T>)
    ensures a + c == b + c <==> a == b
  {
    if a + c == b + c {
      assert |a| == |b|;
      assert a == (a + c)[..|a|] == (b + c)[..|b|] == b;
    }
  }
}
