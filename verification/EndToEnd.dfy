// The whole pipeline: orders and their outbox, any number of relays, the partitioned topic, and the
// payment consumer with its tables. Once everything sent about an order has been handled, its payment
// is the one that the order calls for.
module EndToEnd {
  import opened Wrappers
  import opened Faults
  import opened Text
  import opened Uuids
  import Orders
  import OrderRuns
  import Relay
  import RelayOrder
  import Payments
  import PaymentStore
  import opened Publisher
  import opened Consumer
  import opened ConsumerRuns

  /** part is the partition of a key; the key of every message is its order id. */
  datatype Setting = Setting(cfg: Config, batchSize: nat, part: string -> nat)

  /** read holds the position up to which each partition has been read and committed; handled, every
      handling of a message so far. */
  datatype Pipeline = Pipeline(orders: OrderRuns.Net, relay: Relay.System, read: map<nat, nat>, handled: seq<Handled>)

  const START := Pipeline(OrderRuns.Net(Orders.EMPTY_WORLD, map[]), Relay.EMPTY_SYSTEM, map[], [])

  function Outbox(s: Pipeline): seq<Orders.IntegrationEvent> { s.orders.world.outbox }

  function PaymentTables(x: Setting, s: Pipeline): PaymentStore.World {
    Consume(PaymentStore.EMPTY_WORLD, x.cfg, s.handled)
  }

  function ReadUpTo(s: Pipeline, partition: nat): nat {
    if partition in s.read then s.read[partition] else 0
  }

  /** What the consumer decodes from the message of an outbox row; occurred_at does not matter. */
  function DeliveryOf(e: Orders.IntegrationEvent): (d: Delivery)
    ensures d == if e.CancelledV1? then Cancelled(e.orderId) else Placed(e.orderId)
  {
    SentIsReceived(e, "");
    Decode(MessageOf(e, ""))
  }

  /** The message at a position of the topic. */
  function At(s: Pipeline, j: nat): Orders.IntegrationEvent
    requires j < |s.relay.topic| && s.relay.topic[j] < |Outbox(s)|
  {
    Outbox(s)[s.relay.topic[j]]
  }

  /** The message at position j is this delivery. */
  predicate Holds(s: Pipeline, j: nat, d: Delivery) {
    j < |s.relay.topic| && s.relay.topic[j] < |Outbox(s)| && DeliveryOf(At(s, j)) == d
  }

  predicate InPartition(x: Setting, s: Pipeline, j: nat, partition: nat) {
    j < |s.relay.topic| && s.relay.topic[j] < |Outbox(s)| && x.part(At(s, j).orderId) == partition
  }

  datatype Step =
    | OrderStep(order: OrderRuns.Step)
    | RelayStep(step: Relay.Step)
    | Deliver(position: nat, envs: seq<PaymentStore.Env>, passed: bool)
    | Rewind(partition: nat, position: nat)

  function Inserted(s: Relay.System, n: nat): Relay.System {
    if n == 0 then s else Relay.Next(0, Inserted(s, n - 1), Relay.Insert)
  }

  /** The message at j is the next one of its partition. */
  ghost predicate IsNext(x: Setting, s: Pipeline, j: nat) {
    && j < |s.relay.topic| && s.relay.topic[j] < |Outbox(s)|
    && var p := x.part(At(s, j).orderId);
    && ReadUpTo(s, p) <= j
    && forall i: nat {:trigger InPartition(x, s, i, p)} | ReadUpTo(s, p) <= i < j :: !InPartition(x, s, i, p)
  }

  function Delivered(x: Setting, s: Pipeline, j: nat, envs: seq<PaymentStore.Env>, passed: bool): Pipeline
    requires j < |s.relay.topic| && s.relay.topic[j] < |Outbox(s)|
  {
    s.(read := if passed then s.read[x.part(At(s, j).orderId) := j + 1] else s.read,
       handled := s.handled + [Handled(DeliveryOf(At(s, j)), envs, passed)])
  }

  /** The order service has made a step; what it has added to the outbox is pending. */
  function Ordered(s: Pipeline, orders: OrderRuns.Net): Pipeline {
    var added := |orders.world.outbox| - |Outbox(s)|;
    s.(orders := orders, relay := Inserted(s.relay, if added < 0 then 0 else added))
  }

  /** One step of the pipeline; one that is not enabled changes nothing. Order rows and their outbox rows
      come in one transaction. The consumer makes any attempts at the next message of a partition, and
      then goes on, whether or not one succeeded, or dies before it does; and it may be set back, to
      read messages again that it has read before. */
  ghost function Next(x: Setting, s: Pipeline, step: Step): Pipeline {
    match step
    case OrderStep(o) => Ordered(s, OrderRuns.Next(s.orders, o))
    case RelayStep(r) => if r.Insert? then s else s.(relay := Relay.Next(x.batchSize, s.relay, r))
    case Deliver(j, envs, passed) => if IsNext(x, s, j) then Delivered(x, s, j, envs, passed) else s
    case Rewind(p, j) => if j <= ReadUpTo(s, p) then s.(read := s.read[p := j]) else s
  }

  ghost function Run(x: Setting, s: Pipeline, steps: seq<Step>): Pipeline {
    if steps == [] then s else Next(x, Run(x, s, steps[..|steps| - 1]), steps[|steps| - 1])
  }

  // ----- what every step keeps -----

  ghost predicate FromOutbox(outbox: seq<Orders.IntegrationEvent>, d: Delivery) {
    exists c :: 0 <= c < |outbox| && DeliveryOf(outbox[c]) == d
  }

  ghost predicate AllFromOutbox(s: Pipeline) {
    forall m | 0 <= m < |s.handled| :: FromOutbox(Outbox(s), s.handled[m].delivery)
  }

  /** No cancellation of this order is in the topic without a placement of it before. */
  ghost predicate InOrder(s: Pipeline, id: string) {
    forall j: nat | Holds(s, j, Cancelled(id)) :: exists i: nat :: i < j && Holds(s, i, Placed(id))
  }

  /** No cancellation of this order is handled before the consumer has gone on from a placement of it. */
  ghost predicate PlacedPassed(hs: seq<Handled>, id: string) {
    forall m | 0 <= m < |hs| && hs[m].delivery == Cancelled(id) :: Passed(hs[..m], Placed(id))
  }

  /** What has been read has been gone on from. */
  ghost predicate ReadIsPassed(x: Setting, s: Pipeline) {
    forall j: nat, p: nat {:trigger InPartition(x, s, j, p)} | InPartition(x, s, j, p) && j < ReadUpTo(s, p) ::
      Passed(s.handled, DeliveryOf(At(s, j)))
  }

  ghost predicate SoundHandled(x: Setting, s: Pipeline) {
    && AllFromOutbox(s)
    && (forall id | InOrder(s, id) :: PlacedPassed(s.handled, id))
    && ReadIsPassed(x, s)
    && forall p | p in s.read :: s.read[p] <= |s.relay.topic|
  }

  ghost predicate Sound(x: Setting, s: Pipeline) {
    && OrderRuns.SoundNet(s.orders)
    && Relay.Sound(s.relay) && |s.relay.rows| == |Outbox(s)|
    && SoundHandled(x, s)
  }

  lemma {:induction false} FirstEvent(outbox: seq<Orders.IntegrationEvent>, id: string, c: nat) returns (d: nat)
    requires c < |outbox| && outbox[c].orderId == id
    ensures d <= c && OrderRuns.EventsOf(outbox, id) != [] && outbox[d] == OrderRuns.EventsOf(outbox, id)[0]
  {
    var n := |outbox| - 1;
    if c < n {
      d := FirstEvent(outbox[..n], id, c);
    } else if OrderRuns.EventsOf(outbox[..n], id) == [] {
      d := c;
    } else {
      var k := Occurrence(outbox[..n], id);
      d := FirstEvent(outbox[..n], id, k);
    }
  }

  lemma Occurrence(outbox: seq<Orders.IntegrationEvent>, id: string) returns (k: nat)
    requires OrderRuns.EventsOf(outbox, id) != []
    ensures k < |outbox| && outbox[k].orderId == id
  {
    if forall k | 0 <= k < |outbox| :: outbox[k].orderId != id { OrderRuns.NoEvents(outbox, id); }
    k :| 0 <= k < |outbox| && outbox[k].orderId == id;
  }

  /** In the outbox, every order's first event is its placement. */
  lemma PlacementIsFirst(w: Orders.World, c: nat) returns (d: nat)
    requires OrderRuns.Sound(w) && c < |w.outbox|
    ensures d <= c && DeliveryOf(w.outbox[d]) == Placed(w.outbox[c].orderId)
  {
    assert OrderRuns.SoundOrder(w, w.outbox[c].orderId);
    d := FirstEvent(w.outbox, w.outbox[c].orderId, c);
  }

  lemma {:induction false} MemberOfEvents(outbox: seq<Orders.IntegrationEvent>, id: string, c: nat)
    requires c < |outbox| && outbox[c].orderId == id
    ensures outbox[c] in OrderRuns.EventsOf(outbox, id)
  {
    if c < |outbox| - 1 { MemberOfEvents(outbox[..|outbox| - 1], id, c); }
  }

  lemma {:induction false} EventsAreMembers(outbox: seq<Orders.IntegrationEvent>, id: string)
    ensures forall e | e in OrderRuns.EventsOf(outbox, id) :: e in outbox
  {
    if outbox != [] {
      var n := |outbox| - 1;
      EventsAreMembers(outbox[..n], id);
      assert outbox == outbox[..n] + [outbox[n]];
    }
  }

  /** The outbox by order: placements of exactly the orders there are, and cancellations of exactly
      the cancelled ones. */
  lemma OutboxByOrder(w: Orders.World, id: string)
    requires OrderRuns.Sound(w)
    ensures FromOutbox(w.outbox, Placed(id)) <==> id in w.rows
    ensures FromOutbox(w.outbox, Cancelled(id)) <==> id in w.rows && w.rows[id].status == Orders.Cancelled
  {
    var sent := OrderRuns.EventsOf(w.outbox, id);
    EventsAreMembers(w.outbox, id);
    if id in w.rows {
      assert OrderRuns.Fits(w.rows[id], sent) && w.rows[id].id == id by { assert OrderRuns.SoundOrder(w, id); }
      assert sent[0] in sent && DeliveryOf(sent[0]) == Placed(id);
      if w.rows[id].status == Orders.Cancelled { assert sent[1] in sent && DeliveryOf(sent[1]) == Cancelled(id); }
    }
    if FromOutbox(w.outbox, Cancelled(id)) { CancelledIsSent(w, id); }
  }

  lemma CancelledIsSent(w: Orders.World, id: string)
    requires OrderRuns.Sound(w) && FromOutbox(w.outbox, Cancelled(id))
    ensures id in w.rows && w.rows[id].status == Orders.Cancelled
  {
    var c :| 0 <= c < |w.outbox| && DeliveryOf(w.outbox[c]) == Cancelled(id);
    assert OrderRuns.SoundOrder(w, id);
    MemberOfEvents(w.outbox, id, c);
  }

  lemma OrdersOnlySend(n: OrderRuns.Net, step: OrderRuns.Step)
    requires OrderRuns.SoundNet(n)
    ensures n.world.outbox <= OrderRuns.Next(n, step).world.outbox
  {
    match step
    case Open(u, i, q, o) => OrderRuns.CreateSendsItsOwn(n.world, u, i, q, o);
    case Begin(id, c, o) =>
    case Finish(id, o) =>
    case Die(id) =>
  }

  lemma {:induction false} InsertsKeepSound(s: Relay.System, n: nat)
    requires Relay.Sound(s)
    ensures var s' := Inserted(s, n);
      && Relay.Sound(s') && s'.topic == s.topic && |s'.rows| == |s.rows| + n
      && (RelayOrder.Ordered(s) ==> RelayOrder.Ordered(s'))
  {
    if n > 0 {
      InsertsKeepSound(s, n - 1);
      Relay.NextKeepsSound(0, Inserted(s, n - 1), Relay.Insert);
      if RelayOrder.Ordered(s) { RelayOrder.StepKeepsOrder(0, Inserted(s, n - 1), Relay.Insert); }
    }
  }

  /** More orders and more messages do not change what has been handled. */
  lemma MoreArrives(x: Setting, s: Pipeline, s': Pipeline)
    requires SoundHandled(x, s) && s'.handled == s.handled && s'.read == s.read
    requires Outbox(s) <= Outbox(s') && s.relay.topic <= s'.relay.topic
    requires forall i | i in s.relay.topic :: i < |Outbox(s)|
    ensures SoundHandled(x, s')
  {
    forall j: nat | j < |s.relay.topic|
      ensures s.relay.topic[j] < |Outbox(s)| && At(s', j) == At(s, j)
    {
      assert s.relay.topic[j] in s.relay.topic;
    }
    ReadBefore(x, s, s');
    forall m | 0 <= m < |s'.handled|
      ensures FromOutbox(Outbox(s'), s'.handled[m].delivery)
    {
      var c :| 0 <= c < |Outbox(s)| && DeliveryOf(Outbox(s)[c]) == s.handled[m].delivery;
      assert DeliveryOf(Outbox(s')[c]) == s.handled[m].delivery;
    }
    forall id | InOrder(s', id)
      ensures InOrder(s, id)
    {
      InOrderBefore(s, s', id);
    }
  }

  lemma InOrderBefore(s: Pipeline, s': Pipeline, id: string)
    requires InOrder(s', id) && s.relay.topic <= s'.relay.topic && Outbox(s) <= Outbox(s')
    requires forall j: nat | j < |s.relay.topic| :: s.relay.topic[j] < |Outbox(s)| && At(s', j) == At(s, j)
    ensures InOrder(s, id)
  {
    forall j: nat | Holds(s, j, Cancelled(id))
      ensures exists i: nat :: i < j && Holds(s, i, Placed(id))
    {
      assert Holds(s', j, Cancelled(id));
      var i: nat :| i < j && Holds(s', i, Placed(id));
      assert Holds(s, i, Placed(id));
    }
  }

  lemma ReadBefore(x: Setting, s: Pipeline, s': Pipeline)
    requires ReadIsPassed(x, s) && s'.handled == s.handled && s'.read == s.read
    requires forall p | p in s.read :: s.read[p] <= |s.relay.topic|
    requires s.relay.topic <= s'.relay.topic && Outbox(s) <= Outbox(s')
    requires forall j: nat | j < |s.relay.topic| :: s.relay.topic[j] < |Outbox(s)| && At(s', j) == At(s, j)
    ensures ReadIsPassed(x, s')
  {
    forall j: nat, p: nat | InPartition(x, s', j, p) && j < ReadUpTo(s', p)
      ensures Passed(s'.handled, DeliveryOf(At(s', j)))
    {
      assert InPartition(x, s, j, p);
    }
  }

  lemma OrderStepKeepsSound(x: Setting, s: Pipeline, o: OrderRuns.Step)
    requires Sound(x, s)
    ensures Sound(x, Next(x, s, OrderStep(o)))
  {
    OrderRuns.NextKeepsSound(s.orders, o);
    OrdersOnlySend(s.orders, o);
    OrderedKeepsSound(x, s, OrderRuns.Next(s.orders, o));
  }

  lemma OrderedKeepsSound(x: Setting, s: Pipeline, orders: OrderRuns.Net)
    requires Sound(x, s) && OrderRuns.SoundNet(orders) && Outbox(s) <= orders.world.outbox
    ensures Sound(x, Ordered(s, orders))
  {
    var added: nat := |orders.world.outbox| - |Outbox(s)|;
    InsertsKeepSound(s.relay, added);
    Joined(x, s, orders, Inserted(s.relay, added));
  }

  lemma Joined(x: Setting, s: Pipeline, orders: OrderRuns.Net, relay: Relay.System)
    requires Sound(x, s) && OrderRuns.SoundNet(orders) && Relay.Sound(relay)
    requires Outbox(s) <= orders.world.outbox && s.relay.topic <= relay.topic && |relay.rows| == |orders.world.outbox|
    ensures Sound(x, s.(orders := orders, relay := relay))
  {
    MoreArrives(x, s, s.(orders := orders, relay := relay));
  }

  lemma RelayStepKeepsSound(x: Setting, s: Pipeline, r: Relay.Step)
    requires Sound(x, s)
    ensures Sound(x, Next(x, s, RelayStep(r)))
  {
    if !r.Insert? {
      Relay.NextKeepsSound(x.batchSize, s.relay, r);
      SameRows(x.batchSize, s.relay, r);
      Joined(x, s, s.orders, Relay.Next(x.batchSize, s.relay, r));
    }
  }

  lemma SameRows(batchSize: nat, s: Relay.System, r: Relay.Step)
    requires !r.Insert?
    ensures |Relay.Next(batchSize, s, r).rows| == |s.rows|
  {}

  /** When a cancellation is next in its partition and the topic is in order for its order, then the
      consumer has gone on from the order's placement. */
  lemma PlacementPassed(x: Setting, s: Pipeline, j: nat)
    requires ReadIsPassed(x, s) && IsNext(x, s, j) && At(s, j).CancelledV1? && InOrder(s, At(s, j).orderId)
    ensures Passed(s.handled, Placed(At(s, j).orderId))
  {
    var id := At(s, j).orderId;
    assert Holds(s, j, Cancelled(id));
    var i: nat :| i < j && Holds(s, i, Placed(id));
    assert InPartition(x, s, i, x.part(id));
  }

  lemma DeliverKeepsSound(x: Setting, s: Pipeline, j: nat, envs: seq<PaymentStore.Env>, passed: bool)
    requires Sound(x, s) && IsNext(x, s, j)
    ensures Sound(x, Delivered(x, s, j, envs, passed))
  {
    var s', h := Delivered(x, s, j, envs, passed), Handled(DeliveryOf(At(s, j)), envs, passed);
    assert DeliveryOf(Outbox(s)[s.relay.topic[j]]) == h.delivery;
    PassedAppend(s.handled, h);
    forall id | InOrder(s', id)
      ensures PlacedPassed(s'.handled, id)
    {
      assert InOrder(s, id) by {
        forall k: nat, d: Delivery ensures Holds(s', k, d) == Holds(s, k, d) {}
      }
      if h.delivery == Cancelled(id) { PlacementPassed(x, s, j); }
      PlacedPassedAppend(s.handled, h, id);
    }
    ReadAfterDelivery(x, s, s', j, h);
  }

  lemma PassedAppend(hs: seq<Handled>, h: Handled)
    ensures forall d :: Passed(hs + [h], d) <==> Passed(hs, d) || (h.passed && h.delivery == d)
  {
    var all := hs + [h];
    assert all[|hs|] == h && forall m | 0 <= m < |hs| :: all[m] == hs[m];
  }

  lemma PlacedPassedAppend(hs: seq<Handled>, h: Handled, id: string)
    requires PlacedPassed(hs, id) && (h.delivery == Cancelled(id) ==> Passed(hs, Placed(id)))
    ensures PlacedPassed(hs + [h], id)
  {
    var all := hs + [h];
    forall m | 0 <= m < |all| && all[m].delivery == Cancelled(id)
      ensures Passed(all[..m], Placed(id))
    {
      assert all[..m] == hs[..m];
      assert hs[..|hs|] == hs;
    }
  }

  lemma ReadAfterDelivery(x: Setting, s: Pipeline, s': Pipeline, j: nat, h: Handled)
    requires ReadIsPassed(x, s) && IsNext(x, s, j) && h.delivery == DeliveryOf(At(s, j))
    requires s'.orders == s.orders && s'.relay == s.relay && s'.handled == s.handled + [h]
    requires s'.read == if h.passed then s.read[x.part(At(s, j).orderId) := j + 1] else s.read
    ensures ReadIsPassed(x, s')
  {
    PassedAppend(s.handled, h);
    forall i: nat, q: nat | InPartition(x, s', i, q) && i < ReadUpTo(s', q)
      ensures Passed(s'.handled, DeliveryOf(At(s', i)))
    {
      assert InPartition(x, s, i, q) && At(s', i) == At(s, i);
      if i >= ReadUpTo(s, q) { assert i == j; }
    }
  }

  lemma RewindKeepsSound(x: Setting, s: Pipeline, p: nat, j: nat)
    requires Sound(x, s)
    ensures Sound(x, Next(x, s, Rewind(p, j)))
  {
    var s' := Next(x, s, Rewind(p, j));
    forall i: nat, q: nat | InPartition(x, s', i, q) && i < ReadUpTo(s', q)
      ensures Passed(s'.handled, DeliveryOf(At(s', i)))
    {
      assert InPartition(x, s, i, q);
    }
    forall id | InOrder(s', id)
      ensures InOrder(s, id)
    {
      forall k: nat, d: Delivery ensures Holds(s', k, d) == Holds(s, k, d) {}
    }
  }

  lemma NextKeepsSound(x: Setting, s: Pipeline, step: Step)
    requires Sound(x, s)
    ensures Sound(x, Next(x, s, step))
  {
    match step
    case OrderStep(o) => OrderStepKeepsSound(x, s, o);
    case RelayStep(r) => RelayStepKeepsSound(x, s, r);
    case Deliver(j, envs, passed) => if IsNext(x, s, j) { DeliverKeepsSound(x, s, j, envs, passed); }
    case Rewind(p, j) => RewindKeepsSound(x, s, p, j);
  }

  lemma {:induction false} RunKeepsSound(x: Setting, s: Pipeline, steps: seq<Step>)
    requires Sound(x, s)
    ensures Sound(x, Run(x, s, steps))
  {
    if steps != [] {
      RunKeepsSound(x, s, steps[..|steps| - 1]);
      NextKeepsSound(x, Run(x, s, steps[..|steps| - 1]), steps[|steps| - 1]);
    }
  }

  lemma StartIsSound(x: Setting)
    ensures Sound(x, START)
  {}

  // ----- the results -----

  /** What concerns an order, among the messages of an outbox, names it by its id as it is. */
  lemma Named(s: Pipeline, order: string)
    requires OrderRuns.Sound(s.orders.world) && AllFromOutbox(s)
    ensures SomePlacement(Deliveries(s.handled), order) ==> order in s.orders.world.rows
    ensures SomeCancellation(Deliveries(s.handled), order) ==>
      order in s.orders.world.rows && s.orders.world.rows[order].status == Orders.Cancelled
    ensures forall m | 0 <= m < |s.handled| && Concerns(s.handled[m].delivery, order) ::
      s.handled[m].delivery == Placed(order) || s.handled[m].delivery == Cancelled(order)
  {
    OutboxByOrder(s.orders.world, order);
    forall m | 0 <= m < |s.handled| && Concerns(s.handled[m].delivery, order)
      ensures s.handled[m].delivery.orderId == order
    {
      var c :| 0 <= c < |Outbox(s)| && DeliveryOf(Outbox(s)[c]) == s.handled[m].delivery;
      assert OrderRuns.SoundOrder(s.orders.world, Outbox(s)[c].orderId);
    }
  }

  /** At any time in any run, without any hypothesis: at most one payment for each order, none without an
      order, and none failed or refunded unless the order is cancelled. */
  lemma PaymentsHaveOrders(x: Setting, steps: seq<Step>, id: string)
    ensures var s := Run(x, START, steps);
      var w, rows, v := PaymentTables(x, s), s.orders.world.rows, View(PaymentTables(x, s), id);
      && Good(w)
      && (v.Some? ==> id in rows)
      && (v.Some? && v.value.status !in {Payments.Pending, Payments.Paid} ==> rows[id].status == Orders.Cancelled)
  {
    StartIsSound(x);
    RunKeepsSound(x, START, steps);
    var s := Run(x, START, steps);
    ConsumeKeepsGood(PaymentStore.EMPTY_WORLD, x.cfg, s.handled);
    NothingUncalledFor(x.cfg, s.handled, id);
    Named(s, id);
  }

  /** At any time in any run, of an order whose cancellation has not overtaken its placement and of which no
      message has been given up: its payment is what has been handled of it makes due. */
  lemma PaymentsFollowHandled(x: Setting, steps: seq<Step>, id: string)
    requires var s := Run(x, START, steps); InOrder(s, id) && Kept(x.cfg, s.handled, id)
    ensures var s := Run(x, START, steps);
      Due(x.cfg, id, StageOf(x.cfg, s.handled, id), View(PaymentTables(x, s), id))
  {
    StartIsSound(x);
    RunKeepsSound(x, START, steps);
    var s := Run(x, START, steps);
    Named(s, id);
    PlacedFirstOf(x.cfg, s.handled, id);
    InterruptedFate(x.cfg, s.handled, id);
  }

  /** Every outbox row of this order is marked as published, and every message of it has been read. */
  ghost predicate Drained(x: Setting, s: Pipeline, id: string) {
    && (forall i: nat | i < |s.relay.rows| && i < |Outbox(s)| && Outbox(s)[i].orderId == id :: s.relay.rows[i].published)
    && forall j: nat | Holds(s, j, Placed(id)) || Holds(s, j, Cancelled(id)) :: j < ReadUpTo(s, x.part(id))
  }

  /** The payment due for an order: the standard one, paid, or refunded if it is cancelled. */
  function DueFor(cfg: Config, w: Orders.World, id: string): Option<Payments.Snapshot> {
    if id !in w.rows then None
    else Some(NewView(cfg, id).(status :=
                if w.rows[id].status == Orders.Cancelled then Payments.Refunded else Payments.Paid))
  }

  /** Convergence, order by order. Once an order's outbox rows are published and its messages read, it has
      exactly one payment, paid, or refunded if the order is cancelled; and there is none for an order
      that does not exist. Two things must not have happened to this order: that its cancellation has
      overtaken its placement on the way to the topic, and that the consumer has gone on from one of its
      messages without success. Anything else may have: any number of relays, crashes, rolled-back
      batches, failing publishes, duplicates, redeliveries, interrupted attempts, and anything at all to
      the messages of other orders. */
  lemma Convergence(x: Setting, steps: seq<Step>, id: string)
    requires Usable(x.cfg)
    requires var s := Run(x, START, steps);
      Drained(x, s, id) && InOrder(s, id) && Kept(x.cfg, s.handled, id)
    ensures var s := Run(x, START, steps);
      Good(PaymentTables(x, s)) && View(PaymentTables(x, s), id) == DueFor(x.cfg, s.orders.world, id)
  {
    StartIsSound(x);
    RunKeepsSound(x, START, steps);
    var s := Run(x, START, steps);
    ConsumeKeepsGood(PaymentStore.EMPTY_WORLD, x.cfg, s.handled);
    Named(s, id);
    PaymentsFollowHandled(x, steps, id);
    if id in s.orders.world.rows {
      assert OrderRuns.SoundOrder(s.orders.world, id);
      OutboxByOrder(s.orders.world, id);
      SentIsSettled(x, s, Placed(id), id);
      if s.orders.world.rows[id].status == Orders.Cancelled { SentIsSettled(x, s, Cancelled(id), id); }
    }
  }

  lemma SentIsSettled(x: Setting, s: Pipeline, d: Delivery, id: string)
    requires Sound(x, s) && Drained(x, s, id) && Kept(x.cfg, s.handled, id) && IsUuid(id)
    requires d in {Placed(id), Cancelled(id)} && FromOutbox(Outbox(s), d)
    ensures if d.Placed? then PlacementSettled(x.cfg, s.handled, id) else CancellationSettled(x.cfg, s.handled, id)
  {
    SentIsPassed(x, s, d, id);
    PassedIsSettled(x.cfg, s.handled, d, id);
  }

  lemma SentIsPassed(x: Setting, s: Pipeline, d: Delivery, id: string)
    requires Sound(x, s) && Drained(x, s, id)
    requires d in {Placed(id), Cancelled(id)} && FromOutbox(Outbox(s), d)
    ensures Passed(s.handled, d)
  {
    var c :| 0 <= c < |Outbox(s)| && DeliveryOf(Outbox(s)[c]) == d;
    assert Relay.SoundRow(s.relay, c);
    var j :| 0 <= j < |s.relay.topic| && s.relay.topic[j] == c;
    assert Holds(s, j, d);
    assert InPartition(x, s, j, x.part(id));
  }

  predicate IsCancelled(w: Orders.World, id: string) { id in w.rows && w.rows[id].status == Orders.Cancelled }

  /** And when its cancellation may have overtaken its placement, exactly: with its rows published, its
      messages read and every handling of them ended well, an order has the payment that is due to it if
      and only if, should it be cancelled, some cancellation was handled after some placement. */
  lemma ConvergenceExactly(x: Setting, steps: seq<Step>, id: string)
    requires Usable(x.cfg)
    requires var s := Run(x, START, steps);
      Drained(x, s, id) && AllSettled(PaymentStore.EMPTY_WORLD, x.cfg, s.handled, id)
    ensures var s := Run(x, START, steps);
      View(PaymentTables(x, s), id) == DueFor(x.cfg, s.orders.world, id) <==>
        (IsCancelled(s.orders.world, id) ==> PlacedThenCancelled(Deliveries(s.handled), id))
  {
    StartIsSound(x);
    RunKeepsSound(x, START, steps);
    var s := Run(x, START, steps);
    ConsumeMeansFate(x.cfg, s.handled, id);
    DrainedDeliveries(x, s, id);
    FateIsDue(x.cfg, s.orders.world, Deliveries(s.handled), id);
  }

  /** The deliveries of a drained order: a placement exactly if it exists, and a cancellation only if it
      is cancelled. */
  lemma DrainedDeliveries(x: Setting, s: Pipeline, id: string)
    requires Sound(x, s) && Drained(x, s, id)
    ensures var w, ds := s.orders.world, Deliveries(s.handled);
      (SomePlacement(ds, id) <==> id in w.rows) && (SomeCancellation(ds, id) ==> IsCancelled(w, id))
  {
    Named(s, id);
    OutboxByOrder(s.orders.world, id);
    if id in s.orders.world.rows {
      assert IsUuid(id) by { assert OrderRuns.SoundOrder(s.orders.world, id); }
      SentIsPassed(x, s, Placed(id), id);
      var m :| 0 <= m < |s.handled| && s.handled[m].delivery == Placed(id);
      assert IsPlacement(Deliveries(s.handled)[m], id);
    }
  }

  lemma FateIsDue(cfg: Config, w: Orders.World, ds: seq<Delivery>, id: string)
    requires Usable(cfg) && (SomePlacement(ds, id) <==> id in w.rows)
    requires SomeCancellation(ds, id) ==> IsCancelled(w, id)
    ensures Fate(cfg, ds, id) == DueFor(cfg, w, id) <==> (IsCancelled(w, id) ==> PlacedThenCancelled(ds, id))
  {
    FateInClosedForm(cfg, ds, id);
    if PlacedThenCancelled(ds, id) {
      var i, j :| 0 <= i < j < |ds| && IsPlacement(ds[i], id) && IsCancellation(ds[j], id);
      assert SomeCancellation(ds, id);
    }
  }

  lemma {:induction false} PlacedFirstOf(cfg: Config, hs: seq<Handled>, id: string)
    requires PlacedPassed(hs, id) && Kept(cfg, hs, id)
    requires forall m | 0 <= m < |hs| && Concerns(hs[m].delivery, id) ::
      hs[m].delivery == Placed(id) || hs[m].delivery == Cancelled(id)
    ensures PlacedFirst(cfg, hs, id)
  {
    if hs != [] {
      var n := |hs| - 1;
      assert forall m | 0 <= m < n :: hs[..n][m] == hs[m] && hs[..n][..m] == hs[..m];
      PlacedFirstOf(cfg, hs[..n], id);
      if IsCancellation(hs[n].delivery, id) { PassedIsSettled(cfg, hs[..n], Placed(id), id); }
    }
  }

  // ----- one relay -----

  /** Every relay step is one of the single relay, and its publishes take effect, whatever they report. */
  predicate OneRelay(steps: seq<Step>) {
    forall k | 0 <= k < |steps| && steps[k].RelayStep? :: RelayOrder.Steady(steps[k].step)
  }

  lemma {:induction false} OneRelayIsOrdered(x: Setting, steps: seq<Step>)
    requires OneRelay(steps)
    ensures RelayOrder.Ordered(Run(x, START, steps).relay)
  {
    if steps != [] {
      var n := |steps| - 1;
      OneRelayIsOrdered(x, steps[..n]);
      var s := Run(x, START, steps[..n]);
      match steps[n]
      case OrderStep(o) =>
        var added := |OrderRuns.Next(s.orders, o).world.outbox| - |Outbox(s)|;
        InsertsKeepSound(s.relay, if added < 0 then 0 else added);
      case RelayStep(r) => if !r.Insert? { RelayOrder.StepKeepsOrder(x.batchSize, s.relay, r); }
      case Deliver(j, envs, passed) =>
      case Rewind(p, j) =>
    }
  }

  /** Then nothing of any order is overtaken. */
  lemma OrderedIsInOrder(s: Pipeline, id: string)
    requires OrderRuns.Sound(s.orders.world) && RelayOrder.Ordered(s.relay) && |s.relay.rows| == |Outbox(s)|
    ensures InOrder(s, id)
  {
    forall j: nat | Holds(s, j, Cancelled(id))
      ensures exists i: nat :: i < j && Holds(s, i, Placed(id))
    {
      var d := PlacementIsFirst(s.orders.world, s.relay.topic[j]);
      assert d in s.relay.topic[..j];
      var i :| 0 <= i < j && s.relay.topic[..j][i] == d;
      assert Holds(s, i, Placed(id));
    }
  }

  /** Convergence with one relay and no publish that fails without effect: only giving up a message of the
      order can keep it from its payment. */
  lemma ConvergenceWithOneRelay(x: Setting, steps: seq<Step>, id: string)
    requires Usable(x.cfg) && OneRelay(steps)
    requires Drained(x, Run(x, START, steps), id) && Kept(x.cfg, Run(x, START, steps).handled, id)
    ensures var s := Run(x, START, steps);
      Good(PaymentTables(x, s)) && View(PaymentTables(x, s), id) == DueFor(x.cfg, s.orders.world, id)
  {
    StartIsSound(x);
    RunKeepsSound(x, START, steps);
    OneRelayIsOrdered(x, steps);
    OrderedIsInOrder(Run(x, START, steps), id);
    Convergence(x, steps, id);
  }

  /** The pipeline is never stuck: an attempt without faults at any message of the topic succeeds. */
  lemma CleanAttemptSettles(x: Setting, s: Pipeline, j: nat, env: PaymentStore.Env)
    requires Sound(x, s) && Usable(x.cfg) && IsNext(x, s, j) && AllDone(env, PaymentTables(x, s).calls)
    ensures Settled(PaymentTables(x, s), x.cfg, Handled(DeliveryOf(At(s, j)), [env], true))
  {
    var w, d := PaymentTables(x, s), DeliveryOf(At(s, j));
    assert OrderRuns.SoundOrder(s.orders.world, d.orderId);
    ConsumeKeepsGood(PaymentStore.EMPTY_WORLD, x.cfg, s.handled);
    FailsIffNoUuid(env, w, x.cfg, d);
    assert [env][..0] == [];
  }
}
