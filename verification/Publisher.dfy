// What the relay's publisher writes for an outbox row: order/infrastructure/kafka_outbox_publisher.go,
// with the names and versions of order/application/integration_events.go.
module Publisher {
  import opened Wrappers
  import Orders
  import Consumer

  function EventName(e: Orders.IntegrationEvent): string {
    match e
    case PlacedV1(_, _, _, _) => "OrderPlaced"
    case PlacedV2(_, _, _, _) => "OrderPlaced"
    case CancelledV1(_, _) => "OrderCancelled"
  }

  function EventVersion(e: Orders.IntegrationEvent): string { if e.PlacedV2? then "2" else "1" }

  /** The message: its headers, and of its body the order id, which the payloads of all versions have. Its
      key, which decides on its partition, is the order id as well. */
  function MessageOf(e: Orders.IntegrationEvent, occurredAt: string): Consumer.Message {
    Consumer.Message([("event_name", EventName(e)), ("event_version", EventVersion(e)), ("aggregate_type", "order"),
                      ("aggregate_id", e.orderId), ("occurred_at", occurredAt)],
                     Some(e.orderId))
  }

  /** The consumer reads from it what was sent: placements of either version as placements of that order,
      and cancellations as cancellations; and the version, which it does not read, is that of the event. */
  lemma SentIsReceived(e: Orders.IntegrationEvent, occurredAt: string)
    ensures Consumer.Decode(MessageOf(e, occurredAt))
         == if e.CancelledV1? then Consumer.Cancelled(e.orderId) else Consumer.Placed(e.orderId)
    ensures Consumer.FirstHeader(MessageOf(e, occurredAt).headers, "event_version") == if e.PlacedV2? then "2" else "1"
  {
    var m := MessageOf(e, occurredAt);
    assert Consumer.IsFirst(m.headers, "event_name", 0);
    Consumer.Decoding(m);
    assert Consumer.IsFirst(m.headers, "event_version", 1);
    Consumer.FirstHeaderIsFirst(m.headers, "event_version");
  }
}
