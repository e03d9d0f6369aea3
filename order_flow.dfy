/**
 * The path of an order from the API to the worker: the "order.created"
 * payload the API publishes (serialized with its C# property names) is the
 * object the worker's handler reads.
 */
module OrderFlow {

  import opened Wrappers
  import opened Values
  import opened Text
  import opened Broker
  import opened OrderEndpoints
  import opened OrderConsumer

  /**
   * `JsonSerializer.Serialize(new { order.Id, order.Product, order.Quantity, order.Price })`
   * as the worker's `json.loads` sees it; `priceJson` is how a decimal prints.
   */
  function PublishedFields(payload: OrderCreated, priceJson: real -> string): (fields: map<string, Value>)
    ensures fields.Keys == {"Id", "Product", "Quantity", "Price"}
    ensures fields["Id"] == Str(payload.id) && fields["Product"] == Str(payload.product)
  {
    map["Id" := Str(payload.id),
        "Product" := Str(payload.product),
        "Quantity" := Int(payload.quantity),
        "Price" := if payload.price.Some? then Float(priceJson(payload.price.value)) else Null]
  }

  /** The API's sentinel "error" never reaches the worker: nothing is published for it. */
  lemma ApiSentinelNeverPublished(request: CreateOrderRequest, enrichReply: EnrichReply,
                                  create: (CreateOrderRequest, Option<real>, Option<string>) -> Outcome<Order>,
                                  publish: OrderCreated -> AttemptOutcome)
    requires OrderEndpoints.IsSentinel(request)
    ensures forall c :: c in Post(request, enrichReply, create, publish).calls ==> !c.Publish?
  {
  }

  /** A published order for the product "worker error" is failed by the worker with its id in the exception, and rejected. */
  lemma WorkerFailsSentinelPayload(payload: OrderCreated, priceJson: real -> string)
    requires payload.product == WorkerSentinel
    ensures var o := OnMessage(Object(PublishedFields(payload, priceJson)));
      && o.disposition == Reject
      && o.error == Some(SimulatedFailure("Simulated processing error for order " + payload.id))
      && o.span.attributes["order.id"] == Str(payload.id)
  {
    LowersTo(WorkerSentinel, WorkerSentinel);
  }

  /**
   * "worker error" is an ordinary product to the API, so it is stored and
   * published; the worker then fails it, and the delivery is rejected with the
   * order's id in the exception.
   */
  lemma WorkerSentinelFailsDownstream(request: CreateOrderRequest, enrichReply: EnrichReply,
                                      create: (CreateOrderRequest, Option<real>, Option<string>) -> Outcome<Order>,
                                      publish: OrderCreated -> AttemptOutcome, priceJson: real -> string)
    requires IsValid(request) && request.product == Some("worker error")
    requires create(request, Enrich(enrichReply).price, Enrich(enrichReply).rawJson).Returns?
    requires create(request, Enrich(enrichReply).price, Enrich(enrichReply).rawJson).value.product == "worker error"
    ensures !OrderEndpoints.IsSentinel(request)
    ensures var order := create(request, Enrich(enrichReply).price, Enrich(enrichReply).rawJson).value;
      && Publish(PayloadOf(order)) in Post(request, enrichReply, create, publish).calls
      && var o := OnMessage(Object(PublishedFields(PayloadOf(order), priceJson)));
      && o.disposition == Reject
      && o.error == Some(SimulatedFailure("Simulated processing error for order " + order.id))
  {
    assert |"worker error"| != |SentinelProduct|;
    SuccessPathOrder(request, enrichReply, create, publish);
    var order := create(request, Enrich(enrichReply).price, Enrich(enrichReply).rawJson).value;
    WorkerFailsSentinelPayload(PayloadOf(order), priceJson);
  }
}
