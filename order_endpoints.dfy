/**
 * The order API's endpoints (api/Api/Endpoints/OrderEndpoints.cs): POST
 * /orders validates the request, fails on purpose for the product "error",
 * and otherwise enriches, stores and publishes the order; GET /orders and
 * GET /orders/{id} read the repository. The enrichment service, the
 * repository and the publisher are parameters.
 */
module OrderEndpoints {

  import opened Wrappers
  import opened Text

  /** The JSON body of POST /orders; a missing or null string property binds to `None`. */
  datatype CreateOrderRequest = CreateOrderRequest(customerName: Option<string>, product: Option<string>, quantity: int)

  /** A stored order, as the repository returns it; the id is the Guid's text and the timestamps are opaque. */
  datatype Order = Order(
    id: string,
    customerName: string,
    product: string,
    quantity: int,
    price: Option<real>,
    status: string,
    enrichmentData: Option<string>,
    createdAt: string,
    updatedAt: string)

  /** The `price` property of the enrichment service's reply. */
  datatype PriceProperty = NoPrice | NumericPrice(amount: real) | NonNumericPrice

  /** What the enrichment HTTP call met: a failure (transport, non-success status, invalid JSON), or a JSON reply. */
  datatype EnrichReply = EnrichFailed | EnrichReplied(json: string, price: PriceProperty)

  /** `EnrichAsync`'s result: the price and the raw JSON, both null when anything went wrong. */
  datatype Enrichment = Enrichment(price: Option<real>, rawJson: Option<string>)

  /** The payload published as "order.created": `new { order.Id, order.Product, order.Quantity, order.Price }`. */
  datatype OrderCreated = OrderCreated(id: string, product: string, quantity: int, price: Option<real>)

  /** A call the POST handler makes on its collaborators, in the order made. */
  datatype ApiCall =
    | EnrichCall(enrichedProduct: string, enrichedQuantity: int)
    | RepoCreate(request: CreateOrderRequest, price: Option<real>, enrichmentData: Option<string>)
    | Publish(payload: OrderCreated)

  /** What the handler ends with: an HTTP result, or an exception left to the host's error handler. */
  datatype PostResponse =
    | BadRequest(error: string)
    | Created(location: string, order: Order)
    | Raised(message: string)

  /** A tag value on the request's activity. */
  datatype TagValue = TagText(text: string) | TagInt(number: int)

  /** Everything one POST did: the response, the collaborator calls, and the activity's tags, status and events. */
  datatype PostResult = PostResult(
    response: PostResponse,
    calls: seq<ApiCall>,
    tags: map<string, TagValue>,
    errorStatus: Option<string>,
    events: seq<string>)

  const ValidationError := "CustomerName, Product, and Quantity (> 0) are required."
  const SentinelProduct := "error"
  const SimulatedFailureMessage := "Simulated error: product 'error' triggers failure"
  const SimulatedStatusDescription := "Simulated error for product 'error'"
  const SimulatedEvent := "error.simulated"

  /** The request passes validation: a customer name and a product that are not null or white space, and a positive quantity. */
  predicate IsValid(request: CreateOrderRequest) {
    !IsNullOrWhiteSpace(request.customerName) && !IsNullOrWhiteSpace(request.product) && request.quantity > 0
  }

  /** A valid request for the product "error", in any letter case and untrimmed. */
  predicate IsSentinel(request: CreateOrderRequest) {
    IsValid(request) && EqualsIgnoreCase(request.product.value, SentinelProduct)
  }

  /**
   * `EnrichmentClient.EnrichAsync`: any failure, including a `price` that is
   * not a number, is caught and gives a null price and null JSON.
   */
  function Enrich(reply: EnrichReply): (e: Enrichment)
    ensures e.price.Some? ==> reply.EnrichReplied? && reply.price == NumericPrice(e.price.value)
    ensures e.rawJson.None? <==> reply == EnrichFailed || reply.price == NonNumericPrice
    ensures e.rawJson.Some? ==> e.rawJson == Some(reply.json)
    ensures reply.EnrichReplied? && reply.price.NumericPrice? ==> e == Enrichment(Some(reply.price.amount), Some(reply.json))
    ensures reply.EnrichReplied? && reply.price == NoPrice ==> e == Enrichment(None, Some(reply.json))
  {
    match reply
    case EnrichFailed => Enrichment(None, None)
    case EnrichReplied(json, price) =>
      match price
      case NoPrice => Enrichment(None, Some(json))
      case NumericPrice(amount) => Enrichment(Some(amount), Some(json))
      case NonNumericPrice => Enrichment(None, None)
  }

  /** The two tags set before anything else: a null product removes its tag. */
  function RequestTags(request: CreateOrderRequest): (tags: map<string, TagValue>)
    ensures "order.quantity" in tags && tags["order.quantity"] == TagInt(request.quantity)
    ensures "order.product" in tags <==> request.product.Some?
    ensures request.product.Some? ==> tags["order.product"] == TagText(request.product.value)
    ensures tags.Keys <= {"order.product", "order.quantity"}
  {
    var base := map["order.quantity" := TagInt(request.quantity)];
    if request.product.Some? then base["order.product" := TagText(request.product.value)] else base
  }

  /** The message published for a stored order. */
  function PayloadOf(order: Order): OrderCreated {
    OrderCreated(order.id, order.product, order.quantity, order.price)
  }

  /**
   * The POST /orders handler. `enrichReply` is what the enrichment call meets,
   * `create` what the repository's insert returns or throws, and `publish`
   * whether publishing succeeds.
   */
  function Post(
    request: CreateOrderRequest,
    enrichReply: EnrichReply,
    create: (CreateOrderRequest, Option<real>, Option<string>) -> Outcome<Order>,
    publish: OrderCreated -> AttemptOutcome): (r: PostResult)
    ensures r.tags == RequestTags(request)
    ensures r.response.BadRequest? <==> !IsValid(request)
    ensures r.errorStatus.Some? <==> IsSentinel(request)
    ensures r.events != [] <==> IsSentinel(request)
    ensures r.calls != [] <==> IsValid(request) && !IsSentinel(request)
    ensures r.response.Created? ==>
      && |r.calls| == 3 && r.calls[2] == Publish(PayloadOf(r.response.order))
      && r.response.location == "/orders/" + r.response.order.id
  {
    var tags := RequestTags(request);
    if !IsValid(request) then
      PostResult(BadRequest(ValidationError), [], tags, None, [])
    else if EqualsIgnoreCase(request.product.value, SentinelProduct) then
      PostResult(Raised(SimulatedFailureMessage), [], tags, Some(SimulatedStatusDescription), [SimulatedEvent])
    else
      var enrichment := Enrich(enrichReply);
      var enrichCall := EnrichCall(request.product.value, request.quantity);
      var createCall := RepoCreate(request, enrichment.price, enrichment.rawJson);
      match create(request, enrichment.price, enrichment.rawJson)
      case Throws(message) =>
        PostResult(Raised(message), [enrichCall, createCall], tags, None, [])
      case Returns(order) =>
        var calls := [enrichCall, createCall, Publish(PayloadOf(order))];
        match publish(PayloadOf(order))
        case Failed(reason) => PostResult(Raised(reason), calls, tags, None, [])
        case Succeeded => PostResult(Created("/orders/" + order.id, order), calls, tags, None, [])
  }

  /** The tags are set on every request, whatever follows. */
  lemma TagsAlwaysSet(request: CreateOrderRequest, enrichReply: EnrichReply,
                      create: (CreateOrderRequest, Option<real>, Option<string>) -> Outcome<Order>,
                      publish: OrderCreated -> AttemptOutcome)
    ensures Post(request, enrichReply, create, publish).tags == RequestTags(request)
  {
  }

  /** An invalid request is answered 400 with the fixed message, and nothing else is called. */
  lemma InvalidIsBadRequest(request: CreateOrderRequest, enrichReply: EnrichReply,
                            create: (CreateOrderRequest, Option<real>, Option<string>) -> Outcome<Order>,
                            publish: OrderCreated -> AttemptOutcome)
    ensures var r := Post(request, enrichReply, create, publish);
      (r.response.BadRequest? <==> !IsValid(request))
      && (r.response.BadRequest? ==> r.response.error == ValidationError && r.calls == [] && r.errorStatus.None?)
  {
  }

  /** Validation comes first: the sentinel product with a zero quantity is a bad request, not a failure. */
  lemma ValidationBeforeSentinel(customer: string, enrichReply: EnrichReply,
                                 create: (CreateOrderRequest, Option<real>, Option<string>) -> Outcome<Order>,
                                 publish: OrderCreated -> AttemptOutcome)
    ensures Post(CreateOrderRequest(Some(customer), Some("error"), 0), enrichReply, create, publish).response
      == BadRequest(ValidationError)
  {
  }

  /**
   * The sentinel product throws after marking the activity as failed, before
   * any enrichment, storage or publishing.
   */
  lemma SentinelThrowsFirst(request: CreateOrderRequest, enrichReply: EnrichReply,
                            create: (CreateOrderRequest, Option<real>, Option<string>) -> Outcome<Order>,
                            publish: OrderCreated -> AttemptOutcome)
    requires IsSentinel(request)
    ensures var r := Post(request, enrichReply, create, publish);
      r.response == Raised(SimulatedFailureMessage) && r.calls == []
      && r.errorStatus == Some(SimulatedStatusDescription) && r.events == [SimulatedEvent]
  {
  }

  /** "ERROR" is the sentinel too: the comparison ignores case. */
  lemma SentinelIgnoresCase(request: CreateOrderRequest)
    requires IsValid(request) && request.product == Some("ERROR")
    ensures IsSentinel(request)
  {
    var p := "ERROR";
    assert UpperChar(SentinelProduct[0]) == 'E' && UpperChar(SentinelProduct[1]) == 'R';
    assert UpperChar(SentinelProduct[2]) == 'R' && UpperChar(SentinelProduct[3]) == 'O';
    assert UpperChar(SentinelProduct[4]) == 'R';
    assert forall i :: 0 <= i < |p| ==> UpperChar(p[i]) == UpperChar(SentinelProduct[i]);
  }

  /** The product is not trimmed: " error" is an ordinary product. */
  lemma PaddedSentinelIsOrdinary(request: CreateOrderRequest)
    requires request.product == Some(" error")
    ensures !IsSentinel(request)
  {
  }

  /**
   * Any other valid request calls the enrichment service, then the repository
   * with the enrichment's price and JSON, then publishes the stored order's id,
   * product, quantity and price; only when all three succeed is it answered 201
   * with the order's location.
   */
  lemma SuccessPathOrder(request: CreateOrderRequest, enrichReply: EnrichReply,
                         create: (CreateOrderRequest, Option<real>, Option<string>) -> Outcome<Order>,
                         publish: OrderCreated -> AttemptOutcome)
    requires IsValid(request) && !IsSentinel(request)
    ensures var r := Post(request, enrichReply, create, publish);
      var e := Enrich(enrichReply);
      var calls := [EnrichCall(request.product.value, request.quantity), RepoCreate(request, e.price, e.rawJson)];
      && r.errorStatus.None? && r.events == []
      && (create(request, e.price, e.rawJson).Throws? ==>
            r.calls == calls && r.response == Raised(create(request, e.price, e.rawJson).message))
      && (create(request, e.price, e.rawJson).Returns? ==>
            var order := create(request, e.price, e.rawJson).value;
            && r.calls == calls + [Publish(OrderCreated(order.id, order.product, order.quantity, order.price))]
            && (publish(PayloadOf(order)) == Succeeded <==> r.response == Created("/orders/" + order.id, order))
            && (publish(PayloadOf(order)).Failed? ==> r.response == Raised(publish(PayloadOf(order)).reason)))
  {
    var e := Enrich(enrichReply);
    var calls := [EnrichCall(request.product.value, request.quantity), RepoCreate(request, e.price, e.rawJson)];
    match create(request, e.price, e.rawJson)
    case Throws(_) =>
    case Returns(order) =>
      assert calls + [Publish(PayloadOf(order))] == [calls[0], calls[1], Publish(PayloadOf(order))];
  }

  /**
   * A failed enrichment does not stop the order: the repository is called with
   * a null price and null enrichment data, and the order is published.
   */
  lemma FailedEnrichmentStillCreates(request: CreateOrderRequest,
                                     create: (CreateOrderRequest, Option<real>, Option<string>) -> Outcome<Order>,
                                     publish: OrderCreated -> AttemptOutcome)
    requires IsValid(request) && !IsSentinel(request)
    requires create(request, None, None).Returns? && publish(PayloadOf(create(request, None, None).value)) == Succeeded
    ensures var r := Post(request, EnrichFailed, create, publish);
      && |r.calls| == 3 && r.calls[1] == RepoCreate(request, None, None)
      && r.response == Created("/orders/" + create(request, None, None).value.id, create(request, None, None).value)
  {
  }

  /** What GET /orders/{id} answers. */
  datatype GetResponse = OkOrder(order: Order) | NotFound

  /** GET /orders/{id}, with what the repository's lookup found. */
  function GetById(found: Option<Order>): (r: GetResponse)
    ensures r.OkOrder? <==> found.Some?
    ensures found.Some? ==> r.order == found.value
  {
    match found
    case Some(order) => OkOrder(order)
    case None => NotFound
  }

  /** GET /orders: the repository's list (newest first), answered 200 as it is. */
  function GetAll(orders: seq<Order>): seq<Order> {
    orders
  }
}
