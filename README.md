# observe-demo: the broker-to-telemetry paths, modelled in Dafny

observe-demo is a small order system with tracing throughout. An ASP.NET API
accepts orders. It enriches each order through a pricing service, stores it
in Postgres and publishes an `order.created` message to a RabbitMQ topic
exchange. A Python worker consumes those messages inside a `process_order`
span. A separate tracer turns the broker's own lifecycle events into spans:
connections, channels, queues, consumers, exchanges and bindings arriving on
`amq.rabbitmq.event`.

This project models the decision logic of those paths and proves what it
promises:

- **The event tracer** (`rabbitmq-tracer/main.py`).
  - `OtlpHeaders` parses `OTEL_EXPORTER_OTLP_HEADERS`: split at `,`, cut each
    piece at its first `=`, strip both halves, and let the last setting win.
  - `EventClassifier` converts one event into a span.
    - The span is named `rabbitmq.<routing key>` and its kind is always
      INTERNAL.
    - It carries the common attributes and the minimal-span marker.
    - The category is the first keyword, in the order the source tests them,
      that occurs anywhere in the event type as a substring.
    - Each category has a fixed attribute table with defaults.
  - `EventNormalizer` is the per-message handler. It falls back to `unknown`
    for the routing key and to the headers for a body that is not JSON. It
    reads a falsy JSON value as `{}`, injects the message timestamp only when
    the body has none, and acknowledges every delivery.
  - `EventTracer` is start-up. It connects with retry, declares the
    auto-delete trace queue, binds the thirteen event types in order, and
    consumes. It also proves that every bound event type is classified by its
    own first part, e.g. `exchange.created` is not taken for a channel event.
- **The order worker** (`worker/app/consumer.py`).
  - `OrderConsumer` covers the same retry loop and the `orders` /
    `order.processing` / `order.created` topology.
  - It covers the handler: the span attributes, the case-insensitive
    `worker error` sentinel, the `error2` warning and the simulated exception.
  - A delivery is rejected exactly when the handler raises.
- **The API** (`OrderEndpoints.cs`, `DatabaseInitializer.cs`).
  - `OrderEndpoints` models POST /orders: request tags, validation, then the
    case-insensitive `error` sentinel, then enrichment, storage and
    publishing, in that order. It also models the two GET endpoints.
  - `DatabaseInitializer` models the ten-attempt schema loop. Its exception
    filter lets the tenth failure escape.
- **`OrderFlow`** connects the two ends. The payload the API publishes is the
  object the worker reads. The API's sentinel is never published. The
  worker's sentinel passes the API and fails in the worker.

The outside world is passed in as parameters:

- Broker connections and database attempts are functions from the attempt
  number to its outcome.
- The repository's insert and the publisher are functions from their input
  to their outcome.
- The enrichment service's reply is a plain value (`EnrichReply`).
- JSON decoding results are datatypes (`ParsedBody`, `DecodedBody`).

Python's truthiness, `strip` and `split` and .NET's `Char.IsWhiteSpace` are
modelled exactly (`Values`, `Text`). Python's `str` is exact for strings,
integers, booleans and None; floats and nested values are their printed text.
Python's `lower` and .NET's `OrdinalIgnoreCase` are exact only as far as
comparing with the ASCII sentinels "worker error" and "error" goes.

Two behaviours of the code are easy to miss:

- A truthy JSON body that is not an object, such as a non-empty list or a
  string, makes the tracer's `on_event` raise before any span starts. The
  error is logged and the message is still acknowledged. So classification can
  fail, and then no span is written.
- The worker's handler records no duration histogram. It writes one span and
  lets the exception reject the delivery.

## Model

| member | source | states |
|---|---|---|
| OtlpHeaders.ParseHeaders | rabbitmq-tracer/main.py:38-44 | the loop builds exactly the header map of the setting; an empty setting gives no headers; a key is present iff some comma-separated piece with '=' has that stripped key |
| OtlpHeaders.HeaderKeys | rabbitmq-tracer/main.py:41-44 | a header key is in the map iff some piece defines it |
| OtlpHeaders.LastSettingWins | rabbitmq-tracer/main.py:41-44 | when several pieces set a key, the value is the one of the last of them |
| OtlpHeaders.PieceWithoutEqualsIgnored | rabbitmq-tracer/main.py:42 | a piece without '=' changes nothing, wherever it stands |
| OtlpHeaders.EntryCutsAtFirstEquals | rabbitmq-tracer/main.py:43-44 | a piece is split at its first '=' only, the rest (further '=' included) is the value, and both halves are stripped |
| Text.JoinSplit | rabbitmq-tracer/main.py:41 | `split(",")` loses nothing: joining the pieces with ',' gives the setting back |
| Text.SplitJoin | rabbitmq-tracer/main.py:41 | splitting a join of comma-free pieces gives the pieces back |
| Text.StripIsTrimmedSlice | rabbitmq-tracer/main.py:44 | `strip()` returns a slice of its input that neither starts nor ends with whitespace, with only whitespace cut off either side |
| Text.StripIdempotent | rabbitmq-tracer/main.py:44 | stripping twice is stripping once |
| EventClassifier.KindOf | rabbitmq-tracer/main.py:64-70 | every branch of the kind choice yields INTERNAL |
| EventClassifier.CategoryOf | rabbitmq-tracer/main.py:91-125 | the selected category's keyword occurs in the event type and no keyword of a category tested earlier does; the fallback only when none occurs |
| EventClassifier.Extract | rabbitmq-tracer/main.py:91-125 | the category's attributes are exactly the table's names, each holding `body.get(key, default)` |
| EventClassifier.FieldTables | rabbitmq-tracer/main.py:91-125 | no category writes an attribute twice or overwrites a common attribute |
| EventClassifier.ProcessEvent | rabbitmq-tracer/main.py:59-76 | the span is named "rabbitmq." + routing key, with kind INTERNAL |
| EventClassifier.ProcessEventCommon | rabbitmq-tracer/main.py:78-129 | every span has the event type; the node iff the body has one; the body's timestamp iff it has one; the minimal marker iff the body is empty |
| EventClassifier.ProcessEventMinimal | rabbitmq-tracer/main.py:84-88 | an empty body gives exactly the event type and `minimal = true` |
| EventClassifier.ProcessEventCategory | rabbitmq-tracer/main.py:90-129 | a non-empty body gives exactly the common attributes, the selected category's table read from the body or defaulted, and the timestamp |
| EventClassifier.QueueEventSpan | rabbitmq-tracer/main.py:104-108 | a queue event with neither node nor timestamp gets exactly the event type and the four queue attributes |
| EventClassifier.QueueEventKeys | rabbitmq-tracer/main.py:104-108 | the attribute names of such a span are the event type and the four queue names |
| EventClassifier.QueueEventValues | rabbitmq-tracer/main.py:104-108 | name, vhost, durable and auto_delete hold the body's values or "", "", False, False |
| EventClassifier.QueueDeclaredIsQueueEvent | rabbitmq-tracer/main.py:91-104 | "queue.declared" is classified as a queue event |
| EventNormalizer.EventType | rabbitmq-tracer/main.py:189 | the event type is the routing key when it is non-empty, "unknown" otherwise |
| EventNormalizer.BaseBody | rabbitmq-tracer/main.py:196-209 | an object is kept, a non-JSON body becomes the headers, a falsy JSON value becomes {}, a truthy non-object has no dict |
| EventNormalizer.InjectTimestamp | rabbitmq-tracer/main.py:212-213 | the body's entries are kept, and "timestamp" is added from the message only when the body lacks it |
| EventNormalizer.OnEvent | rabbitmq-tracer/main.py:186-223 | every delivery is acknowledged; an error is logged and no span written iff the body is truthy non-object JSON; otherwise the span is the classifier's on the normalized body and event type |
| EventNormalizer.NotJsonUsesHeaders | rabbitmq-tracer/main.py:198-205 | a non-JSON body is replaced by the message headers |
| EventNormalizer.FalsyJsonIsEmpty | rabbitmq-tracer/main.py:207-213 | a falsy or empty body becomes {} plus the message timestamp, if any |
| EventNormalizer.BodyTimestampKept | rabbitmq-tracer/main.py:212-213 | a timestamp in the body is never overwritten |
| EventNormalizer.SpanTimestamp | rabbitmq-tracer/main.py:207-219 | the span has a timestamp iff the body or the message has one, the body's winning |
| EventNormalizer.MinimalSpan | rabbitmq-tracer/main.py:207-219 | the minimal span is written iff the normalized body is empty and the message has no timestamp |
| Broker.FirstSuccessIsLeast | rabbitmq-tracer/main.py:145-149 | the first success found is the least succeeding attempt of the range, and none is found iff every attempt fails |
| Broker.ConnectWithRetry | rabbitmq-tracer/main.py:143-156 | the loop shared by tracer and worker connects iff an attempt in 1..20 succeeds, at the first such attempt; every failed attempt, the 20th included, is warned about and followed by a 2-second sleep |
| Broker.FourthAttemptConnects | worker/app/consumer.py:19-27 | three failures and a success connect at attempt 4 after warnings for attempts 1, 2 and 3 |
| EventTracer.PatternsOf | rabbitmq-tracer/main.py:166-180 | the bound event types are each binding's category keyword, '.', and verb, in the table's order |
| EventTracer.BindPatterns | rabbitmq-tracer/main.py:182-184 | one bind of the queue to the exchange per pattern, in the patterns' order |
| EventTracer.StartEventConsumer | rabbitmq-tracer/main.py:141-225 | the exporter gets the parsed headers; the retry loop's attempts, warnings and 2-second sleeps are those of ConnectWithRetry; with no connection it gives up before any channel call; otherwise it declares the non-durable auto-delete trace queue, binds all thirteen patterns in order, then consumes |
| EventTracer.SelectsOwnKeyword | rabbitmq-tracer/main.py:91-125 | a keyword-dot-verb event type avoiding the earlier categories' keywords is classified by its own keyword |
| EventTracer.ExchangeNotChannel | rabbitmq-tracer/main.py:98-115 | an "exchange." event type cannot contain "channel", so the channel test does not catch it |
| EventTracer.PatternSelects | rabbitmq-tracer/main.py:91-125 | any category keyword with a verb free of the letters that would spell an earlier keyword selects that category |
| EventTracer.PatternsSelectTheirPrefix | rabbitmq-tracer/main.py:166-180 | every bound event type is classified by its own first dotted part |
| OrderConsumer.StartConsumer | worker/app/consumer.py:13-60 | it connects iff an attempt in 1..20 succeeds, at the first such attempt, after warning about and sleeping 2 seconds after every failed one; with no connection it logs an error and makes no channel call; otherwise it declares the durable topic exchange, the durable queue, the order.created binding, then consumes |
| OrderConsumer.OnMessage | worker/app/consumer.py:38-57 | the span is process_order; it raises iff the body is not an object or its product lower-cases to "worker error", with the matching error; a raise rejects with no delay, otherwise the handler sleeps 0.5 seconds and the delivery is acked; the attributes are str(Id) and Product when the body is an object, none otherwise; the warning fires iff the sentinel has a truthy error2 |
| OrderConsumer.Error2OnlyWarns | worker/app/consumer.py:49-53 | error2 changes only the warning, never the span, the error or the fate of the delivery |
| OrderConsumer.CapitalisedSentinelFails | worker/app/consumer.py:47 | "Worker Error" is rejected too: the comparison ignores case |
| OrderConsumer.PaddedSentinelProcessed | worker/app/consumer.py:47 | " worker error" is processed normally: the product is not trimmed |
| OrderConsumer.DistinctIdsDistinctSpans | worker/app/consumer.py:42 | orders with different integer ids get different order.id attributes |
| OrderConsumer.WorkerErrorWithError2 | worker/app/consumer.py:46-53 | the message {Id "43", Product "worker error", error2 true} is warned about, fails with id 43 in the message, and is rejected |
| Values.IntToStringInjective | worker/app/consumer.py:42 | distinct Python ints print differently under str |
| OrderEndpoints.Enrich | api/Api/Services/EnrichmentClient.cs:9-22 | a numeric price gives that price and the raw JSON; a reply without a price gives no price and the raw JSON; a failed call or a non-numeric price gives null for both; a price only ever comes from a numeric reply |
| OrderEndpoints.Post | api/Api/Endpoints/OrderEndpoints.cs:13-41 | the tags are always the request's; 400 iff the request is invalid; error status and event iff the request is the sentinel; collaborators are called iff the request is valid and not the sentinel; a 201 follows the three calls, ending with the publish of the stored order, at /orders/{id}; the rest of its behaviour is stated by TagsAlwaysSet, InvalidIsBadRequest, SentinelThrowsFirst and SuccessPathOrder |
| OrderEndpoints.RequestTags | api/Api/Endpoints/OrderEndpoints.cs:19-20 | the quantity tag is always set; the product tag iff the product is non-null |
| OrderEndpoints.TagsAlwaysSet | api/Api/Endpoints/OrderEndpoints.cs:19-20 | the tags are set on every request, whatever follows |
| OrderEndpoints.InvalidIsBadRequest | api/Api/Endpoints/OrderEndpoints.cs:22-25 | the answer is 400 iff the request is invalid, with the fixed message, no collaborator call and no error status |
| OrderEndpoints.ValidationBeforeSentinel | api/Api/Endpoints/OrderEndpoints.cs:22-32 | the sentinel with quantity 0 is a bad request, not a failure |
| OrderEndpoints.SentinelThrowsFirst | api/Api/Endpoints/OrderEndpoints.cs:27-32 | the sentinel sets the error status and the error.simulated event and throws, before any enrichment, storage or publishing |
| OrderEndpoints.SentinelIgnoresCase | api/Api/Endpoints/OrderEndpoints.cs:27 | "ERROR" is the sentinel too |
| OrderEndpoints.PaddedSentinelIsOrdinary | api/Api/Endpoints/OrderEndpoints.cs:27 | " error" is not the sentinel: the product is not trimmed |
| OrderEndpoints.SuccessPathOrder | api/Api/Endpoints/OrderEndpoints.cs:34-40 | enrichment, then storage with the enrichment's price and JSON, then publishing of the stored order's id, product, quantity and price; 201 with /orders/{id} iff publishing succeeds; a throw from storage or publishing escapes |
| OrderEndpoints.FailedEnrichmentStillCreates | api/Api/Endpoints/OrderEndpoints.cs:34-40 | a failed enrichment still stores the order, with null price and data, and answers 201 |
| OrderEndpoints.GetById | api/Api/Endpoints/OrderEndpoints.cs:49-53 | 200 with the order iff the repository found it, 404 otherwise |
| DatabaseInitializer.InitializeDatabase | api/Api/Infrastructure/DatabaseInitializer.cs:25-41 | it succeeds iff an attempt in 1..10 succeeds, at the first such attempt; otherwise the tenth failure propagates; every earlier failure is warned about and followed by a 2-second delay, never the tenth |
| DatabaseInitializer.InitializedAtFirstSuccess | api/Api/Infrastructure/DatabaseInitializer.cs:25-41 | initialization happens at a succeeding attempt preceded only by failures, and the exception propagates iff all ten fail |
| OrderFlow.PublishedFields | api/Api/Services/MessagePublisher.cs:57 | the published object has exactly the keys Id, Product, Quantity and Price, with the order's id and product |
| OrderFlow.ApiSentinelNeverPublished | api/Api/Endpoints/OrderEndpoints.cs:27-38 | no publish is made for the API's sentinel product |
| OrderFlow.WorkerFailsSentinelPayload | worker/app/consumer.py:47-53 | a published "worker error" order is rejected by the worker with its id in the exception and as order.id |
| OrderFlow.WorkerSentinelFailsDownstream | api/Api/Endpoints/OrderEndpoints.cs:34-38 | "worker error" is not the API's sentinel, so it is stored and published, and the worker then rejects it with the order's id |

## Left out

- Network, AMQP and Postgres I/O are left out. Connection attempts, the enrichment reply, the repository's insert and lookup, and publishing are parameters giving each call's outcome.
- `asyncio.sleep`, `Task.Delay` and cancellation through the `CancellationToken` are left out. Each sleep or delay is recorded as its length in seconds: the retry waits as lists of seconds, the worker's processing delay as `Some(0.5)`.
- UTF-8 decoding (`errors='replace'` in the tracer, strict in the worker) and JSON parsing are left out. They are given as their results, `ParsedBody` and `DecodedBody`.
- Floats and nested JSON values are left out: they are their `str` text. A float's truthiness is read from that text.
- The OpenTelemetry SDK is left out. The model does not drop attribute values of unsupported types such as None or dicts, does not cover the batch exporter, and does not cover the span status set by a raised exception. A span is the record of what the handler writes.
- A null `Activity.Current` is left out. The tags, status and event are modelled as written to an existing activity.
- Lower-casing and case-insensitive comparison are modelled only for what matters when comparing with the ASCII sentinels. These are ASCII letters and the Kelvin sign for `lower`, and ASCII for `OrdinalIgnoreCase`. Full Unicode case mapping is left out.
- Log message texts and logger levels are left out. Only whether a warning or error is logged, and for which attempt, is modelled.
- OrderConsumer.OnMessage: the error2 warning is a flag, so the id it prints is not modelled.
- OrderEndpoints.GetAll: GET /orders passes the repository's list through unchanged. It has no contract of its own, since there is nothing about it to prove.
- OrderEndpoints.Post: `Quantity` binds to a 32-bit `int` in C#. Here it is an unbounded integer, because the JSON binder rejects out-of-range input before the handler runs.
- The `Program.cs` exception handler that turns an escaping exception into a 500 response is not modelled. An escaping exception ends as `Raised`.
- The lazy connection and exchange declaration inside `MessagePublisher` are left out. Publishing is one outcome.
- The random pricing in `enrich.py` is left out. The reply is a parameter.
- How a decimal price is printed in the published JSON is left out. It is the parameter `priceJson`.
- The host's reaction when `DatabaseInitializer.ExecuteAsync` propagates its exception is left out. The model stops at `Propagated`.
- EventTracer.StartEventConsumer: every channel call after connecting is assumed to succeed. In the source an exception from `connection.channel()`, `declare_queue`, a `bind` or `consume` propagates out of start-up uncaught (rabbitmq-tracer/main.py:158-225), and that path is not modelled.
- OrderConsumer.StartConsumer: every channel call after connecting is assumed to succeed. In the source an exception from `connection.channel()`, a declaration, the `bind` or `consume` propagates out of start-up uncaught (worker/app/consumer.py:33-59), and that path is not modelled.
