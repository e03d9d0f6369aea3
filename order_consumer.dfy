/**
 * The order worker (worker/app/consumer.py, start_consumer): connect to the
 * broker with retry, declare the order topology, and handle each
 * "order.created" message inside a "process_order" span.
 */
module OrderConsumer {

  import opened Wrappers
  import opened Values
  import opened Text
  import opened Telemetry
  import opened Broker

  /** The topic exchange the API publishes orders to. */
  const OrdersExchange := "orders"

  /** The worker's durable queue. */
  const ProcessingQueue := "order.processing"

  /** The routing key the queue is bound with. */
  const OrderCreatedKey := "order.created"

  /** The product name, compared after lower-casing, that makes the worker fail an order. */
  const WorkerSentinel := "worker error"

  /** The seconds an order's processing is simulated to take. */
  const ProcessingDelaySeconds: real := 0.5

  /** The channel calls of a connected start-up, in order. */
  function WorkerTopology(): seq<BrokerCall> {
    [ DeclareExchange(OrdersExchange, Topic, true),
      DeclareQueue(ProcessingQueue, true, false),
      Bind(ProcessingQueue, OrdersExchange, OrderCreatedKey),
      Consume(ProcessingQueue) ]
  }

  /** What start-up did: the connection loop's result, the channel calls, and whether it gave up with an error. */
  datatype WorkerStartup = WorkerStartup(connection: ConnectResult, calls: seq<BrokerCall>, gaveUpLogged: bool)

  /**
   * `start_consumer`, with the outcome of each connection attempt. When no
   * attempt succeeds it logs an error and returns before opening a channel.
   */
  method StartConsumer(outcomeOf: nat -> AttemptOutcome) returns (s: WorkerStartup)
    ensures s.connection.connected <==> FirstSuccess(outcomeOf, 1, MaxConnectAttempts).Some?
    ensures s.connection.connected ==> s.connection.attempts == FirstSuccess(outcomeOf, 1, MaxConnectAttempts).value
    ensures !s.connection.connected ==> s.connection.attempts == MaxConnectAttempts
    ensures 1 <= s.connection.attempts <= MaxConnectAttempts
    ensures s.connection.warned == AttemptsUpTo(if s.connection.connected then s.connection.attempts - 1 else s.connection.attempts)
    ensures s.connection.sleeps == Repeat(|s.connection.warned|, ConnectRetrySeconds)
    ensures s.gaveUpLogged <==> !s.connection.connected
    ensures !s.connection.connected ==> s.calls == []
    ensures s.connection.connected ==> s.calls == WorkerTopology()
  {
    var connection := ConnectWithRetry(outcomeOf);
    if !connection.connected {
      return WorkerStartup(connection, [], true);
    }
    var calls := [DeclareExchange(OrdersExchange, Topic, true)];
    calls := calls + [DeclareQueue(ProcessingQueue, true, false)];
    calls := calls + [Bind(ProcessingQueue, OrdersExchange, OrderCreatedKey)];
    calls := calls + [Consume(ProcessingQueue)];
    s := WorkerStartup(connection, calls, false);
  }

  /**
   * What `json.loads(message.body.decode())` gives: a failure (the body is not
   * UTF-8 or not JSON), a JSON value that is not an object, or an object.
   */
  datatype DecodedBody =
    | Undecodable
    | NonObject
    | Object(fields: map<string, Value>)

  /** The exception that escapes the handler. */
  datatype WorkerError =
    | DecodeError
    | NoGetMethod
    | SimulatedFailure(message: string)

  /**
   * What handling one message did: the span it wrote, the exception that
   * escaped (recorded on the span, which then ends with an error status),
   * whether it logged the error2 warning, the processing delay it slept, in
   * seconds, if any, and the fate of the delivery.
   */
  datatype MessageOutcome = MessageOutcome(
    span: Span,
    error: Option<WorkerError>,
    warned: bool,
    delay: Option<real>,
    disposition: Disposition)

  /** `str(body.get("Product", "")).lower() == "worker error"`. */
  predicate IsSentinel(fields: map<string, Value>) {
    PyLower(PyStr(Get(fields, "Product", Str("")))) == WorkerSentinel
  }

  /** The attributes set once the body has been read: `str` of the id, and the product as it is. */
  function OrderAttributes(fields: map<string, Value>): map<string, Value> {
    map["order.id" := Str(PyStr(Get(fields, "Id", Str("")))), "order.product" := Get(fields, "Product", Str(""))]
  }

  /** `"Simulated processing error for order %s" % body.get("Id")`: a missing id prints as None. */
  function FailureMessage(fields: map<string, Value>): string {
    "Simulated processing error for order " + PyStr(Get(fields, "Id", Null))
  }

  /**
   * `on_message`: the span starts before the body is read, so a body that does
   * not decode, or decodes to something without `.get`, leaves a span without
   * attributes. An escaping exception makes `message.process()` reject the
   * delivery; otherwise it is acknowledged after the delay.
   */
  function OnMessage(body: DecodedBody): (o: MessageOutcome)
    ensures o.span.name == "process_order" && o.span.kind == Internal
    ensures o.disposition == Reject <==> o.error.Some?
    ensures o.delay == (if o.error.None? then Some(ProcessingDelaySeconds) else None)
    ensures o.error.Some? <==> !body.Object? || IsSentinel(body.fields)
    ensures body == Undecodable ==> o.error == Some(DecodeError)
    ensures body == NonObject ==> o.error == Some(NoGetMethod)
    ensures body.Object? && IsSentinel(body.fields) ==> o.error == Some(SimulatedFailure(FailureMessage(body.fields)))
    ensures !body.Object? ==> o.span.attributes == map[]
    ensures body.Object? ==> o.span.attributes.Keys == {"order.id", "order.product"}
    ensures body.Object? ==> o.span.attributes["order.id"] == Str(PyStr(Get(body.fields, "Id", Str(""))))
    ensures body.Object? ==> o.span.attributes["order.product"] == Get(body.fields, "Product", Str(""))
    ensures o.warned <==> body.Object? && IsSentinel(body.fields) && Truthy(Get(body.fields, "error2", Null))
  {
    match body
    case Undecodable =>
      MessageOutcome(Span("process_order", Internal, map[]), Some(DecodeError), false, None, Reject)
    case NonObject =>
      MessageOutcome(Span("process_order", Internal, map[]), Some(NoGetMethod), false, None, Reject)
    case Object(fields) =>
      var span := Span("process_order", Internal, OrderAttributes(fields));
      if IsSentinel(fields) then
        MessageOutcome(span, Some(SimulatedFailure(FailureMessage(fields))), Truthy(Get(fields, "error2", Null)), None, Reject)
      else
        MessageOutcome(span, None, false, Some(ProcessingDelaySeconds), Ack)
  }

  /** The `error2` flag only decides the warning: the span, the exception and the delivery's fate do not depend on it. */
  lemma Error2OnlyWarns(fields: map<string, Value>, flag: Value)
    ensures var o := OnMessage(Object(fields));
      var o2 := OnMessage(Object(fields["error2" := flag]));
      o2.span == o.span && o2.error == o.error && o2.delay == o.delay && o2.disposition == o.disposition
  {
    var f2 := fields["error2" := flag];
    assert Get(f2, "Id", Str("")) == Get(fields, "Id", Str(""));
    assert Get(f2, "Id", Null) == Get(fields, "Id", Null);
    assert Get(f2, "Product", Str("")) == Get(fields, "Product", Str(""));
  }

  /** Lower-casing maps `s` to `t` when it maps each character of `s` to the one of `t` at the same place. */
  lemma LowersTo(s: string, t: string)
    requires |s| == |t| && forall i :: 0 <= i < |s| ==> LowerChar(s[i]) == t[i]
    ensures PyLower(s) == t
  {
  }

  /** The sentinel is matched in any letter case: "Worker Error" fails the order too. */
  lemma CapitalisedSentinelFails(fields: map<string, Value>)
    requires Get(fields, "Product", Str("")) == Str("Worker Error")
    ensures OnMessage(Object(fields)).disposition == Reject
  {
    var p := "Worker Error";
    assert LowerChar(p[0]) == 'w' && LowerChar(p[7]) == 'e';
    LowersTo(p, WorkerSentinel);
  }

  /** The product is not trimmed: " worker error" is processed normally, with the half-second delay. */
  lemma PaddedSentinelProcessed(fields: map<string, Value>)
    requires Get(fields, "Product", Str("")) == Str(" worker error")
    ensures OnMessage(Object(fields)).disposition == Ack
    ensures OnMessage(Object(fields)).delay == Some(ProcessingDelaySeconds)
  {
    assert |PyLower(" worker error")| == 13;
  }

  /** Orders with different integer ids get spans with different `order.id` attributes. */
  lemma DistinctIdsDistinctSpans(fields: map<string, Value>, other: map<string, Value>, i: int, j: int)
    requires Get(fields, "Id", Str("")) == Int(i) && Get(other, "Id", Str("")) == Int(j) && i != j
    ensures OnMessage(Object(fields)).span.attributes["order.id"] != OnMessage(Object(other)).span.attributes["order.id"]
  {
    if IntToString(i) == IntToString(j) {
      IntToStringInjective(i, j);
    }
  }

  /** The message {"Id": "43", "Product": "worker error", "error2": true} is failed with id 43 in the exception, warned about, and rejected. */
  lemma WorkerErrorWithError2(fields: map<string, Value>)
    requires fields == map["Id" := Str("43"), "Product" := Str("worker error"), "error2" := Bool(true)]
    ensures var o := OnMessage(Object(fields));
      && o.disposition == Reject && o.warned && o.delay.None?
      && o.error == Some(SimulatedFailure("Simulated processing error for order 43"))
      && o.span.attributes["order.id"] == Str("43")
  {
    LowersTo(WorkerSentinel, WorkerSentinel);
    assert Get(fields, "Id", Null) == Str("43");
    assert FailureMessage(fields) == "Simulated processing error for order " + "43";
    assert "Simulated processing error for order " + "43" == "Simulated processing error for order 43";
  }
}
