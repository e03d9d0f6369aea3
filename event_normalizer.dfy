/**
 * The tracer's per-message handler (rabbitmq-tracer/main.py, on_event): it
 * picks the event type, normalizes the body, injects the message timestamp and
 * hands the result to the classifier. Every error is caught and logged inside
 * the message's processing context, so every delivery is acknowledged.
 */
module EventNormalizer {

  import opened Wrappers
  import opened Values
  import opened Telemetry
  import opened Broker
  import opened EventClassifier

  /**
   * What `json.loads` made of the decoded body: an object, some other JSON
   * value (a list, a string, a number, a boolean or null) of which only its
   * truthiness matters, or a parse failure.
   */
  datatype ParsedBody =
    | JsonObject(fields: map<string, Value>)
    | JsonOther(truthy: bool)
    | NotJson

  /**
   * The parts of an incoming event message the handler reads: the routing key,
   * the parsed body, the AMQP headers and the message timestamp (as the text of
   * the float `timestamp()` returns).
   */
  datatype EventMessage = EventMessage(
    routingKey: Option<string>,
    body: ParsedBody,
    headers: map<string, Value>,
    timestamp: Option<string>)

  /** What handling one event did: the span it wrote, if any, whether it logged an error, and the delivery's fate. */
  datatype EventOutcome = EventOutcome(span: Option<Span>, errorLogged: bool, disposition: Disposition)

  /** `message.routing_key or "unknown"`: a missing or empty routing key becomes "unknown". */
  function EventType(routingKey: Option<string>): (t: string)
    ensures t != ""
    ensures routingKey.Some? && routingKey.value != "" ==> t == routingKey.value
    ensures routingKey.None? || routingKey.value == "" ==> t == "unknown"
  {
    match routingKey
    case Some(k) => if k != "" then k else "unknown"
    case None => "unknown"
  }

  /**
   * The body before the timestamp is added: a JSON object as parsed, the
   * headers when the body is not JSON, and `{}` for a falsy JSON value. A
   * truthy JSON value that is not an object stays what it is, which is not a
   * dict: `None` here.
   */
  function BaseBody(body: ParsedBody, headers: map<string, Value>): (b: Option<map<string, Value>>)
    ensures b.None? <==> body == JsonOther(true)
    ensures body.JsonObject? ==> b == Some(body.fields)
    ensures body == NotJson ==> b == Some(headers)
    ensures body == JsonOther(false) ==> b == Some(map[])
  {
    match body
    case JsonObject(fields) => Some(fields)
    case NotJson => Some(headers)
    case JsonOther(truthy) => if truthy then None else Some(map[])
  }

  /**
   * `if message.timestamp and 'timestamp' not in body: body['timestamp'] = ...`:
   * the message's timestamp is added only when it has one and the body has none;
   * a timestamp already in the body is kept.
   */
  function InjectTimestamp(body: map<string, Value>, timestamp: Option<string>): (r: map<string, Value>)
    ensures r.Keys == body.Keys + (if timestamp.Some? then {"timestamp"} else {})
    ensures forall k :: k in body ==> r[k] == body[k]
    ensures "timestamp" !in body && timestamp.Some? ==> r["timestamp"] == Float(timestamp.value)
  {
    if timestamp.Some? && "timestamp" !in body then body["timestamp" := Float(timestamp.value)] else body
  }

  /** The body handed to the classifier, or `None` when normalizing it or classifying it raises. */
  function NormalizedBody(m: EventMessage): Option<map<string, Value>> {
    match BaseBody(m.body, m.headers)
    case Some(b) => Some(InjectTimestamp(b, m.timestamp))
    case None => None
  }

  /**
   * The handler of one event. A truthy non-object JSON body raises (at the
   * timestamp test or when the classifier lists the body's keys) before any span
   * is started; the error is logged and the message is still acknowledged.
   */
  method OnEvent(m: EventMessage) returns (outcome: EventOutcome)
    ensures outcome.disposition == Ack
    ensures outcome.errorLogged <==> m.body == JsonOther(true)
    ensures outcome.span.None? <==> outcome.errorLogged
    ensures outcome.span.Some? ==>
      outcome.span.value == ProcessEvent(NormalizedBody(m).value, EventType(m.routingKey))
  {
    var routingKey := "unknown";
    if m.routingKey.Some? && m.routingKey.value != "" {
      routingKey := m.routingKey.value;
    }
    // `isDict` is false while `body` stands for a JSON value that is not an object.
    var body: map<string, Value> := map[];
    var isDict := true;
    match m.body {
      case JsonObject(fields) =>
        body := fields;
      case JsonOther(truthy) =>
        isDict := false;
        if !truthy {
          // `if not body: body = {}`
          body := map[];
          isDict := true;
        }
      case NotJson =>
        body := map[];
        if m.headers != map[] {
          body := m.headers;
        }
    }
    if !isDict {
      // `'timestamp' not in body` or `body['timestamp'] = ...` or `event_body.keys()` raises
      return EventOutcome(None, true, Ack);
    }
    if m.timestamp.Some? && "timestamp" !in body {
      body := body["timestamp" := Float(m.timestamp.value)];
    }
    var span := ProcessEvent(body, routingKey);
    outcome := EventOutcome(Some(span), false, Ack);
  }

  /** A body that is not JSON is replaced by the message headers (an empty map when there are none). */
  lemma NotJsonUsesHeaders(m: EventMessage)
    requires m.body == NotJson && m.timestamp.None?
    ensures NormalizedBody(m) == Some(m.headers)
  {
  }

  /** A falsy JSON value (null, 0, [], "", false) is read as an empty object. */
  lemma FalsyJsonIsEmpty(m: EventMessage)
    requires m.body == JsonOther(false) || m.body == JsonObject(map[])
    ensures NormalizedBody(m).Some?
    ensures NormalizedBody(m).value == if m.timestamp.Some? then map["timestamp" := Float(m.timestamp.value)] else map[]
  {
  }

  /** A timestamp the body carries is never overwritten by the message's. */
  lemma BodyTimestampKept(m: EventMessage)
    requires m.body.JsonObject? && "timestamp" in m.body.fields
    ensures NormalizedBody(m).Some? && NormalizedBody(m).value == m.body.fields
  {
    var b := m.body.fields;
    var r := InjectTimestamp(b, m.timestamp);
    assert r.Keys == b.Keys;
  }

  /**
   * A handled event's span carries a timestamp exactly when the body or the
   * message has one, and the body's own timestamp wins over the message's.
   */
  lemma SpanTimestamp(m: EventMessage)
    requires m.body != JsonOther(true)
    ensures var a := ProcessEvent(NormalizedBody(m).value, EventType(m.routingKey)).attributes;
      var b := BaseBody(m.body, m.headers).value;
      && ("rabbitmq.event.timestamp" in a <==> "timestamp" in b || m.timestamp.Some?)
      && ("timestamp" in b ==> a["rabbitmq.event.timestamp"] == b["timestamp"])
      && ("timestamp" !in b && m.timestamp.Some? ==> a["rabbitmq.event.timestamp"] == Float(m.timestamp.value))
  {
    ProcessEventCommon(NormalizedBody(m).value, EventType(m.routingKey));
  }

  /**
   * The minimal span is written exactly when the normalized body is empty: an
   * empty or falsy body (or a non-JSON body without headers) AND no message
   * timestamp. An empty body with a message timestamp gets the full category
   * attribute set, every value defaulted.
   */
  lemma MinimalSpan(m: EventMessage)
    requires m.body != JsonOther(true)
    ensures var a := ProcessEvent(NormalizedBody(m).value, EventType(m.routingKey)).attributes;
      ("rabbitmq.event.minimal" in a) <==> BaseBody(m.body, m.headers).value == map[] && m.timestamp.None?
  {
    var b := BaseBody(m.body, m.headers).value;
    var n := NormalizedBody(m).value;
    ProcessEventCommon(n, EventType(m.routingKey));
    if m.timestamp.Some? {
      assert "timestamp" in n;
    } else if b != map[] {
      var k :| k in b;
      assert k in n;
    }
  }
}
