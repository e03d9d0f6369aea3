/**
 * The tracer's conversion of one broker event into a span
 * (rabbitmq-tracer/main.py, process_event). The span's attribute writes go to
 * a freshly started span, so the conversion is a function from the event type
 * (the routing key) and the normalized body to the span record.
 */
module EventClassifier {

  import opened Values
  import opened Text
  import opened Telemetry

  /** The event categories, in the order the classifier tests for them, and the fallback. */
  datatype Category =
    | ConnectionEvent | ChannelEvent | QueueEvent | ConsumerEvent | ExchangeEvent | BindingEvent
    | OtherEvent

  /** The position of a category in the test order; the fallback comes last. */
  function Rank(c: Category): nat {
    match c
    case ConnectionEvent => 0
    case ChannelEvent => 1
    case QueueEvent => 2
    case ConsumerEvent => 3
    case ExchangeEvent => 4
    case BindingEvent => 5
    case OtherEvent => 6
  }

  /** The substring of the event type that selects a category. */
  function Keyword(c: Category): string
    requires c != OtherEvent
  {
    match c
    case ConnectionEvent => "connection"
    case ChannelEvent => "channel"
    case QueueEvent => "queue"
    case ConsumerEvent => "consumer"
    case ExchangeEvent => "exchange"
    case BindingEvent => "binding"
  }

  /**
   * The category of an event type: the FIRST category, in test order, whose
   * keyword occurs in it; the fallback when none does.
   */
  function CategoryOf(eventType: string): (c: Category)
    ensures c != OtherEvent ==> Contains(Keyword(c), eventType)
    ensures forall d :: d != OtherEvent && Rank(d) < Rank(c) ==> !Contains(Keyword(d), eventType)
  {
    if Contains("connection", eventType) then ConnectionEvent
    else if Contains("channel", eventType) then ChannelEvent
    else if Contains("queue", eventType) then QueueEvent
    else if Contains("consumer", eventType) then ConsumerEvent
    else if Contains("exchange", eventType) then ExchangeEvent
    else if Contains("binding", eventType) then BindingEvent
    else OtherEvent
  }

  /** The span kind chosen for an event type: every branch of the choice picks INTERNAL. */
  function KindOf(eventType: string): (k: SpanKind)
    ensures k == Internal
  {
    if Contains("created", eventType) || Contains("declared", eventType) then Internal
    else if Contains("closed", eventType) || Contains("deleted", eventType) then Internal
    else Internal
  }

  /** One category-specific attribute: its name, the body key it is read from, and the value used when the key is missing. */
  datatype Field = Field(attribute: string, key: string, default: Value)

  /** The fixed attribute set written for each category, in the order the source writes it. */
  function Fields(c: Category): seq<Field> {
    match c
    case ConnectionEvent => [
      Field("rabbitmq.connection.name", "name", Str("")),
      Field("rabbitmq.connection.peer_host", "peer_host", Str("")),
      Field("rabbitmq.connection.peer_port", "peer_port", Int(0)),
      Field("rabbitmq.connection.user", "user", Str("")),
      Field("rabbitmq.connection.vhost", "vhost", Str(""))]
    case ChannelEvent => [
      Field("rabbitmq.channel.number", "number", Int(0)),
      Field("rabbitmq.channel.user", "user", Str("")),
      Field("rabbitmq.channel.vhost", "vhost", Str("")),
      Field("rabbitmq.channel.connection", "connection_name", Str(""))]
    case QueueEvent => [
      Field("rabbitmq.queue.name", "name", Str("")),
      Field("rabbitmq.queue.vhost", "vhost", Str("")),
      Field("rabbitmq.queue.durable", "durable", Bool(false)),
      Field("rabbitmq.queue.auto_delete", "auto_delete", Bool(false))]
    case ConsumerEvent => [
      Field("rabbitmq.consumer.tag", "consumer_tag", Str("")),
      Field("rabbitmq.consumer.queue", "queue_name", Str("")),
      Field("rabbitmq.consumer.channel", "channel", Str(""))]
    case ExchangeEvent => [
      Field("rabbitmq.exchange.name", "name", Str("")),
      Field("rabbitmq.exchange.type", "type", Str("")),
      Field("rabbitmq.exchange.vhost", "vhost", Str("")),
      Field("rabbitmq.exchange.durable", "durable", Bool(false))]
    case BindingEvent => [
      Field("rabbitmq.binding.source", "source_name", Str("")),
      Field("rabbitmq.binding.destination", "destination_name", Str("")),
      Field("rabbitmq.binding.routing_key", "routing_key", Str("")),
      Field("rabbitmq.binding.vhost", "vhost", Str(""))]
    case OtherEvent => []
  }

  /** The names of a category's attributes. */
  function AttributeNames(c: Category): set<string> {
    set f | f in Fields(c) :: f.attribute
  }

  /** No two fields of a list write the same attribute. */
  predicate DistinctAttributes(fields: seq<Field>) {
    forall i, j :: 0 <= i < j < |fields| ==> fields[i].attribute != fields[j].attribute
  }

  /**
   * The attributes written by `span.set_attribute(f.attribute, body.get(f.key, f.default))`
   * for each field in turn: exactly the fields' attributes, each holding the
   * body's value for its key or, when the key is missing, its default.
   */
  function Extract(fields: seq<Field>, body: map<string, Value>): (attrs: map<string, Value>)
    ensures attrs.Keys == set f | f in fields :: f.attribute
    ensures DistinctAttributes(fields) ==>
      forall f :: f in fields ==> attrs[f.attribute] == Get(body, f.key, f.default)
    decreases |fields|
  {
    if fields == [] then map[]
    else
      var init := fields[..|fields| - 1];
      var f := fields[|fields| - 1];
      assert fields == init + [f];
      var attrs := Extract(init, body)[f.attribute := Get(body, f.key, f.default)];
      assert DistinctAttributes(fields) ==> DistinctAttributes(init) && forall g :: g in init ==> g.attribute != f.attribute by {
        if DistinctAttributes(fields) {
          forall g | g in init ensures g.attribute != f.attribute {
            var i :| 0 <= i < |init| && init[i] == g;
            assert fields[i] == g;
          }
        }
      }
      attrs
  }

  /** The attribute names every category writes are its own: none is written twice, none is one of the common attributes. */
  lemma FieldTables(c: Category)
    ensures DistinctAttributes(Fields(c))
    ensures "rabbitmq.event.type" !in AttributeNames(c)
    ensures "rabbitmq.node" !in AttributeNames(c)
    ensures "rabbitmq.event.minimal" !in AttributeNames(c)
    ensures "rabbitmq.event.timestamp" !in AttributeNames(c)
  {
    match c
    case ConnectionEvent => ConnectionTable();
    case ChannelEvent => ChannelTable();
    case QueueEvent => QueueTable();
    case ConsumerEvent => ConsumerTable();
    case ExchangeEvent => ExchangeTable();
    case BindingEvent => BindingTable();
    case OtherEvent =>
  }

  /** The common attributes every span may carry besides its category's. */
  predicate Common(name: string) {
    name in {"rabbitmq.event.type", "rabbitmq.node", "rabbitmq.event.minimal", "rabbitmq.event.timestamp"}
  }

  lemma ConnectionTable()
    ensures DistinctAttributes(Fields(ConnectionEvent))
    ensures forall f :: f in Fields(ConnectionEvent) ==> !Common(f.attribute)
  {
  }

  lemma ChannelTable()
    ensures DistinctAttributes(Fields(ChannelEvent))
    ensures forall f :: f in Fields(ChannelEvent) ==> !Common(f.attribute)
  {
  }

  lemma QueueTable()
    ensures DistinctAttributes(Fields(QueueEvent))
    ensures forall f :: f in Fields(QueueEvent) ==> !Common(f.attribute)
  {
  }

  lemma ConsumerTable()
    ensures DistinctAttributes(Fields(ConsumerEvent))
    ensures forall f :: f in Fields(ConsumerEvent) ==> !Common(f.attribute)
  {
  }

  lemma ExchangeTable()
    ensures DistinctAttributes(Fields(ExchangeEvent))
    ensures forall f :: f in Fields(ExchangeEvent) ==> !Common(f.attribute)
  {
  }

  lemma BindingTable()
    ensures DistinctAttributes(Fields(BindingEvent))
    ensures forall f :: f in Fields(BindingEvent) ==> !Common(f.attribute)
  {
  }

  /** The span written for one event (process_event). */
  function ProcessEvent(body: map<string, Value>, routingKey: string): (span: Span)
    ensures span.name == "rabbitmq." + routingKey
    ensures span.kind == Internal
  {
    var eventType := routingKey;
    var name := "rabbitmq." + eventType;
    var kind := KindOf(eventType);
    var common := map["rabbitmq.event.type" := Str(eventType)];
    var common := if "node" in body then common["rabbitmq.node" := Get(body, "node", Str("unknown"))] else common;
    if body == map[] then
      Span(name, kind, common["rabbitmq.event.minimal" := Bool(true)])
    else
      var attrs := common + Extract(Fields(CategoryOf(eventType)), body);
      var attrs := if "timestamp" in body then attrs["rabbitmq.event.timestamp" := body["timestamp"]] else attrs;
      Span(name, kind, attrs)
  }

  /** Every span names its event type, and carries the node exactly when the body names one. */
  lemma ProcessEventCommon(body: map<string, Value>, routingKey: string)
    ensures var a := ProcessEvent(body, routingKey).attributes;
      && "rabbitmq.event.type" in a && a["rabbitmq.event.type"] == Str(routingKey)
      && ("rabbitmq.node" in a <==> "node" in body)
      && ("node" in body ==> a["rabbitmq.node"] == body["node"])
      && ("rabbitmq.event.timestamp" in a <==> "timestamp" in body)
      && ("timestamp" in body ==> a["rabbitmq.event.timestamp"] == body["timestamp"])
      && ("rabbitmq.event.minimal" in a <==> body == map[])
  {
    FieldTables(CategoryOf(routingKey));
  }

  /** An empty body gives the minimal span and nothing else. */
  lemma ProcessEventMinimal(body: map<string, Value>, routingKey: string)
    requires body == map[]
    ensures ProcessEvent(body, routingKey).attributes
      == map["rabbitmq.event.type" := Str(routingKey), "rabbitmq.event.minimal" := Bool(true)]
  {
  }

  /**
   * A non-empty body gives the common attributes, the selected category's
   * fixed set read from the body (or defaulted), and the timestamp; nothing else.
   */
  lemma ProcessEventCategory(body: map<string, Value>, routingKey: string)
    requires body != map[]
    ensures var a := ProcessEvent(body, routingKey).attributes;
      && a.Keys ==
        {"rabbitmq.event.type"}
        + (if "node" in body then {"rabbitmq.node"} else {})
        + AttributeNames(CategoryOf(routingKey))
        + (if "timestamp" in body then {"rabbitmq.event.timestamp"} else {})
      && forall f :: f in Fields(CategoryOf(routingKey)) ==> a[f.attribute] == Get(body, f.key, f.default)
  {
    FieldTables(CategoryOf(routingKey));
  }

  /**
   * A queue event (such as queue.declared) whose body names neither a node nor
   * a timestamp: the span holds the event type and the queue's four
   * attributes, read from the body or defaulted, and nothing else.
   */
  lemma QueueEventSpan(body: map<string, Value>, routingKey: string)
    requires CategoryOf(routingKey) == QueueEvent
    requires body != map[] && "node" !in body && "timestamp" !in body
    ensures ProcessEvent(body, routingKey).attributes == map[
      "rabbitmq.event.type" := Str(routingKey),
      "rabbitmq.queue.name" := Get(body, "name", Str("")),
      "rabbitmq.queue.vhost" := Get(body, "vhost", Str("")),
      "rabbitmq.queue.durable" := Get(body, "durable", Bool(false)),
      "rabbitmq.queue.auto_delete" := Get(body, "auto_delete", Bool(false))]
  {
    var a := ProcessEvent(body, routingKey).attributes;
    QueueEventKeys(body, routingKey);
    QueueEventValues(body, routingKey);
    ProcessEventCommon(body, routingKey);
    FiveEntries(a, "rabbitmq.event.type", "rabbitmq.queue.name", "rabbitmq.queue.vhost",
      "rabbitmq.queue.durable", "rabbitmq.queue.auto_delete");
  }

  lemma QueueEventKeys(body: map<string, Value>, routingKey: string)
    requires CategoryOf(routingKey) == QueueEvent
    requires body != map[] && "node" !in body && "timestamp" !in body
    ensures ProcessEvent(body, routingKey).attributes.Keys == {"rabbitmq.event.type"}
      + {"rabbitmq.queue.name", "rabbitmq.queue.vhost", "rabbitmq.queue.durable", "rabbitmq.queue.auto_delete"}
  {
    ProcessEventCategory(body, routingKey);
    QueueNames();
  }

  lemma QueueEventValues(body: map<string, Value>, routingKey: string)
    requires CategoryOf(routingKey) == QueueEvent
    requires body != map[]
    ensures var a := ProcessEvent(body, routingKey).attributes;
      && a.Keys >= {"rabbitmq.queue.name", "rabbitmq.queue.vhost", "rabbitmq.queue.durable", "rabbitmq.queue.auto_delete"}
      && a["rabbitmq.queue.name"] == Get(body, "name", Str(""))
      && a["rabbitmq.queue.vhost"] == Get(body, "vhost", Str(""))
      && a["rabbitmq.queue.durable"] == Get(body, "durable", Bool(false))
      && a["rabbitmq.queue.auto_delete"] == Get(body, "auto_delete", Bool(false))
  {
    ProcessEventCategory(body, routingKey);
    QueueNames();
    var fs := Fields(QueueEvent);
    assert fs[0] in fs && fs[1] in fs && fs[2] in fs && fs[3] in fs;
  }

  /** A map with exactly five given keys is the display of its five entries. */
  lemma FiveEntries(a: map<string, Value>, k0: string, k1: string, k2: string, k3: string, k4: string)
    requires a.Keys == {k0} + {k1, k2, k3, k4}
    ensures a == map[k0 := a[k0], k1 := a[k1], k2 := a[k2], k3 := a[k3], k4 := a[k4]]
  {
  }

  lemma QueueNames()
    ensures AttributeNames(QueueEvent)
      == {"rabbitmq.queue.name", "rabbitmq.queue.vhost", "rabbitmq.queue.durable", "rabbitmq.queue.auto_delete"}
  {
    var fs := Fields(QueueEvent);
    assert fs[0] in fs && fs[1] in fs && fs[2] in fs && fs[3] in fs;
  }

  /** The event type "queue.declared" selects the queue category. */
  lemma QueueDeclaredIsQueueEvent(routingKey: string)
    requires routingKey == "queue.declared"
    ensures CategoryOf(routingKey) == QueueEvent
  {
    assert !Contains("connection", "queue.declared");
    assert !Contains("channel", "queue.declared");
    assert Contains("queue", "queue.declared");
  }
}
