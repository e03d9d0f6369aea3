/**
 * The tracer's start-up (rabbitmq-tracer/main.py, setup_telemetry and
 * start_event_consumer): configure the exporter headers, connect with retry,
 * declare the trace queue, bind it to the broker's event exchange for each
 * event type the tracer follows, and start consuming.
 */
module EventTracer {

  import opened Wrappers
  import opened Text
  import opened Broker
  import opened OtlpHeaders
  import opened EventClassifier

  /** The tracer's own queue: not durable, deleted with its last consumer. */
  const TraceQueue := "rabbitmq.events.trace"

  /** The exchange the broker publishes its internal events to. */
  const EventExchange := "amq.rabbitmq.event"

  /** An event type the tracer follows: a category's keyword, a '.' and a verb. */
  function Pattern(c: Category, verb: string): string
    requires c != OtherEvent
  {
    Keyword(c) + "." + verb
  }

  /** The verbs of the event types the tracer follows. */
  datatype Verb = Created | Closed | Deleted | Declared

  function VerbText(v: Verb): string {
    match v
    case Created => "created"
    case Closed => "closed"
    case Deleted => "deleted"
    case Declared => "declared"
  }

  /** A bound event type, as its category and its verb. */
  datatype EventBinding = EventBinding(category: Category, verb: Verb)

  /** The categories and verbs of the event types the trace queue is bound for, in binding order. */
  const EventBindings: seq<EventBinding> := [
    EventBinding(ConnectionEvent, Created),
    EventBinding(ConnectionEvent, Closed),
    EventBinding(ChannelEvent, Created),
    EventBinding(ChannelEvent, Closed),
    EventBinding(QueueEvent, Created),
    EventBinding(QueueEvent, Deleted),
    EventBinding(QueueEvent, Declared),
    EventBinding(ConsumerEvent, Created),
    EventBinding(ConsumerEvent, Deleted),
    EventBinding(ExchangeEvent, Created),
    EventBinding(ExchangeEvent, Deleted),
    EventBinding(BindingEvent, Created),
    EventBinding(BindingEvent, Deleted)]

  /**
   * The bound event types: "connection.created", "connection.closed",
   * "channel.created", "channel.closed", "queue.created", "queue.deleted",
   * "queue.declared", "consumer.created", "consumer.deleted",
   * "exchange.created", "exchange.deleted", "binding.created",
   * "binding.deleted".
   */
  const EventPatterns: seq<string> := PatternsOf(EventBindings)

  /** The event type of each binding, in order. */
  function PatternsOf(bindings: seq<EventBinding>): (patterns: seq<string>)
    requires forall i :: 0 <= i < |bindings| ==> bindings[i].category != OtherEvent
    ensures |patterns| == |bindings|
    ensures forall i :: 0 <= i < |bindings| ==> patterns[i] == Pattern(bindings[i].category, VerbText(bindings[i].verb))
  {
    seq(|bindings|, i requires 0 <= i < |bindings| => Pattern(bindings[i].category, VerbText(bindings[i].verb)))
  }

  /** What start-up did: the exporter headers, the connection loop's result, and the channel calls, in order. */
  datatype TracerStartup = TracerStartup(
    exporterHeaders: map<string, string>,
    connection: ConnectResult,
    calls: seq<BrokerCall>,
    gaveUpLogged: bool)

  /** One binding of `queue` to `exchange` per routing key, in order. */
  function BindCalls(queueName: string, exchangeName: string, routingKeys: seq<string>): (binds: seq<BrokerCall>)
    ensures |binds| == |routingKeys|
    ensures forall i :: 0 <= i < |binds| ==> binds[i] == Bind(queueName, exchangeName, routingKeys[i])
  {
    seq(|routingKeys|, i requires 0 <= i < |routingKeys| => Bind(queueName, exchangeName, routingKeys[i]))
  }

  /** The channel calls of a connected start-up: declare the queue, bind every pattern in turn, consume. */
  function TracerTopology(): seq<BrokerCall> {
    [DeclareQueue(TraceQueue, false, true)] + BindCalls(TraceQueue, EventExchange, EventPatterns) + [Consume(TraceQueue)]
  }

  /** `for pattern in patterns: await queue.bind(exchange, routing_key=pattern)`. */
  method BindPatterns(queueName: string, exchangeName: string, patterns: seq<string>) returns (calls: seq<BrokerCall>)
    ensures calls == BindCalls(queueName, exchangeName, patterns)
  {
    calls := [];
    for i := 0 to |patterns|
      invariant calls == BindCalls(queueName, exchangeName, patterns[..i])
    {
      calls := calls + [Bind(queueName, exchangeName, patterns[i])];
    }
    assert patterns[..|patterns|] == patterns;
  }

  /**
   * `start_event_consumer`: with the `OTEL_EXPORTER_OTLP_HEADERS` setting and the
   * outcome of each connection attempt. When no attempt succeeds it logs an
   * error and returns before touching a channel.
   */
  method StartEventConsumer(headersSetting: string, outcomeOf: nat -> AttemptOutcome) returns (s: TracerStartup)
    ensures s.exporterHeaders == HeadersOf(headersSetting)
    ensures s.connection.connected <==> FirstSuccess(outcomeOf, 1, MaxConnectAttempts).Some?
    ensures s.connection.connected ==> s.connection.attempts == FirstSuccess(outcomeOf, 1, MaxConnectAttempts).value
    ensures !s.connection.connected ==> s.connection.attempts == MaxConnectAttempts
    ensures 1 <= s.connection.attempts <= MaxConnectAttempts
    ensures s.connection.warned == AttemptsUpTo(if s.connection.connected then s.connection.attempts - 1 else s.connection.attempts)
    ensures s.connection.sleeps == Repeat(|s.connection.warned|, ConnectRetrySeconds)
    ensures s.gaveUpLogged <==> !s.connection.connected
    ensures !s.connection.connected ==> s.calls == []
    ensures s.connection.connected ==> s.calls == TracerTopology()
  {
    var headers := ParseHeaders(headersSetting);
    var connection := ConnectWithRetry(outcomeOf);
    if !connection.connected {
      return TracerStartup(headers, connection, [], true);
    }
    var binds := BindPatterns(TraceQueue, EventExchange, EventPatterns);
    var calls := [DeclareQueue(TraceQueue, false, true)] + binds + [Consume(TraceQueue)];
    s := TracerStartup(headers, connection, calls, false);
  }

  /** The pattern starts with its category's keyword, then a '.': the category is the pattern's first dotted part. */
  predicate SelectsPrefix(pattern: string) {
    && CategoryOf(pattern) != OtherEvent
    && var keyword := Keyword(CategoryOf(pattern));
    && |keyword| < |pattern| && pattern[..|keyword|] == keyword && pattern[|keyword|] == '.'
  }

  /** An event type made of a category's keyword, a '.' and a verb selects that category when no earlier category's keyword occurs in it. */
  lemma SelectsOwnKeyword(c: Category, verb: string)
    requires c != OtherEvent
    requires Rank(c) > 0 ==> !Contains("connection", Pattern(c, verb))
    requires Rank(c) > 1 ==> !Contains("channel", Pattern(c, verb))
    requires Rank(c) > 2 ==> !Contains("queue", Pattern(c, verb))
    requires Rank(c) > 3 ==> !Contains("consumer", Pattern(c, verb))
    requires Rank(c) > 4 ==> !Contains("exchange", Pattern(c, verb))
    ensures SelectsPrefix(Pattern(c, verb))
  {
    var p := Pattern(c, verb);
    PrefixContained(Keyword(c), "." + verb);
    assert p == Keyword(c) + ("." + verb);
    assert CategoryOf(p) == c;
    assert p[..|Keyword(c)|] == Keyword(c);
  }

  /**
   * A verb that lacks the letters i, h, q, u, x and n. After any category's
   * keyword but "binding" it leaves out, for every category tested earlier, a
   * letter of that category's keyword, or the second 'n' of "channel".
   */
  predicate PlainVerb(verb: string) {
    'i' !in verb && 'h' !in verb && 'q' !in verb && 'u' !in verb && 'x' !in verb && 'n' !in verb
  }

  /** Every verb is plain, and every verb but "closed" also lacks an 'o'. */
  lemma VerbIsPlain(v: Verb)
    ensures PlainVerb(VerbText(v))
    ensures v != Closed ==> 'o' !in VerbText(v)
  {
  }

  /** No binding is for a "binding.closed" event. */
  lemma NoBindingClosed()
    ensures forall i :: 0 <= i < |EventBindings| && EventBindings[i].category == BindingEvent ==> EventBindings[i].verb != Closed
  {
  }

  lemma ConnectionPattern(verb: string)
    ensures SelectsPrefix(Pattern(ConnectionEvent, verb))
  {
    SelectsOwnKeyword(ConnectionEvent, verb);
  }

  lemma ChannelPattern(verb: string)
    requires PlainVerb(verb)
    ensures SelectsPrefix(Pattern(ChannelEvent, verb))
  {
    var p := Pattern(ChannelEvent, verb);
    MissingCharNotContained("connection", p, 'i');
    SelectsOwnKeyword(ChannelEvent, verb);
  }

  lemma QueuePattern(verb: string)
    requires PlainVerb(verb)
    ensures SelectsPrefix(Pattern(QueueEvent, verb))
  {
    var p := Pattern(QueueEvent, verb);
    MissingCharNotContained("connection", p, 'i');
    MissingCharNotContained("channel", p, 'h');
    SelectsOwnKeyword(QueueEvent, verb);
  }

  lemma ConsumerPattern(verb: string)
    requires PlainVerb(verb)
    ensures SelectsPrefix(Pattern(ConsumerEvent, verb))
  {
    var p := Pattern(ConsumerEvent, verb);
    MissingCharNotContained("connection", p, 'i');
    MissingCharNotContained("channel", p, 'h');
    MissingCharNotContained("queue", p, 'q');
    SelectsOwnKeyword(ConsumerEvent, verb);
  }

  /** "exchange." has one 'n' and "channel" two. */
  lemma ExchangeNotChannel(verb: string)
    requires 'n' !in verb
    ensures !Contains("channel", Pattern(ExchangeEvent, verb))
  {
    assert Pattern(ExchangeEvent, verb) == "excha" + ['n'] + ("ge." + verb);
    SingleCopyNotContained("channel", "excha", 'n', "ge." + verb, 3, 4);
  }

  lemma ExchangePattern(verb: string)
    requires PlainVerb(verb)
    ensures SelectsPrefix(Pattern(ExchangeEvent, verb))
  {
    var p := Pattern(ExchangeEvent, verb);
    MissingCharNotContained("connection", p, 'i');
    ExchangeNotChannel(verb);
    MissingCharNotContained("queue", p, 'q');
    MissingCharNotContained("consumer", p, 'u');
    SelectsOwnKeyword(ExchangeEvent, verb);
  }

  lemma BindingPattern(verb: string)
    requires PlainVerb(verb) && 'o' !in verb
    ensures SelectsPrefix(Pattern(BindingEvent, verb))
  {
    var p := Pattern(BindingEvent, verb);
    MissingCharNotContained("connection", p, 'o');
    MissingCharNotContained("channel", p, 'h');
    MissingCharNotContained("queue", p, 'q');
    MissingCharNotContained("consumer", p, 'u');
    MissingCharNotContained("exchange", p, 'x');
    SelectsOwnKeyword(BindingEvent, verb);
  }

  /** A category's keyword, a '.' and a plain verb (without an 'o' after "binding") make an event type classified by its own first part. */
  lemma PatternSelects(c: Category, verb: string)
    requires c != OtherEvent && PlainVerb(verb)
    requires c == BindingEvent ==> 'o' !in verb
    ensures SelectsPrefix(Pattern(c, verb))
  {
    match c
    case ConnectionEvent => ConnectionPattern(verb);
    case ChannelEvent => ChannelPattern(verb);
    case QueueEvent => QueuePattern(verb);
    case ConsumerEvent => ConsumerPattern(verb);
    case ExchangeEvent => ExchangePattern(verb);
    case BindingEvent => BindingPattern(verb);
  }

  /**
   * Each bound event type is classified by its own first part: no pattern is
   * caught by a category tested earlier ("exchange.*" is not a channel event,
   * "consumer.*" is not a connection event).
   */
  lemma PatternsSelectTheirPrefix()
    ensures forall i :: 0 <= i < |EventPatterns| ==> SelectsPrefix(EventPatterns[i])
  {
    NoBindingClosed();
    forall i | 0 <= i < |EventPatterns|
      ensures SelectsPrefix(EventPatterns[i])
    {
      VerbIsPlain(EventBindings[i].verb);
      PatternSelects(EventBindings[i].category, VerbText(EventBindings[i].verb));
    }
  }
}
