/** The span record the handlers write: what an OpenTelemetry span ends up holding. */
module Telemetry {

  import opened Values

  datatype SpanKind = Internal | Server | Client | Producer | ConsumerKind

  /** A started span: its name, its kind and the attributes written to it. */
  datatype Span = Span(name: string, kind: SpanKind, attributes: map<string, Value>)
}
