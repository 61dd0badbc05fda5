/**
 * The OpenTelemetry collaborators the tracing layer talks to, modelled only
 * at their interface: attribute values, spans, the request context that
 * carries the active span, the tracer that starts spans, and a text-map
 * propagator.
 */
module Telemetry {
  import opened Wrappers

  /** Instrumentation name under which spans are started ("libName"). */
  const LibName: string := "controller-runtime"

  /**
   * A dynamically typed value as found in a logging call's key/value list,
   * and the attribute value `attribute.Any` makes of it: a tagged union.
   */
  datatype Value =
    | StringValue(s: string)
    | IntValue(i: int)
    | BoolValue(b: bool)
    | OtherValue(rendering: string)

  datatype KeyValue = KeyValue(key: string, value: Value)

  datatype Event = Event(name: string, attributes: seq<KeyValue>)

  /** A non-nil Go error, compared by value. */
  datatype Error = Error(message: string)

  /** The identifiers that locate a span within a distributed trace. */
  datatype SpanContext = SpanContext(traceId: string, spanId: string)

  /** What recording a possibly-nil error adds to a span's errors. */
  function Recorded(err: Option<Error>): (r: seq<Error>)
    ensures err.None? <==> r == []
    ensures err.Some? ==> r == [err.value]
  {
    match err
    case Some(e) => [e]
    case None => []
  }

  /**
   * A recording span: a name, its own span context, an optional parent, and
   * what has been added to it so far.
   */
  class Span {
    const name: string
    const scope: string
    const context: SpanContext
    const parent: Option<SpanContext>
    var events: seq<Event>
    var attributes: seq<KeyValue>
    var errors: seq<Error>

    constructor (name: string, scope: string, context: SpanContext, parent: Option<SpanContext>)
      ensures this.name == name && this.scope == scope
      ensures this.context == context && this.parent == parent
      ensures events == [] && attributes == [] && errors == []
    {
      this.name := name;
      this.scope := scope;
      this.context := context;
      this.parent := parent;
      events := [];
      attributes := [];
      errors := [];
    }

    method AddEvent(name: string, attrs: seq<KeyValue>)
      modifies this
      ensures events == old(events) + [Event(name, attrs)]
      ensures attributes == old(attributes) && errors == old(errors)
    {
      events := events + [Event(name, attrs)];
    }

    method SetAttributes(attrs: seq<KeyValue>)
      modifies this
      ensures attributes == old(attributes) + attrs
      ensures events == old(events) && errors == old(errors)
    {
      attributes := attributes + attrs;
    }

    /** Recording a nil error does nothing. */
    method RecordError(err: Option<Error>)
      modifies this
      ensures errors == old(errors) + Recorded(err)
      ensures events == old(events) && attributes == old(attributes)
    {
      errors := errors + Recorded(err);
    }
  }

  /** The span a context carries: one this process records, or a remote parent. */
  datatype ActiveSpan = Recording(span: Span) | NonRecording(sc: SpanContext)

  /** A request context, reduced to the chain of spans bound into it. */
  datatype Context = Background | WithSpan(parent: Context, active: ActiveSpan)

  /**
   * The recording span bound to `ctx`, or null when the innermost binding
   * records nothing (a remote parent) or there is none.
   */
  function SpanFromContext(ctx: Context): (sp: Span?)
    ensures sp != null <==> ctx.WithSpan? && ctx.active.Recording?
    ensures sp != null ==> sp == ctx.active.span
  {
    match ctx
    case Background => null
    case WithSpan(_, Recording(s)) => s
    case WithSpan(_, NonRecording(_)) => null
  }

  /** The objects an operation on `ctx`'s span may change. */
  function SpanFrame(ctx: Context): set<object>
  {
    var sp := SpanFromContext(ctx);
    if sp == null then {} else {sp}
  }

  /** The span context a propagator injects for `ctx`, if there is one. */
  function CurrentSpanContext(ctx: Context): (r: Option<SpanContext>)
    ensures ctx.Background? <==> r.None?
  {
    match ctx
    case Background => None
    case WithSpan(_, Recording(s)) => Some(s.context)
    case WithSpan(_, NonRecording(sc)) => Some(sc)
  }

  /**
   * The tracer's Start: a fresh span named `name`, child of `ctx`'s span
   * context. Identifier generation is random in the tracer, so the new
   * identifiers are a parameter; a child keeps its parent's trace identifier.
   */
  method Start(ctx: Context, name: string, ids: SpanContext) returns (ctx': Context, sp: Span)
    ensures fresh(sp)
    ensures sp.name == name && sp.scope == LibName
    ensures sp.parent == CurrentSpanContext(ctx)
    ensures sp.context.spanId == ids.spanId
    ensures sp.context.traceId == match CurrentSpanContext(ctx)
                                  case Some(p) => p.traceId
                                  case None => ids.traceId
    ensures sp.events == [] && sp.attributes == [] && sp.errors == []
    ensures ctx' == WithSpan(ctx, Recording(sp))
  {
    var parent := CurrentSpanContext(ctx);
    var traceId := if parent.Some? then parent.value.traceId else ids.traceId;
    sp := new Span(name, LibName, SpanContext(traceId, ids.spanId), parent);
    ctx' := WithSpan(ctx, Recording(sp));
  }

  /**
   * A text-map propagator, treated abstractly. `fields` are the carrier keys
   * it uses; `encode` gives the (key, value) pairs its Inject writes through
   * the carrier, in order, for a span context; `decode` is what its Extract
   * finds given the carrier's values for `fields`, in order.
   */
  datatype Propagator = Propagator(
    fields: seq<string>,
    encode: Option<SpanContext> -> seq<(string, string)>,
    decode: seq<string> -> Option<SpanContext>)
}
