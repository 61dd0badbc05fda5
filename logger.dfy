/**
 * The log-span bridge: a structured logger bound to one span, so that every
 * log call is forwarded to the logger and also lands on the span.
 */
module Logger {
  import opened Wrappers
  import opened Telemetry

  /** The key given to an attribute whose key in the call is not a string. */
  const NonStringKey: string := "non-string"

  /** The attribute key for a key position of a key/value list. */
  function KeyOf(v: Value): (k: string)
    ensures v.StringValue? ==> k == v.s
    ensures !v.StringValue? ==> k == NonStringKey
  {
    if v.StringValue? then v.s else NonStringKey
  }

  /** Reference definition of the attributes a key/value list yields, pair by pair. */
  function Pairs(kvs: seq<Value>): seq<KeyValue>
    decreases |kvs|
  {
    if |kvs| < 2 then [] else [KeyValue(KeyOf(kvs[0]), kvs[1])] + Pairs(kvs[2..])
  }

  /**
   * A list of n values yields n / 2 attributes, an unpaired last value being
   * dropped; attribute i takes its key from value 2i and its value from 2i+1.
   */
  lemma {:induction false} PairsAt(kvs: seq<Value>)
    ensures |Pairs(kvs)| == |kvs| / 2
    ensures forall i :: 0 <= i < |kvs| / 2 ==>
              Pairs(kvs)[i] == KeyValue(KeyOf(kvs[2 * i]), kvs[2 * i + 1])
    decreases |kvs|
  {
    if |kvs| >= 2 {
      var rest := kvs[2..];
      PairsAt(rest);
      forall i | 1 <= i < |kvs| / 2
        ensures Pairs(kvs)[i] == KeyValue(KeyOf(kvs[2 * i]), kvs[2 * i + 1])
      {
        assert Pairs(kvs)[i] == Pairs(rest)[i - 1];
        assert rest[2 * (i - 1)] == kvs[2 * i];
        assert rest[2 * (i - 1) + 1] == kvs[2 * i + 1];
      }
    }
  }

  /** The attributes for a key/value list, built by stepping two at a time. */
  method KeyValues(kvs: seq<Value>) returns (attrs: seq<KeyValue>)
    ensures attrs == Pairs(kvs)
  {
    attrs := [];
    var i := 0;
    while i + 1 < |kvs|
      invariant 0 <= i <= |kvs| && i % 2 == 0
      invariant |attrs| == i / 2
      invariant forall j :: 0 <= j < |attrs| ==> attrs[j] == KeyValue(KeyOf(kvs[2 * j]), kvs[2 * j + 1])
    {
      var key := KeyOf(kvs[i]);
      attrs := attrs + [KeyValue(key, kvs[i + 1])];
      i := i + 2;
    }
    PairsAt(kvs);
  }

  /** Values keep their order and type; a non-string key and an unpaired value are handled as stated. */
  lemma KeyValuesExamples()
    ensures Pairs([StringValue("foo"), StringValue("foo-value"), StringValue("bar"), IntValue(42)])
            == [KeyValue("foo", StringValue("foo-value")), KeyValue("bar", IntValue(42))]
    ensures Pairs([IntValue(7), BoolValue(true), StringValue("dangling")])
            == [KeyValue(NonStringKey, BoolValue(true))]
  {
    PairsAt([StringValue("foo"), StringValue("foo-value"), StringValue("bar"), IntValue(42)]);
    PairsAt([IntValue(7), BoolValue(true), StringValue("dangling")]);
  }

  // ----- The wrapped structured logger -----

  /** A call as the wrapped logger receives it. */
  datatype LogCall =
    | InfoCall(logger: Logr, msg: string, kvs: seq<Value>)
    | ErrorCall(logger: Logr, err: Option<Telemetry.Error>, msg: string, kvs: seq<Value>)

  /** Where the wrapped logger's calls end up; enabled up to a verbosity. */
  class LogSink {
    const verbosity: int
    var calls: seq<LogCall>

    constructor (verbosity: int)
      ensures this.verbosity == verbosity && calls == []
    {
      this.verbosity := verbosity;
      calls := [];
    }
  }

  /** The wrapped structured logger: a sink plus the level, names and values it was derived with. */
  datatype Logr = Logr(sink: LogSink, level: int, names: seq<string>, values: seq<Value>) {

    predicate Enabled() {
      level <= sink.verbosity
    }

    function V(level: int): Logr {
      this.(level := this.level + level)
    }

    function WithValues(kvs: seq<Value>): Logr {
      this.(values := values + kvs)
    }

    function WithName(name: string): Logr {
      this.(names := names + [name])
    }

    method Info(msg: string, kvs: seq<Value>)
      modifies sink
      ensures sink.calls == old(sink.calls) + [InfoCall(this, msg, kvs)]
    {
      sink.calls := sink.calls + [InfoCall(this, msg, kvs)];
    }

    method Error(err: Option<Telemetry.Error>, msg: string, kvs: seq<Value>)
      modifies sink
      ensures sink.calls == old(sink.calls) + [ErrorCall(this, err, msg, kvs)]
    {
      sink.calls := sink.calls + [ErrorCall(this, err, msg, kvs)];
    }
  }

  // ----- The bridge -----

  /** A logger bound to one span; the binding survives every derived logger. */
  datatype TracingLogger = TracingLogger(logger: Logr, span: Span) {

    function Enabled(): (r: bool)
      ensures r <==> logger.level <= logger.sink.verbosity
    {
      logger.Enabled()
    }

    method Info(msg: string, kvs: seq<Value>)
      modifies logger.sink, span
      ensures logger.sink.calls == old(logger.sink.calls) + [InfoCall(logger, msg, kvs)]
      ensures span.events == old(span.events) + [Event(msg, Pairs(kvs))]
      ensures span.attributes == old(span.attributes) && span.errors == old(span.errors)
    {
      logger.Info(msg, kvs);
      var attrs := KeyValues(kvs);
      span.AddEvent(msg, attrs);
    }

    method Error(err: Option<Telemetry.Error>, msg: string, kvs: seq<Value>)
      modifies logger.sink, span
      ensures logger.sink.calls == old(logger.sink.calls) + [ErrorCall(logger, err, msg, kvs)]
      ensures span.events == old(span.events) + [Event(msg, [KeyValue("error", StringValue(msg))] + Pairs(kvs))]
      ensures span.errors == old(span.errors) + Recorded(err)
      ensures span.attributes == old(span.attributes)
    {
      logger.Error(err, msg, kvs);
      var pairs := KeyValues(kvs);
      var attrs := [KeyValue("error", StringValue(msg))] + pairs;
      span.AddEvent(msg, attrs);
      span.RecordError(err);
    }

    function V(level: int): (r: TracingLogger)
      ensures r.span == span
      ensures r.logger.level == logger.level + level
      ensures r.logger.sink == logger.sink && r.logger.names == logger.names && r.logger.values == logger.values
    {
      TracingLogger(logger.V(level), span)
    }

    method WithValues(kvs: seq<Value>) returns (r: TracingLogger)
      modifies span
      ensures span.attributes == old(span.attributes) + Pairs(kvs)
      ensures span.events == old(span.events) && span.errors == old(span.errors)
      ensures r.span == span && r.logger == logger.WithValues(kvs)
    {
      var attrs := KeyValues(kvs);
      span.SetAttributes(attrs);
      r := TracingLogger(logger.WithValues(kvs), span);
    }

    method WithName(name: string) returns (r: TracingLogger)
      modifies span
      ensures span.attributes == old(span.attributes) + [KeyValue("name", StringValue(name))]
      ensures span.events == old(span.events) && span.errors == old(span.errors)
      ensures r.span == span && r.logger == logger.WithName(name)
    {
      span.SetAttributes([KeyValue("name", StringValue(name))]);
      r := TracingLogger(logger.WithName(name), span);
    }
  }
}
