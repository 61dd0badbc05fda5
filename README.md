# Tracing across resource annotations — a Dafny model

This project models the tracing layer of controller-runtime (`pkg/tracing`):
how a trace context is written into and read back from a Kubernetes
object's annotations, how a structured logger is bridged onto a span, and
how a resource client is decorated so that every operation leaves one event
on the caller's span, records its error there, and (for Create) stamps the
new object with the creator's trace context.

Files and modules:

- `wrappers.dfy` (`Wrappers`): `Option`, standing for Go's nil-able values.
- `telemetry.dfy` (`Telemetry`): the OpenTelemetry collaborators at their
  interface: attribute values as a tagged union (string, int, bool, other),
  the `Span` class holding sequences of events, attributes and recorded
  errors, the request `Context` reduced to the chain of spans bound into it,
  the tracer's `Start`, and an abstract text-map `Propagator` (its `fields`,
  the pairs its Inject writes, and what its Extract decodes from the values
  of its fields).
- `kube.dfy` (`Kube`): group/version/kind, object keys, objects (type, kind,
  namespaced name, accessor outcome, annotation map), lists, patches and
  the scheme.
- `annotation.dfy` (`Annotation`): `pkg/tracing/annotation.go`. The
  carrier class over an annotation map with `Get`, `Set` and `Keys`;
  `Stamp`, the value-level meaning of injecting through the carrier, with
  its overlay, lookup, frame and idempotence lemmas; the non-overwrite
  guard; stamping of objects; extraction and its round trip.
- `logger.dfy` (`Logger`): `pkg/tracing/logger.go`. `keyValues` as a
  loop proved against a recursive reference definition, and the bridge
  `TracingLogger` whose methods forward to the wrapped logger and change
  only the bound span.
- `runtime_client.dfy` (`RuntimeClient`): `pkg/tracing/runtime_client.go`.
  Attribute computation, `logStart`/`logError`, the `TracingClient` and
  `TracingStatusWriter` decorators over a `Delegate` that records each
  request it receives and answers with an error or none.

Behaviour kept as the code has it, where one might expect otherwise:

- The non-overwrite guard of `AddTraceAnnotationToObject` skips injection
  when ANY propagator field already has a non-empty value
  (annotation.go:87-91), not only when all of them have.
- `Keys()` lists every annotation key, with the prefix kept and unrelated
  annotations included (annotation.go:33-39); see Findings.
- `Create` labels its event with `blankObjectAttrs` (kinds from the scheme
  only, no object key), runtime_client.go:92.
- Extraction is judged by comparing contexts (annotation.go:44-47): the
  span is absent exactly when the propagator decodes nothing.
- `AddTraceAnnotationToUnstructured` has no guard: it re-injects into every
  object (annotation.go:62-73).

## Model

| member | source | states |
|---|---|---|
| `Annotation.AnnotationsCarrier.Get` | pkg/tracing/annotation.go:23-25 | a non-empty result comes only from an entry under `trace.kubernetes.io/`+key, and is that entry's value |
| `Annotation.AnnotationsCarrier.Set` | pkg/tracing/annotation.go:28-30 | the map gains or replaces exactly the entry prefix+key := value, and Get(key) then returns value |
| `Annotation.SetThenLookup` | pkg/tracing/annotation.go:23-30 | after Set(k, v), Get(k) is v and Get of every other key reads as before |
| `Annotation.AnnotationsCarrier.Keys` | pkg/tracing/annotation.go:33-39 | returns every key of the map once, as many keys as entries, prefixed or not, unstripped |
| `Annotation.KeysMissTraceEntries` | pkg/tracing/annotation.go:33-39 | for annotations holding only one trace entry, under any field and with any non-empty value, the one key Keys lists reads back as "" through Get while Get of the field finds the value |
| `Annotation.AnnotationsCarrier.TraceKeys` | pkg/tracing/annotation.go:33-39 | corrected Keys: exactly the prefixed entries with the prefix stripped, once each, and Get finds each one's stored value |
| `Annotation.AddTraceAnnotation` | pkg/tracing/annotation.go:56-58 | injecting writes the propagator's pairs for the context's span context through Set, in order: the map becomes Stamp of the old map |
| `Annotation.StampIsOverlay` | pkg/tracing/annotation.go:28-30 | writing pairs through the carrier equals overlaying the prefixed written entries on the old map |
| `Annotation.WrittenLookup` | pkg/tracing/annotation.go:28-30 | every written entry is prefixed, and the entry for a key holds the last value written to it |
| `Annotation.StampLookup` | pkg/tracing/annotation.go:23-30 | after injection Get(k) is the last value written for k, else what it was before |
| `Annotation.StampKeepsForeign` | pkg/tracing/annotation.go:28-30 | injection never adds, removes or changes an annotation outside the trace prefix |
| `Annotation.StampIdempotent` | pkg/tracing/annotation.go:56-58 | injecting the same pairs twice leaves what injecting them once leaves |
| `Annotation.HasTraceContext` | pkg/tracing/annotation.go:86-91 | the guard loop answers true exactly when some propagator field has a non-empty value |
| `Annotation.AddTraceAnnotationToObject` | pkg/tracing/annotation.go:77-96 | an accessor error is returned and the object is untouched; otherwise returns no error and the annotations become: a fresh stamped map for a nil map, unchanged when any field is set, stamped otherwise |
| `Annotation.StampObjectIdempotent` | pkg/tracing/annotation.go:83-95 | stamping an object a second time with the same context changes nothing |
| `Annotation.StampObjectNoReparent` | pkg/tracing/annotation.go:86-91 | once a stamp has left a non-empty value for some field, stamping with any other context is a no-op |
| `Annotation.StampObjectKeepsForeign` | pkg/tracing/annotation.go:83-95 | stamping never touches annotations outside the trace prefix; from a nil map it creates none |
| `Annotation.AddTraceAnnotationToUnstructured` | pkg/tracing/annotation.go:62-73 | returns no error and every object's annotations (an empty map when absent) are injected into, with no guard |
| `Annotation.Extract` | pkg/tracing/annotation.go:51-53 | extraction returns the context itself exactly when the propagator decodes nothing from the carrier, otherwise a child holding the decoded remote parent |
| `Annotation.CarrierTransparent` | pkg/tracing/annotation.go:23-30 | on annotations with no field set, the values the propagator reads back through the carrier are those it wrote, as if unprefixed |
| `Annotation.InjectThenExtract` | pkg/tracing/annotation.go:43-58 | a context stamped onto an object without one is resumed by extraction from its annotations, given a propagator that decodes its own encoding |
| `Annotation.ExtractWithoutContext` | pkg/tracing/annotation.go:43-53 | annotations with no field set give back the original context, given a propagator that finds nothing in empty values |
| `Annotation.SpanFromAnnotations` | pkg/tracing/annotation.go:43-49 | no span and the original context when nothing is decoded; otherwise a fresh span named name, parented on and in the trace of the decoded context |
| `Telemetry.Start` | pkg/tracing/annotation.go:48 | the started span is fresh, named as asked, a child of the context's span context, keeps its trace identifier, and is bound into the returned context |
| `Telemetry.SpanFromContext` | pkg/tracing/runtime_client.go:50 | the span found is the innermost binding of the context when it records, and none otherwise |
| `Logger.KeyOf` | pkg/tracing/logger.go:37-40 | a string key is kept, any other key becomes "non-string" |
| `Logger.PairsAt` | pkg/tracing/logger.go:34-44 | n values give n/2 attributes (an unpaired last value is dropped); attribute i has key from value 2i and value 2i+1 |
| `Logger.KeyValues` | pkg/tracing/logger.go:34-44 | the loop stepping by two builds exactly the reference pairing of the list |
| `Logger.KeyValuesExamples` | pkg/tracing/logger_test.go:17-19 | ("foo","foo-value","bar",42) gives [foo="foo-value", bar=42] in order and type; a non-string key and a dangling value behave as stated |
| `Logger.TracingLogger.Enabled` | pkg/tracing/logger.go:14-16 | answers what the wrapped logger answers for its level; the span plays no part |
| `Logger.TracingLogger.Info` | pkg/tracing/logger.go:18-21 | forwards the call unchanged, appends one event named msg with the pairing of the list, records no error, sets no attribute |
| `Logger.TracingLogger.Error` | pkg/tracing/logger.go:23-28 | forwards the call unchanged, appends one event named msg with error=msg then the pairing, and records err on the span |
| `Logger.TracingLogger.V` | pkg/tracing/logger.go:30-32 | the derived logger keeps the span and differs from the wrapped one only in level |
| `Logger.TracingLogger.WithValues` | pkg/tracing/logger.go:46-49 | the pairing of the list is added to the span's attributes, nothing else on the span changes, and the new logger keeps the span |
| `Logger.TracingLogger.WithName` | pkg/tracing/logger.go:51-54 | the attribute name=name is added to the span, and the new logger keeps the span |
| `RuntimeClient.ObjectAttrs` | pkg/tracing/runtime_client.go:39-47 | objectKind only when the kind is set, then objectKey namespace/name only when the accessor works, in that order and nothing else |
| `RuntimeClient.PatchAttrs` | pkg/tracing/runtime_client.go:106-113 | the object's attributes, then a patch attribute exactly when rendering the patch succeeds |
| `RuntimeClient.LogStart` | pkg/tracing/runtime_client.go:49-55 | returns the context's span and, when there is one, adds exactly one event op with the attributes and nothing else |
| `RuntimeClient.LogError` | pkg/tracing/runtime_client.go:57-62 | returns err unchanged, recording it on the span exactly when both are present |
| `RuntimeClient.TracingClient.BlankObjectAttrs` | pkg/tracing/runtime_client.go:70-78 | one objectKind per kind the scheme resolves, in its order; empty without a scheme |
| `RuntimeClient.TracingClient.Get` | pkg/tracing/runtime_client.go:80-83 | one event k8s.Get starting with objectKey then the scheme's kinds; the wrapped client's answer is returned and recorded unchanged |
| `RuntimeClient.TracingClient.List` | pkg/tracing/runtime_client.go:85-88 | one event k8s.List with the list type's kinds; the answer is returned and recorded unchanged |
| `RuntimeClient.TracingClient.Create` | pkg/tracing/runtime_client.go:90-94 | the object is stamped before the wrapped client is called, whatever that call answers, and a stamping error is ignored; one event k8s.Create; the answer is returned and recorded unchanged |
| `RuntimeClient.TracingClient.Delete` | pkg/tracing/runtime_client.go:96-99 | one event k8s.Delete with the object's attributes; the answer is returned and recorded unchanged |
| `RuntimeClient.TracingClient.Update` | pkg/tracing/runtime_client.go:101-104 | one event k8s.Update with the object's attributes; the answer is returned and recorded unchanged |
| `RuntimeClient.TracingClient.Patch` | pkg/tracing/runtime_client.go:106-113 | one event k8s.Patch with the object's attributes plus the payload when it renders; the answer is returned and recorded unchanged |
| `RuntimeClient.TracingClient.DeleteAllOf` | pkg/tracing/runtime_client.go:115-118 | one event k8s.DeleteAllOf with the type's kinds; the answer is returned and recorded unchanged |
| `RuntimeClient.TracingClient.Status` | pkg/tracing/runtime_client.go:120-122 | a new status-writer decorator over the same wrapped client |
| `RuntimeClient.TracingStatusWriter.Update` | pkg/tracing/runtime_client.go:128-131 | one event k8s.Status.Update with the object's attributes, no stamping; the answer is returned and recorded unchanged |
| `RuntimeClient.TracingStatusWriter.Patch` | pkg/tracing/runtime_client.go:133-140 | one event k8s.Status.Patch with the object's attributes plus the payload when it renders; the answer is returned and recorded unchanged |

## Findings

| source | as written | input that shows it | evidently intended | confidence | as-written member | corrected member |
|---|---|---|---|---|---|---|
| pkg/tracing/annotation.go:33-39 | `Keys()` returns every annotation key, prefix kept, unrelated annotations included, while `Get` and `Set` add the prefix | annotations `{"trace.kubernetes.io/traceparent": "00-4bf92f3577b34da6a3ce929d0e0e4736-00f067aa0ba902b7-01"}`: `Keys()` lists `trace.kubernetes.io/traceparent`, and `Get` of it looks up `trace.kubernetes.io/trace.kubernetes.io/traceparent` and returns "" | the carrier's keys are the prefixed entries with the prefix stripped, so that `Get` finds a value for each | medium; not executed (the W3C Trace Context propagator reads only through `Get`, so it is unaffected) | `Annotation.AnnotationsCarrier.Keys`, shown by `Annotation.KeysMissTraceEntries` | `Annotation.AnnotationsCarrier.TraceKeys` |

No other member of the model calls either `Keys` or `TraceKeys`: the
propagator is abstract and reads the carrier only through `Get`.

## Left out

- `pkg/tracing/otlp.go` and `pkg/tracing/jaeger.go` (exporter set-up, network, environment, global registration) are not part of this model; the propagator and tracer they register are passed explicitly instead.
- `tracingClientBuilder`, `WrapClientBuilder` and `Build` (runtime_client.go:18-37): thin wrappers over the upstream builder.
- The W3C Trace Context wire encoding: the propagator is abstract (its fields, the pairs its Inject writes, its decoding of the fields' values); round-trip lemmas take its own round trip as a hypothesis.
- Span identifiers are random in the tracer: `Telemetry.Start` takes the new identifiers as a parameter. Span end, timestamps, sampling and flags are not modelled, nor the "exception" event the span implementation adds when it records an error (recorded errors are kept as their own sequence).
- `Telemetry.SpanFromContext`: Go's lookup never returns nil (it returns a no-op span); the model returns null when the innermost binding does not record, which is observably the same since a no-op span records nothing. The `sp != nil` test of `logStart` is modelled on that null.
- `Context` is reduced to its chain of bound spans; cancellation, deadlines and other values are not modelled. `logError`'s unused context parameter is dropped.
- `Logger.TracingLogger.Enabled`: the wrapped logr logger is modelled as a sink that records the calls it receives and is enabled up to a verbosity; `V` adds to the level. logr's own output and level arithmetic are not modelled. The bridge's span is never nil (Go would panic on a nil span).
- `attribute.Any`'s dispatch is reduced to the four-way tagged union; other values are kept as an opaque rendering.
- `patch.Data`, `meta.Accessor` and `scheme.ObjectKinds` are foreign: a patch carries the outcome of rendering it, an object carries its accessor's outcome, a scheme is a function from type to kinds (its error is ignored as in the source). `GroupVersionKind.String` and `ObjectKey.String` are written out as apimachinery renders them.
- The wrapped client: it records requests and answers from its history; its effect on the objects and on the store, and the options passed through unchanged, are not modelled.
- `Annotation.AddTraceAnnotation`: a nil annotation map, on which Go's Set panics (annotation.go:29), is not modelled; the carrier always holds a map, and both in-package callers replace nil with a fresh map first (annotation.go:65-67, 83-84).
- Object annotations are a value: stamping works on a carrier over a copy and writes the result back. The Go map aliasing between an object and other holders of the same map, and the slice-element copies of the `range objs` loop, are not modelled; each object's annotations are updated.
- Concurrency: none is introduced by this layer; none is modelled.
