/**
 * The instrumented client: a decorator over a resource client that adds one
 * event per operation to the span of the caller's context, records the
 * operation's error there, and stamps created objects with the creator's
 * trace context.
 */
module RuntimeClient {
  import opened Wrappers
  import opened Telemetry
  import opened Kube
  import Annotation

  /** The attribute naming one kind. */
  function KindAttr(gvk: GroupVersionKind): KeyValue
  {
    KeyValue("objectKind", StringValue(gvk.String()))
  }

  /** The attribute naming an object by its namespaced name. */
  function KeyAttr(namespace: string, name: string): KeyValue
  {
    KeyValue("objectKey", StringValue(namespace + "/" + name))
  }

  /**
   * Attributes of a single object: its kind when its kind is set, then its
   * key when its metadata can be read.
   */
  function ObjectAttrs(obj: Object): (attrs: seq<KeyValue>)
    ensures |attrs| == (if obj.gvk.Empty() then 0 else 1) + (if obj.accessorError.None? then 1 else 0)
    ensures !obj.gvk.Empty() ==> attrs[0] == KindAttr(obj.gvk)
    ensures obj.accessorError.None? ==> attrs[|attrs| - 1] == KeyAttr(obj.namespace, obj.name)
    ensures forall a :: a in attrs ==> a.key == "objectKind" || a.key == "objectKey"
  {
    var kind := if obj.gvk.Empty() then [] else [KindAttr(obj.gvk)];
    var key := if obj.accessorError.None? then [KeyAttr(obj.namespace, obj.name)] else [];
    kind + key
  }

  /** Attributes of a patched object: its own, then the payload when rendering it succeeds. */
  function PatchAttrs(obj: Object, patch: Patch): (attrs: seq<KeyValue>)
    ensures |attrs| == |ObjectAttrs(obj)| + (if patch.data.Some? then 1 else 0)
    ensures attrs[..|ObjectAttrs(obj)|] == ObjectAttrs(obj)
    ensures patch.data.Some? ==> attrs[|attrs| - 1] == KeyValue("patch", StringValue(patch.data.value))
  {
    var attrs := ObjectAttrs(obj);
    if patch.data.Some? then attrs + [KeyValue("patch", StringValue(patch.data.value))] else attrs
  }

  /** The kinds a scheme knows for a type; none without a scheme. */
  function SchemeKinds(scheme: Option<Scheme>, goType: string, gvk: GroupVersionKind): seq<GroupVersionKind>
  {
    if scheme.None? then [] else scheme.value.objectKinds(goType, gvk)
  }

  /** One kind attribute per kind the scheme knows, in the scheme's order. */
  function BlankAttrs(scheme: Option<Scheme>, goType: string, gvk: GroupVersionKind): seq<KeyValue>
  {
    var kinds := SchemeKinds(scheme, goType, gvk);
    seq(|kinds|, i requires 0 <= i < |kinds| => KindAttr(kinds[i]))
  }

  /** A request as the wrapped client receives it; a create carries the annotations it is sent with. */
  datatype Request =
    | GetRequest(key: ObjectKey, obj: Object)
    | ListRequest(list: ObjectList)
    | CreateRequest(obj: Object, annotations: Option<map<string, string>>)
    | DeleteRequest(obj: Object)
    | UpdateRequest(obj: Object)
    | PatchRequest(obj: Object, patch: Patch)
    | DeleteAllOfRequest(obj: Object)
    | StatusUpdateRequest(obj: Object)
    | StatusPatchRequest(obj: Object, patch: Patch)

  /**
   * The wrapped client and its status writer: it records each request and
   * answers with an error or none, as a function of what it was asked before.
   */
  class Delegate {
    var received: seq<Request>
    const respond: (seq<Request>, Request) -> Option<Error>

    constructor (respond: (seq<Request>, Request) -> Option<Error>)
      ensures received == [] && this.respond == respond
    {
      received := [];
      this.respond := respond;
    }

    method Call(req: Request) returns (err: Option<Error>)
      modifies this
      ensures received == old(received) + [req]
      ensures err == respond(old(received), req)
    {
      err := respond(received, req);
      received := received + [req];
    }
  }

  /** The wrapped client received `req` and `err` is exactly its answer. */
  twostate predicate Delegated(inner: Delegate, new req: Request, new err: Option<Error>)
    reads inner
  {
    && inner.received == old(inner.received) + [req]
    && err == inner.respond(old(inner.received), req)
  }

  /**
   * The span of `ctx`, if it records, gained exactly the event `op` with
   * `attrs`, then `err` as a recorded error, and nothing else.
   */
  twostate predicate Traced(ctx: Context, op: string, attrs: seq<KeyValue>, new err: Option<Error>)
    reads SpanFrame(ctx)
  {
    var sp := SpanFromContext(ctx);
    sp != null ==>
      && sp.events == old(sp.events) + [Event(op, attrs)]
      && sp.attributes == old(sp.attributes)
      && sp.errors == old(sp.errors) + Recorded(err)
  }

  /** Adds the event `op` to the span of `ctx`, when there is one that records. */
  method LogStart(ctx: Context, op: string, attrs: seq<KeyValue>) returns (sp: Span?)
    modifies SpanFrame(ctx)
    ensures sp == SpanFromContext(ctx)
    ensures sp != null ==> && sp.events == old(sp.events) + [Event(op, attrs)]
                           && sp.attributes == old(sp.attributes) && sp.errors == old(sp.errors)
  {
    sp := SpanFromContext(ctx);
    if sp != null {
      sp.AddEvent(op, attrs);
    }
  }

  /** Records `err` on `sp` when both are present, and hands `err` back unchanged. */
  method LogError(sp: Span?, err: Option<Error>) returns (r: Option<Error>)
    modifies if sp == null then {} else {sp}
    ensures r == err
    ensures sp != null ==> && sp.errors == old(sp.errors) + Recorded(err)
                           && sp.events == old(sp.events) && sp.attributes == old(sp.attributes)
  {
    if sp != null && err.Some? {
      sp.RecordError(err);
    }
    return err;
  }

  /** The client decorator. */
  class TracingClient {
    const inner: Delegate
    const scheme: Option<Scheme>
    const propagator: Propagator

    constructor (inner: Delegate, scheme: Option<Scheme>, propagator: Propagator)
      ensures this.inner == inner && this.scheme == scheme && this.propagator == propagator
    {
      this.inner := inner;
      this.scheme := scheme;
      this.propagator := propagator;
    }

    /** One kind attribute per kind the scheme resolves for the type; none without a scheme. */
    method BlankObjectAttrs(goType: string, gvk: GroupVersionKind) returns (attrs: seq<KeyValue>)
      ensures scheme.None? ==> attrs == []
      ensures |attrs| == |SchemeKinds(scheme, goType, gvk)|
      ensures forall i :: 0 <= i < |attrs| ==> attrs[i] == KindAttr(SchemeKinds(scheme, goType, gvk)[i])
      ensures attrs == BlankAttrs(scheme, goType, gvk)
    {
      attrs := [];
      if scheme.Some? {
        var gvks := scheme.value.objectKinds(goType, gvk);
        for i := 0 to |gvks|
          invariant |attrs| == i
          invariant forall j :: 0 <= j < i ==> attrs[j] == KindAttr(gvks[j])
        {
          attrs := attrs + [KindAttr(gvks[i])];
        }
      }
    }

    method Get(ctx: Context, key: ObjectKey, obj: Object) returns (err: Option<Error>)
      modifies inner, SpanFrame(ctx)
      ensures Delegated(inner, GetRequest(key, obj), err)
      ensures Traced(ctx, "k8s.Get",
                     [KeyValue("objectKey", StringValue(key.String()))] + BlankAttrs(scheme, obj.goType, obj.gvk), err)
    {
      var blank := BlankObjectAttrs(obj.goType, obj.gvk);
      var sp := LogStart(ctx, "k8s.Get", [KeyValue("objectKey", StringValue(key.String()))] + blank);
      var result := inner.Call(GetRequest(key, obj));
      err := LogError(sp, result);
    }

    method List(ctx: Context, list: ObjectList) returns (err: Option<Error>)
      modifies inner, SpanFrame(ctx)
      ensures Delegated(inner, ListRequest(list), err)
      ensures Traced(ctx, "k8s.List", BlankAttrs(scheme, list.goType, list.gvk), err)
    {
      var blank := BlankObjectAttrs(list.goType, list.gvk);
      var sp := LogStart(ctx, "k8s.List", blank);
      var result := inner.Call(ListRequest(list));
      err := LogError(sp, result);
    }

    /**
     * Stamps the object first, ignoring a stamping error, so the wrapped
     * client is sent the stamped annotations whether or not it then fails.
     */
    method Create(ctx: Context, obj: Object) returns (err: Option<Error>)
      modifies obj, inner, SpanFrame(ctx)
      ensures obj.accessorError.Some? ==> obj.annotations == old(obj.annotations)
      ensures obj.accessorError.None? ==>
                obj.annotations == Some(Annotation.StampObject(propagator, CurrentSpanContext(ctx), old(obj.annotations)))
      ensures Delegated(inner, CreateRequest(obj, obj.annotations), err)
      ensures Traced(ctx, "k8s.Create", BlankAttrs(scheme, obj.goType, obj.gvk), err)
    {
      var stampErr := Annotation.AddTraceAnnotationToObject(propagator, ctx, obj);
      var blank := BlankObjectAttrs(obj.goType, obj.gvk);
      var sp := LogStart(ctx, "k8s.Create", blank);
      var result := inner.Call(CreateRequest(obj, obj.annotations));
      err := LogError(sp, result);
    }

    method Delete(ctx: Context, obj: Object) returns (err: Option<Error>)
      modifies inner, SpanFrame(ctx)
      ensures Delegated(inner, DeleteRequest(obj), err)
      ensures Traced(ctx, "k8s.Delete", ObjectAttrs(obj), err)
    {
      var sp := LogStart(ctx, "k8s.Delete", ObjectAttrs(obj));
      var result := inner.Call(DeleteRequest(obj));
      err := LogError(sp, result);
    }

    method Update(ctx: Context, obj: Object) returns (err: Option<Error>)
      modifies inner, SpanFrame(ctx)
      ensures Delegated(inner, UpdateRequest(obj), err)
      ensures Traced(ctx, "k8s.Update", ObjectAttrs(obj), err)
    {
      var sp := LogStart(ctx, "k8s.Update", ObjectAttrs(obj));
      var result := inner.Call(UpdateRequest(obj));
      err := LogError(sp, result);
    }

    method Patch(ctx: Context, obj: Object, patch: Kube.Patch) returns (err: Option<Error>)
      modifies inner, SpanFrame(ctx)
      ensures Delegated(inner, PatchRequest(obj, patch), err)
      ensures Traced(ctx, "k8s.Patch", PatchAttrs(obj, patch), err)
    {
      var attrs := ObjectAttrs(obj);
      if patch.data.Some? {
        attrs := attrs + [KeyValue("patch", StringValue(patch.data.value))];
      }
      var sp := LogStart(ctx, "k8s.Patch", attrs);
      var result := inner.Call(PatchRequest(obj, patch));
      err := LogError(sp, result);
    }

    method DeleteAllOf(ctx: Context, obj: Object) returns (err: Option<Error>)
      modifies inner, SpanFrame(ctx)
      ensures Delegated(inner, DeleteAllOfRequest(obj), err)
      ensures Traced(ctx, "k8s.DeleteAllOf", BlankAttrs(scheme, obj.goType, obj.gvk), err)
    {
      var blank := BlankObjectAttrs(obj.goType, obj.gvk);
      var sp := LogStart(ctx, "k8s.DeleteAllOf", blank);
      var result := inner.Call(DeleteAllOfRequest(obj));
      err := LogError(sp, result);
    }

    /** The status writer, decorated the same way over the wrapped client's. */
    method Status() returns (w: TracingStatusWriter)
      ensures fresh(w) && w.inner == inner
    {
      w := new TracingStatusWriter(inner);
    }
  }

  /** The status-writer decorator: no stamping, attributes of the object itself. */
  class TracingStatusWriter {
    const inner: Delegate

    constructor (inner: Delegate)
      ensures this.inner == inner
    {
      this.inner := inner;
    }

    method Update(ctx: Context, obj: Object) returns (err: Option<Error>)
      modifies inner, SpanFrame(ctx)
      ensures Delegated(inner, StatusUpdateRequest(obj), err)
      ensures Traced(ctx, "k8s.Status.Update", ObjectAttrs(obj), err)
    {
      var sp := LogStart(ctx, "k8s.Status.Update", ObjectAttrs(obj));
      var result := inner.Call(StatusUpdateRequest(obj));
      err := LogError(sp, result);
    }

    method Patch(ctx: Context, obj: Object, patch: Kube.Patch) returns (err: Option<Error>)
      modifies inner, SpanFrame(ctx)
      ensures Delegated(inner, StatusPatchRequest(obj, patch), err)
      ensures Traced(ctx, "k8s.Status.Patch", PatchAttrs(obj, patch), err)
    {
      var attrs := ObjectAttrs(obj);
      if patch.data.Some? {
        attrs := attrs + [KeyValue("patch", StringValue(patch.data.value))];
      }
      var sp := LogStart(ctx, "k8s.Status.Patch", attrs);
      var result := inner.Call(StatusPatchRequest(obj, patch));
      err := LogError(sp, result);
    }
  }
}
