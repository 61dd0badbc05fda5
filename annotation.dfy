/**
 * Trace context carried in object annotations: a carrier over an annotation
 * map that keeps every key under a fixed prefix, extraction of a parent
 * context from annotations, and stamping of the current context into an
 * object's annotations with a guard against overwriting one already there.
 */
module Annotation {
  import opened Wrappers
  import opened Telemetry
  import opened Kube

  /** Where span contexts are kept among an object's annotations. */
  const TraceAnnotationPrefix: string := "trace.kubernetes.io/"

  /** What the carrier reads for `key` from annotations `m`: the prefixed entry, or "". */
  function Lookup(m: map<string, string>, key: string): string
  {
    if TraceAnnotationPrefix + key in m then m[TraceAnnotationPrefix + key] else ""
  }

  lemma PrefixInjective(a: string, b: string)
    ensures TraceAnnotationPrefix + a == TraceAnnotationPrefix + b <==> a == b
  {
    if TraceAnnotationPrefix + a == TraceAnnotationPrefix + b {
      assert a == (TraceAnnotationPrefix + a)[|TraceAnnotationPrefix|..];
      assert b == (TraceAnnotationPrefix + b)[|TraceAnnotationPrefix|..];
    }
  }

  /** Setting `key` changes what the carrier reads for `key` and for no other key. */
  lemma SetThenLookup(m: map<string, string>, key: string, value: string, other: string)
    ensures Lookup(m[TraceAnnotationPrefix + key := value], other)
            == if other == key then value else Lookup(m, other)
  {
    PrefixInjective(other, key);
  }

  /** An annotation map viewed as a text-map carrier; Set changes it in place. */
  class AnnotationsCarrier {
    var entries: map<string, string>

    constructor (entries: map<string, string>)
      ensures this.entries == entries
    {
      this.entries := entries;
    }

    function Get(key: string): (v: string)
      reads this
      ensures v != "" ==> TraceAnnotationPrefix + key in entries
      ensures TraceAnnotationPrefix + key in entries ==> v == entries[TraceAnnotationPrefix + key]
    {
      Lookup(entries, key)
    }

    method Set(key: string, value: string)
      modifies this
      ensures entries == old(entries)[TraceAnnotationPrefix + key := value]
      ensures Get(key) == value
    {
      entries := entries[TraceAnnotationPrefix + key := value];
    }

    /** Every key of the map, once each, prefixed or not and unstripped. */
    method Keys() returns (keys: seq<string>)
      ensures |keys| == |entries|
      ensures forall k :: k in keys <==> k in entries
      ensures forall i, j :: 0 <= i < j < |keys| ==> keys[i] != keys[j]
    {
      keys := [];
      var rest := entries.Keys;
      while rest != {}
        invariant rest <= entries.Keys
        invariant forall k :: k in keys <==> k in entries && k !in rest
        invariant forall i, j :: 0 <= i < j < |keys| ==> keys[i] != keys[j]
        invariant |keys| + |rest| == |entries|
        decreases rest
      {
        var k :| k in rest;
        keys := keys + [k];
        rest := rest - {k};
      }
    }

    /**
     * The carrier's own keys: the prefixed entries with the prefix stripped,
     * so that Get finds a stored value for each of them.
     */
    method TraceKeys() returns (keys: seq<string>)
      ensures forall k :: k in keys <==> TraceAnnotationPrefix + k in entries
      ensures forall k :: k in keys ==> Get(k) == entries[TraceAnnotationPrefix + k]
      ensures forall i, j :: 0 <= i < j < |keys| ==> keys[i] != keys[j]
    {
      keys := [];
      var rest := entries.Keys;
      while rest != {}
        invariant rest <= entries.Keys
        invariant forall k :: k in keys <==>
                    TraceAnnotationPrefix + k in entries && TraceAnnotationPrefix + k !in rest
        invariant forall i, j :: 0 <= i < j < |keys| ==> keys[i] != keys[j]
        decreases rest
      {
        var full :| full in rest;
        if TraceAnnotationPrefix <= full {
          var k := full[|TraceAnnotationPrefix|..];
          assert TraceAnnotationPrefix + k == full;
          forall k' | TraceAnnotationPrefix + k' == full ensures k' == k {
            PrefixInjective(k', k);
          }
          keys := keys + [k];
        } else {
          forall k' ensures TraceAnnotationPrefix + k' != full {
            assert TraceAnnotationPrefix <= TraceAnnotationPrefix + k';
          }
        }
        rest := rest - {full};
      }
    }
  }

  /**
   * Keys() hands the propagator keys under which Get finds nothing: for
   * annotations holding one trace entry, the one key listed reads back as "".
   */
  lemma KeysMissTraceEntries(m: map<string, string>, field: string, value: string)
    requires value != ""
    requires m == map[TraceAnnotationPrefix + field := value]
    ensures m.Keys == {TraceAnnotationPrefix + field}
    ensures Lookup(m, field) == value
    ensures Lookup(m, TraceAnnotationPrefix + field) == ""
  {
    var k := TraceAnnotationPrefix + field;
    assert |TraceAnnotationPrefix + k| != |k|;
  }

  // ----- Injection -----

  /** The annotations after writing `pairs` through the carrier, in order. */
  function Stamp(m: map<string, string>, pairs: seq<(string, string)>): map<string, string>
    decreases |pairs|
  {
    if pairs == [] then m
    else Stamp(m[TraceAnnotationPrefix + pairs[0].0 := pairs[0].1], pairs[1..])
  }

  /** The prefixed entries that writing `pairs` leaves behind; later writes win. */
  function Written(pairs: seq<(string, string)>): map<string, string>
    decreases |pairs|
  {
    if pairs == [] then map[]
    else map[TraceAnnotationPrefix + pairs[0].0 := pairs[0].1] + Written(pairs[1..])
  }

  /** The last value `pairs` give `key`, read without any carrier. */
  function LastValue(pairs: seq<(string, string)>, key: string): Option<string>
    decreases |pairs|
  {
    if pairs == [] then None
    else match LastValue(pairs[1..], key)
      case Some(v) => Some(v)
      case None => if pairs[0].0 == key then Some(pairs[0].1) else None
  }

  /** Writing through the carrier overlays the written entries on the map. */
  lemma {:induction false} StampIsOverlay(m: map<string, string>, pairs: seq<(string, string)>)
    ensures Stamp(m, pairs) == m + Written(pairs)
    decreases |pairs|
  {
    if pairs != [] {
      var k := TraceAnnotationPrefix + pairs[0].0;
      var m' := m[k := pairs[0].1];
      StampIsOverlay(m', pairs[1..]);
      assert m' + Written(pairs[1..]) == m + Written(pairs);
    }
  }

  /** Every written entry is prefixed, and holds the last value given to its key. */
  lemma {:induction false} WrittenLookup(pairs: seq<(string, string)>, key: string)
    ensures TraceAnnotationPrefix + key in Written(pairs) <==> LastValue(pairs, key).Some?
    ensures LastValue(pairs, key).Some? ==>
              Written(pairs)[TraceAnnotationPrefix + key] == LastValue(pairs, key).value
    ensures forall k :: k in Written(pairs) ==> TraceAnnotationPrefix <= k
    decreases |pairs|
  {
    if pairs != [] {
      WrittenLookup(pairs[1..], key);
      PrefixInjective(pairs[0].0, key);
    }
  }

  /** After writing `pairs`, the carrier reads the last value written, else what was there. */
  lemma StampLookup(m: map<string, string>, pairs: seq<(string, string)>, key: string)
    ensures Lookup(Stamp(m, pairs), key) == LastValue(pairs, key).GetOr(Lookup(m, key))
  {
    StampIsOverlay(m, pairs);
    WrittenLookup(pairs, key);
  }

  /** Annotations outside the trace prefix are never added, removed or changed. */
  lemma StampKeepsForeign(m: map<string, string>, pairs: seq<(string, string)>, k: string)
    requires !(TraceAnnotationPrefix <= k)
    ensures k in Stamp(m, pairs) <==> k in m
    ensures k in m ==> Stamp(m, pairs)[k] == m[k]
  {
    StampIsOverlay(m, pairs);
    WrittenLookup(pairs, "");
  }

  /** Writing the same pairs twice leaves what writing them once does. */
  lemma StampIdempotent(m: map<string, string>, pairs: seq<(string, string)>)
    ensures Stamp(Stamp(m, pairs), pairs) == Stamp(m, pairs)
  {
    StampIsOverlay(m, pairs);
    StampIsOverlay(m + Written(pairs), pairs);
    assert m + Written(pairs) + Written(pairs) == m + Written(pairs);
  }

  /** The propagator's Inject: each (key, value) it encodes for `ctx` is Set on the carrier, in order. */
  method AddTraceAnnotation(p: Propagator, ctx: Context, a: AnnotationsCarrier)
    modifies a
    ensures a.entries == Stamp(old(a.entries), p.encode(CurrentSpanContext(ctx)))
  {
    var pairs := p.encode(CurrentSpanContext(ctx));
    for i := 0 to |pairs|
      invariant Stamp(a.entries, pairs[i..]) == Stamp(old(a.entries), pairs)
    {
      assert pairs[i..][1..] == pairs[i + 1..];
      a.Set(pairs[i].0, pairs[i].1);
    }
    assert pairs[|pairs|..] == [];
  }

  /** Some propagator field already has a non-empty value in `m`. */
  predicate AnyFieldSet(fields: seq<string>, m: map<string, string>)
  {
    exists i :: 0 <= i < |fields| && Lookup(m, fields[i]) != ""
  }

  /** The non-overwrite guard: does any field already have a value? */
  method HasTraceContext(fields: seq<string>, a: AnnotationsCarrier) returns (found: bool)
    ensures found <==> AnyFieldSet(fields, a.entries)
  {
    for i := 0 to |fields|
      invariant forall j :: 0 <= j < i ==> Lookup(a.entries, fields[j]) == ""
    {
      if a.Get(fields[i]) != "" {
        return true;
      }
    }
    return false;
  }

  /**
   * The annotations stamping leaves on an object whose accessor works:
   * a nil map becomes a fresh stamped map, a map with any field set stays,
   * and any other map is stamped.
   */
  function StampObject(p: Propagator, sc: Option<SpanContext>, before: Option<map<string, string>>): map<string, string>
  {
    match before
    case None => Stamp(map[], p.encode(sc))
    case Some(m) => if AnyFieldSet(p.fields, m) then m else Stamp(m, p.encode(sc))
  }

  /** Stamps `obj` with `ctx` unless it already carries some trace context. */
  method AddTraceAnnotationToObject(p: Propagator, ctx: Context, obj: Object) returns (err: Option<Error>)
    modifies obj
    ensures err == obj.accessorError
    ensures err.Some? ==> obj.annotations == old(obj.annotations)
    ensures err.None? ==> obj.annotations == Some(StampObject(p, CurrentSpanContext(ctx), old(obj.annotations)))
  {
    if obj.accessorError.Some? {
      return obj.accessorError;
    }
    var a: AnnotationsCarrier;
    if obj.annotations.None? {
      a := new AnnotationsCarrier(map[]);
    } else {
      a := new AnnotationsCarrier(obj.annotations.value);
      var found := HasTraceContext(p.fields, a);
      if found {
        return None;
      }
    }
    AddTraceAnnotation(p, ctx, a);
    obj.annotations := Some(a.entries);
    return None;
  }

  /** Stamps every object in `objs`, with no guard; always succeeds. */
  method AddTraceAnnotationToUnstructured(p: Propagator, ctx: Context, objs: seq<Object>) returns (err: Option<Error>)
    modifies set o | o in objs
    ensures err == None
    ensures forall o :: o in objs ==>
              o.annotations == Some(Stamp(old(o.annotations).GetOr(map[]), p.encode(CurrentSpanContext(ctx))))
  {
    ghost var pairs := p.encode(CurrentSpanContext(ctx));
    for i := 0 to |objs|
      invariant forall o :: o in objs[..i] ==>
                  o.annotations == Some(Stamp(old(o.annotations).GetOr(map[]), pairs))
      invariant forall o :: o in objs && o !in objs[..i] ==> o.annotations == old(o.annotations)
    {
      var o := objs[i];
      var a := new AnnotationsCarrier(o.annotations.GetOr(map[]));
      AddTraceAnnotation(p, ctx, a);
      if o in objs[..i] {
        StampIdempotent(old(o.annotations).GetOr(map[]), pairs);
      }
      o.annotations := Some(a.entries);
      assert objs[..i + 1] == objs[..i] + [o];
    }
    assert objs[..|objs|] == objs;
    return None;
  }

  // ----- Properties of stamping -----

  /** Stamping twice with the same context changes nothing the second time. */
  lemma StampObjectIdempotent(p: Propagator, sc: Option<SpanContext>, before: Option<map<string, string>>)
    ensures StampObject(p, sc, Some(StampObject(p, sc, before))) == StampObject(p, sc, before)
  {
    match before
    case None => StampIdempotent(map[], p.encode(sc));
    case Some(m) => if !AnyFieldSet(p.fields, m) { StampIdempotent(m, p.encode(sc)); }
  }

  /**
   * At most one context per object: once a stamp has left a non-empty value
   * for some field, stamping again with any other context is a no-op.
   */
  lemma StampObjectNoReparent(p: Propagator, sc: Option<SpanContext>, sc': Option<SpanContext>,
                              before: Option<map<string, string>>, i: nat)
    requires i < |p.fields|
    requires LastValue(p.encode(sc), p.fields[i]).Some?
    requires LastValue(p.encode(sc), p.fields[i]).value != ""
    ensures StampObject(p, sc', Some(StampObject(p, sc, before))) == StampObject(p, sc, before)
  {
    var after := StampObject(p, sc, before);
    if before.None? || !AnyFieldSet(p.fields, before.value) {
      StampLookup(before.GetOr(map[]), p.encode(sc), p.fields[i]);
      assert Lookup(after, p.fields[i]) != "";
    }
    assert AnyFieldSet(p.fields, after);
  }

  /** Stamping never touches annotations outside the trace prefix. */
  lemma StampObjectKeepsForeign(p: Propagator, sc: Option<SpanContext>, before: Option<map<string, string>>, k: string)
    requires !(TraceAnnotationPrefix <= k)
    ensures before.None? ==> k !in StampObject(p, sc, before)
    ensures before.Some? ==> (k in StampObject(p, sc, before) <==> k in before.value)
    ensures before.Some? && k in before.value ==> StampObject(p, sc, before)[k] == before.value[k]
  {
    StampKeepsForeign(before.GetOr(map[]), p.encode(sc), k);
  }

  // ----- Extraction -----

  /** The carrier's values for `fields`, in order. */
  function CarrierValues(fields: seq<string>, m: map<string, string>): seq<string>
  {
    seq(|fields|, i requires 0 <= i < |fields| => Lookup(m, fields[i]))
  }

  /** The values `pairs` give `fields` when read directly, without a carrier. */
  function PlainValues(fields: seq<string>, pairs: seq<(string, string)>): seq<string>
  {
    seq(|fields|, i requires 0 <= i < |fields| => LastValue(pairs, fields[i]).GetOr(""))
  }

  /**
   * The propagator's Extract through the carrier: the context unchanged when
   * nothing is found, otherwise a child of it holding the remote parent.
   */
  function Extract(p: Propagator, ctx: Context, m: map<string, string>): (r: Context)
    ensures r == ctx <==> p.decode(CarrierValues(p.fields, m)).None?
    ensures r != ctx ==> r == WithSpan(ctx, NonRecording(p.decode(CarrierValues(p.fields, m)).value))
  {
    match p.decode(CarrierValues(p.fields, m))
    case None => ctx
    case Some(sc) => assert ctx < WithSpan(ctx, NonRecording(sc)); WithSpan(ctx, NonRecording(sc))
  }

  /** The prefix is invisible to the propagator: on a map without its fields it reads what it wrote. */
  lemma CarrierTransparent(fields: seq<string>, m: map<string, string>, pairs: seq<(string, string)>)
    requires !AnyFieldSet(fields, m)
    ensures CarrierValues(fields, Stamp(m, pairs)) == PlainValues(fields, pairs)
  {
    forall i | 0 <= i < |fields|
      ensures CarrierValues(fields, Stamp(m, pairs))[i] == PlainValues(fields, pairs)[i]
    {
      StampLookup(m, pairs, fields[i]);
    }
  }

  /**
   * Round trip: a context stamped onto an object without one is what a later
   * extraction from its annotations resumes, provided the propagator
   * decodes its own encoding.
   */
  lemma InjectThenExtract(p: Propagator, ctx: Context, sc: SpanContext, before: Option<map<string, string>>)
    requires before.Some? ==> !AnyFieldSet(p.fields, before.value)
    requires p.decode(PlainValues(p.fields, p.encode(Some(sc)))) == Some(sc)
    ensures Extract(p, ctx, StampObject(p, Some(sc), before)) == WithSpan(ctx, NonRecording(sc))
    ensures CurrentSpanContext(Extract(p, ctx, StampObject(p, Some(sc), before))) == Some(sc)
  {
    var m := before.GetOr(map[]);
    CarrierTransparent(p.fields, m, p.encode(Some(sc)));
  }

  /** Annotations with no field set give back the original context, when the propagator finds nothing in empty values. */
  lemma ExtractWithoutContext(p: Propagator, ctx: Context, m: map<string, string>)
    requires !AnyFieldSet(p.fields, m)
    requires p.decode(seq(|p.fields|, _ => "")) == None
    ensures Extract(p, ctx, m) == ctx
  {
    assert CarrierValues(p.fields, m) == seq(|p.fields|, _ => "");
  }

  /**
   * Resumes a trace from annotations: no span when extraction finds nothing,
   * otherwise a fresh span named `name`, child of the extracted parent.
   */
  method SpanFromAnnotations(p: Propagator, ctx: Context, name: string, annotations: map<string, string>,
                             ids: SpanContext) returns (ctx': Context, sp: Span?)
    ensures p.decode(CarrierValues(p.fields, annotations)).None? ==> ctx' == ctx && sp == null
    ensures p.decode(CarrierValues(p.fields, annotations)).Some? ==>
              && sp != null && fresh(sp) && sp.name == name
              && sp.parent == p.decode(CarrierValues(p.fields, annotations))
              && sp.context.traceId == p.decode(CarrierValues(p.fields, annotations)).value.traceId
              && ctx' == WithSpan(Extract(p, ctx, annotations), Recording(sp))
  {
    var innerCtx := Extract(p, ctx, annotations);
    if innerCtx == ctx {
      return ctx, null;
    }
    ctx', sp := Start(innerCtx, name, ids);
  }
}
