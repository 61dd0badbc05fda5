/**
 * The Kubernetes object model the tracing layer reads and stamps, reduced to
 * what it uses: a type identity, a namespace/name pair, and an annotation map.
 */
module Kube {
  import opened Wrappers
  import opened Telemetry

  /** A group/version/kind triple. */
  datatype GroupVersionKind = GroupVersionKind(group: string, version: string, kind: string) {

    /** True when no part is set, as for a typed object whose type meta is blank. */
    predicate Empty() {
      |group| == 0 && |version| == 0 && |kind| == 0
    }

    /** The apimachinery rendering "group/version, Kind=kind". */
    function String(): string {
      group + "/" + version + ", Kind=" + kind
    }
  }

  /** A namespaced name, the key a Get looks up. */
  datatype ObjectKey = ObjectKey(namespace: string, name: string) {

    /** The rendering "namespace/name". */
    function String(): string {
      namespace + "/" + name
    }
  }

  /**
   * An object passed to the client. `goType` and `gvk` are what a scheme
   * resolves kinds from; `accessorError` is what the metadata accessor
   * reports for it (none for every object that exposes object metadata);
   * `annotations` is its annotation map, None for a nil map.
   */
  class Object {
    const goType: string
    const gvk: GroupVersionKind
    const namespace: string
    const name: string
    const accessorError: Option<Error>
    var annotations: Option<map<string, string>>

    constructor (goType: string, gvk: GroupVersionKind, namespace: string, name: string,
                 accessorError: Option<Error>, annotations: Option<map<string, string>>)
      ensures this.goType == goType && this.gvk == gvk
      ensures this.namespace == namespace && this.name == name
      ensures this.accessorError == accessorError && this.annotations == annotations
    {
      this.goType := goType;
      this.gvk := gvk;
      this.namespace := namespace;
      this.name := name;
      this.accessorError := accessorError;
      this.annotations := annotations;
    }
  }

  /** A list object passed to List: only its type matters here. */
  datatype ObjectList = ObjectList(goType: string, gvk: GroupVersionKind)

  /**
   * A patch. `data` is what rendering it against its target object yields:
   * the payload, or None when rendering fails.
   */
  datatype Patch = Patch(patchType: string, data: Option<string>)

  /** A type registry: the kinds it knows for an object's type. */
  datatype Scheme = Scheme(objectKinds: (string, GroupVersionKind) -> seq<GroupVersionKind>)
}
