// The parts of a Kubernetes object, and of the cluster client, that the resource helpers
// read and write. Client calls are not performed: their outcome is supplied by the caller.

module Kube {
  import opened Wrappers
  import opened Errors

  /**
   * An object's identity and the metadata the helpers touch. A nil annotation map
   * is None, which Go tells apart from an empty map.
   */
  class Object {
    var namespace: string
    var name: string
    var group: string
    var version: string
    var kind: string
    var resourceVersion: string
    var finalizers: seq<string>
    var annotations: Option<map<string, string>>

    constructor (group: string, version: string, kind: string)
      ensures this.group == group && this.version == version && this.kind == kind
      ensures namespace == "" && name == "" && resourceVersion == ""
      ensures finalizers == [] && annotations == None
    {
      this.group, this.version, this.kind := group, version, kind;
      namespace, name, resourceVersion := "", "", "";
      finalizers := [];
      annotations := None;
    }
  }

  /** What a cluster call (Get, Create, Update) reported. */
  datatype ClientResult = Done | NotFound(message: string) | Failed(message: string)

  /** The error a cluster call returns: nil on success, its message otherwise. */
  function ClientError(c: ClientResult): (e: Reason)
    ensures e == Nil <==> c.Done?
  {
    match c
    case Done => Nil
    case NotFound(m) => Plain(m)
    case Failed(m) => Plain(m)
  }

  /** The cluster calls a resource object makes, logged in call order. */
  datatype Call = Get | Create | Update
}
