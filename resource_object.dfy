// A resource object: a Kubernetes object with its NGVK key, whether it still has to be
// created on the cluster, and whether it names its owner in its metadata.

module ResourceObjects {
  import opened Errors
  import Kube
  import Ngvk
  import Hash

  const DiscrepancyMessage: string := "Discrepancy in object name and/or object namespace: "
  const PresumedExistingMessage: string := "Peer is presumed yet existing on its end:"

  /** checkKeys on the key built from the object: the recorded namespaced name must still be its own. */
  function KeyCheck(sKey: string, newKey: Ngvk.NGVK): (e: Reason)
    ensures e == Nil <==> sKey == newKey.key.String()
  {
    if sKey != newKey.key.String() then Plain(DiscrepancyMessage + sKey + "<-VS->" + newKey.String()) else Nil
  }

  /** checkKeys: the recorded namespaced name must still be the object's own. */
  function CheckKeys(sKey: string, newObj: Kube.Object): (e: Reason)
    reads newObj`namespace, newObj`name, newObj`group, newObj`version, newObj`kind
    ensures e == Nil <==> sKey == Ngvk.New(newObj).key.String()
  {
    KeyCheck(sKey, Ngvk.New(newObj))
  }

  /** For separator-free namespaces, the check passes exactly when the key names the recorded namespaced name. */
  lemma KeyCheckMeaning(recorded: Ngvk.NamespacedName, newKey: Ngvk.NGVK)
    requires Ngvk.NoSeparator(recorded.namespace) && Ngvk.NoSeparator(newKey.key.namespace)
    ensures KeyCheck(recorded.String(), newKey) == Nil <==> newKey.key == recorded
  {
    Ngvk.NamespacedNameStringInjective(recorded, newKey.key);
  }

  class ResourceObject {
    const obj: Kube.Object
    /** The key computed when the object was initialised. */
    const key: Ngvk.NGVK
    var enableOwnerReference: bool
    /** The object does not exist on the cluster yet. */
    var createObj: bool
    /** The cluster calls made on behalf of this object. */
    ghost var calls: seq<Kube.Call>

    /** Init: name the object, key it, and let it carry its owner reference. */
    constructor Init(obj: Kube.Object, namespace: string, name: string)
      modifies obj`namespace, obj`name
      ensures this.obj == obj && obj.namespace == namespace && obj.name == name
      ensures key == Ngvk.New(obj)
      ensures enableOwnerReference && !createObj && calls == []
    {
      this.obj := obj;
      obj.namespace := namespace;
      obj.name := name;
      key := Ngvk.New(obj);
      enableOwnerReference := true;
      createObj := false;
      calls := [];
    }

    function Index(): string {
      key.String()
    }

    function KindName(): string {
      key.KN()
    }

    function NamespacedName(): Ngvk.NamespacedName {
      key.key
    }

    predicate IsCreation()
      reads this
    {
      createObj
    }

    /**
     * SetOwnerReference: nothing to do when owner references are disabled; otherwise the
     * owner must have object metadata (null stands for one without), and the outcome
     * of setting the controller reference is passed on.
     */
    method SetOwnerReference(owner: Kube.Object?, setControllerReference: Reason) returns (err: Reason)
      ensures !enableOwnerReference ==> err == Nil
      ensures enableOwnerReference && owner == null ==> err == Plain(Hash.NoMetadataMessage)
      ensures enableOwnerReference && owner != null ==> err == setControllerReference
    {
      if !enableOwnerReference {
        return Nil;
      }
      if owner == null {
        return Plain(Hash.NoMetadataMessage);
      }
      return setControllerReference;
    }

    /**
     * SyncFromPeer: once known to be missing, nothing is asked again; otherwise Get
     * tells whether the object exists, and only "not found" marks it for creation.
     */
    method SyncFromPeer(get: Kube.ClientResult) returns (err: Reason)
      modifies this`createObj, this`calls
      ensures old(createObj) ==> err == Nil && createObj && calls == old(calls)
      ensures !old(createObj) ==> calls == old(calls) + [Kube.Get]
      ensures !old(createObj) ==> (createObj <==> get.NotFound?)
      ensures !old(createObj) ==> err == if get.Failed? then Plain(get.message) else Nil
    {
      if createObj {
        return Nil;
      }
      calls := calls + [Kube.Get];
      if !get.Done? {
        if !get.NotFound? {
          return Kube.ClientError(get);
        }
        createObj := true;
      }
      return Nil;
    }

    /** CreatePeer: only an object still to create is created, and marked created on success. */
    method CreatePeer(create: Kube.ClientResult) returns (err: Reason)
      modifies this`createObj, this`calls
      ensures !old(createObj) ==> err == Plain(PresumedExistingMessage + Index()) && !createObj && calls == old(calls)
      ensures old(createObj) ==> calls == old(calls) + [Kube.Create]
      ensures old(createObj) ==> err == Kube.ClientError(create) && (createObj <==> !create.Done?)
    {
      if !createObj {
        return Plain(PresumedExistingMessage + Index());
      }
      calls := calls + [Kube.Create];
      err := Kube.ClientError(create);
      if err != Nil {
        return;
      }
      createObj := false;
    }

    /** CheckExpectedKey: the object must still have the namespaced name it was keyed with. */
    function CheckExpectedKey(): (e: Reason)
      reads obj`namespace, obj`name, obj`group, obj`version, obj`kind
    {
      CheckKeys(key.key.String(), obj)
    }

    /** For separator-free namespaces, the check fails exactly when the object was renamed or moved. */
    lemma CheckExpectedKeyMeaning()
      requires Ngvk.NoSeparator(key.key.namespace) && Ngvk.NoSeparator(obj.namespace)
      ensures CheckExpectedKey() == Nil <==> key.key == Ngvk.NamespacedName(obj.namespace, obj.name)
    {
      KeyCheckMeaning(key.key, Ngvk.New(obj));
    }
  }
}
