// A mutable resource object: a resource object that also tracks, through its template
// hash, whether the expected object differs from the cluster's copy.

module MutableObjects {
  import opened Errors
  import opened Wrappers
  import Kube
  import Hash
  import RO = ResourceObjects

  const PresumedNotCreatedMessage: string := "Peer is presumed not yet created:"

  class MutableResourceObject {
    const res: RO.ResourceObject
    /** The object must be written to the cluster; set by a detected change, cleared by an update. */
    var needResync: bool
    /** Whether the last UpdateSyncStatus detected a change. */
    var lastSyncState: bool

    constructor (res: RO.ResourceObject)
      ensures this.res == res && !needResync && !lastSyncState
    {
      this.res := res;
      needResync, lastSyncState := false, false;
    }

    /**
     * UpdateSyncStatus: refresh the hash annotation from the template; a change sets
     * lastSyncState and needResync, and needResync is never cleared here.
     * The object always has object metadata, so the error is always nil.
     */
    method UpdateSyncStatus(ref: Hash.Template) returns (err: Reason)
      modifies this`needResync, this`lastSyncState, res.obj`annotations
      ensures err == Nil
      ensures res.obj.annotations == Some(Hash.Regenerated(old(res.obj.annotations), ref))
      ensures lastSyncState <==> Hash.GetTemplateHashAnnotation(old(res.obj.annotations)) != Hash.Compute(ref)
      ensures needResync == (old(needResync) || lastSyncState)
    {
      lastSyncState, err := Hash.GenerateNew(res.obj, ref);
      if err != Nil {
        return;
      }
      if lastSyncState {
        needResync := true;
      }
    }

    predicate NeedResync()
      reads this
    {
      needResync
    }

    predicate LastSyncState()
      reads this
    {
      lastSyncState
    }

    /** UpdatePeer: an object not yet created cannot be updated; a successful update clears needResync. */
    method UpdatePeer(update: Kube.ClientResult) returns (err: Reason)
      modifies this`needResync, res`calls
      ensures res.createObj ==> err == Plain(PresumedNotCreatedMessage + res.Index())
      ensures res.createObj ==> needResync == old(needResync) && res.calls == old(res.calls)
      ensures !res.createObj ==> res.calls == old(res.calls) + [Kube.Update] && err == Kube.ClientError(update)
      ensures !res.createObj ==> needResync == (old(needResync) && !update.Done?)
    {
      if res.IsCreation() {
        return Plain(PresumedNotCreatedMessage + res.Index());
      }
      res.calls := res.calls + [Kube.Update];
      err := Kube.ClientError(update);
      if err != Nil {
        return;
      }
      needResync := false;
    }
  }
}
