/** controllers/pvc_controller.go. */
module PVCController {
  import opened Conditions
  import opened SpecRewriting
  import opened Kube
  import opened Utils
  import opened Client

  /** What the branch that applies the finalizer Job asks of the server. */
  datatype JobRequest = NoRequest(ret: Return) | CreateIt(meta: Meta, body: JobBody) | UpdateIt(job: Job)

  function FinalizerJobOwner(k: Key, b: Binding): Owner {
    Owner(BindingKind, k.name, b.meta.uid)
  }

  /** got is the table of Jobs as CreateOrUpdate finds it, later than the list in v. */
  function JobRequestOf(v: Objects, got: Table<JobBody>, k: Key, b: Binding): JobRequest {
    if JobsOwnedBy(v.jobs, k.name) != {} then NoRequest(Requeue)
    else if b.meta.owner.None? then NoRequest(Errored)
    else
      var fk := Key("", b.meta.owner.value.name);
      if fk !in v.fluentPVCs then NoRequest(Errored)
      else
        var spec, owner := FinalizerJobSpec(v.fluentPVCs[fk].body, k.name), Some(FinalizerJobOwner(k, b));
        if k !in got then CreateIt(NewMeta({}, owner), JobBody(spec, NO_UID, []))
        else
          var j := got[k];
          if CanControl(j.meta.owner, BindingKind, k.name) then
            UpdateIt(j.(meta := j.meta.(owner := owner), body := j.body.(spec := spec, selector := NO_UID)))
          else NoRequest(Errored)
  }

  function SendJob(s: Store, k: Key, r: JobRequest): (Store, Answer<JobBody>)
    requires !r.NoRequest?
  {
    match r
    case CreateIt(m, body) => CreateJob(s, k, m, body)
    case UpdateIt(j) => UpdateJob(s, k, j)
  }

  function Unprotected(pvc: PVC): PVC {
    pvc.(meta := pvc.meta.(finalizers := pvc.meta.finalizers - {PVCProtection}))
  }

  /** Remove pvc-protection, then delete the version that answer described. */
  function Release(s: Store, k: Key, pvc: PVC, onConflict: Return): (Store, Return) {
    match UpdatePVC(s, k, Unprotected(pvc))
    case (s1, Ok(p)) => FinishRelease(s1, k, p.meta)
    case (s1, Err(NotFound)) => FinishRelease(s1, k, pvc.meta)
    case (s1, Err(Conflict)) => (s1, onConflict)
    case (s1, Err(_)) => (s1, Errored)
  }

  function FinishRelease(s: Store, k: Key, based: Meta): (Store, Return) {
    match DeletePVC(s, k, based)
    case (s1, Ok(_)) => (s1, Finished)
    case (s1, Err(NotFound)) => (s1, Finished)
    case (s1, Err(_)) => (s1, Errored)
  }

  /** The PVC the reads show at k is the one bound by the binding of the same key. */
  predicate Bound(v: Objects, k: Key) {
    k in v.pvcs && k in v.bindings && v.pvcs[k].meta.uid == v.bindings[k].body.pvc.uid
  }

  /** The reads let the reconcile apply a Job. */
  predicate MayApply(v: Objects, k: Key) {
    Bound(v, k) &&
    var b := v.bindings[k];
    !Is(b, PodMissing) && !Is(b, Unknown) && Is(b, OutOfUse) && !Is(b, FinalizerJobApplied)
  }

  /** The reads let the reconcile give the PVC up. */
  predicate MayRelease(v: Objects, k: Key) {
    Bound(v, k) &&
    var b := v.bindings[k];
    Is(b, PodMissing) || (!Is(b, Unknown) && Is(b, OutOfUse) && Is(b, FinalizerJobSucceeded) && !Is(b, FinalizerJobFailed))
  }

  function Reconciled(s: Store, v: Objects, got: Table<JobBody>, k: Key): (Store, Return) {
    if k !in v.pvcs || k !in v.bindings then (s, Requeue)
    else
      var pvc, b := v.pvcs[k], v.bindings[k];
      if !Bound(v, k) then (s, Finished)
      else if Is(b, PodMissing) then Release(s, k, pvc, Finished)
      else if Is(b, Unknown) then (s, Finished)
      else if !Is(b, OutOfUse) then (s, Requeue)
      else if MayApply(v, k) then
        var r := JobRequestOf(v, got, k, b);
        if r.NoRequest? then (s, r.ret)
        else match SendJob(s, k, r)
          case (s1, Ok(_)) => Finish(s1, v, k, pvc)
          case (s1, Err(_)) => (s1, Errored)
      else Finish(s, v, k, pvc)
  }

  function Finish(s: Store, v: Objects, k: Key, pvc: PVC): (Store, Return) {
    if MayRelease(v, k) then Release(s, k, pvc, Requeue) else (s, Requeue)
  }

  class PVCReconciler {
    const client: ApiClient

    constructor (c: ApiClient)
      ensures client == c
    {
      client := c;
    }

    /** got is the table of Jobs in the cache by the time CreateOrUpdate reads it. */
    method Reconcile(k: Key, got: Table<JobBody>) returns (ret: Return)
      modifies client`server
      ensures (client.server, ret) == Reconciled(old(client.server), client.cache, got, k)
    {
      if k !in client.cache.pvcs {
        return Requeue;
      }
      var pvc := client.cache.pvcs[k];
      if k !in client.cache.bindings {
        return Requeue;
      }
      var b := client.cache.bindings[k];
      if pvc.meta.uid != b.body.pvc.uid {
        return Finished;
      }
      if Is(b, PodMissing) {
        ret := RemoveAndDelete(k, pvc, Finished);
        return;
      }
      if Is(b, Unknown) {
        return Finished;
      }
      if !Is(b, OutOfUse) {
        return Requeue;
      }
      if !Is(b, FinalizerJobApplied) {
        var goOn;
        goOn, ret := ApplyJob(k, b, got);
        if !goOn {
          return;
        }
      }
      if !Is(b, FinalizerJobSucceeded) && !Is(b, FinalizerJobFailed) {
        return Requeue;
      }
      if Is(b, FinalizerJobFailed) {
        return Requeue;
      }
      ret := RemoveAndDelete(k, pvc, Requeue);
    }

    /** The body of `if !b.IsConditionFinalizerJobApplied()`. */
    method ApplyJob(k: Key, b: Binding, got: Table<JobBody>) returns (goOn: bool, ret: Return)
      modifies client`server
      ensures var r := JobRequestOf(client.cache, got, k, b);
              if r.NoRequest? then !goOn && ret == r.ret && client.server == old(client.server)
              else
                var (s1, a) := SendJob(old(client.server), k, r);
                client.server == s1 && goOn == a.Ok? && (!goOn ==> ret == Errored)
    {
      if JobsOwnedBy(client.cache.jobs, k.name) != {} {
        return false, Requeue;
      }
      if b.meta.owner.None? {
        return false, Errored;
      }
      var fk := Key("", b.meta.owner.value.name);
      if fk !in client.cache.fluentPVCs {
        return false, Errored;
      }
      var spec := BuildFinalizerJobSpec(client.cache.fluentPVCs[fk].body, k.name);
      var owner := Some(FinalizerJobOwner(k, b));
      var r;
      if k !in got {
        r := CreateJob(client.server, k, NewMeta({}, owner), JobBody(spec, NO_UID, []));
      } else {
        var j := got[k];
        if !CanControl(j.meta.owner, BindingKind, k.name) {
          return false, Errored;
        }
        r := UpdateJob(client.server, k, j.(meta := j.meta.(owner := owner), body := j.body.(spec := spec, selector := NO_UID)));
      }
      client.server := r.0;
      return r.1.Ok?, Errored;
    }

    method RemoveAndDelete(k: Key, given: PVC, onConflict: Return) returns (ret: Return)
      modifies client`server
      ensures (client.server, ret) == Release(old(client.server), k, given, onConflict)
    {
      var pvc := given;
      var r := UpdatePVC(client.server, k, Unprotected(pvc));
      client.server := r.0;
      match r.1 {
        case Ok(p) => pvc := p;
        case Err(e) =>
          if e == Conflict {
            return onConflict;
          }
          if e != NotFound {
            return Errored;
          }
      }
      var d := DeletePVC(client.server, k, pvc.meta);
      client.server := d.0;
      ret := if d.1.Err? && d.1.error != NotFound then Errored else Finished;
    }
  }
}
