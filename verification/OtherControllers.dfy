/** controllers/fluentpvc_controller.go. */
module FluentPVCController {
  import opened Kube
  import opened Utils
  import opened Client

  /** A binding owned by the FluentPVC of this name still has its own finalizer. */
  predicate Held(bindings: Table<BindingBody>, name: string) {
    exists k :: k in bindings && BindingIndex(bindings[k]) == Some(name) && BindingProtection in bindings[k].meta.finalizers
  }

  function Guarded(fpvc: FluentPVC, held: bool): FluentPVC {
    var fs := fpvc.meta.finalizers;
    fpvc.(meta := fpvc.meta.(finalizers := if held then fs + {FluentPVCProtection} else fs - {FluentPVCProtection}))
  }

  function Reconciled(s: Store, v: Objects, k: Key): (Store, Return) {
    if k !in v.fluentPVCs then (s, Finished)
    else
      var (s1, a) := UpdateFluentPVC(s, k, Guarded(v.fluentPVCs[k], Held(v.bindings, k.name)));
      (s1, if a.Ok? then Finished else Errored)
  }

  class FluentPVCReconciler {
    const client: ApiClient

    constructor (c: ApiClient)
      ensures client == c
    {
      client := c;
    }

    method Reconcile(k: Key) returns (ret: Return)
      modifies client`server
      ensures (client.server, ret) == Reconciled(old(client.server), client.cache, k)
    {
      if k !in client.cache.fluentPVCs {
        return Finished;
      }
      var fpvc := client.cache.fluentPVCs[k];
      var bindings := client.cache.bindings;
      var items := set b | b in bindings && BindingIndex(bindings[b]) == Some(k.name);
      var allBindingsFinalized := true;
      var rest := items;
      while rest != {}
        invariant rest <= items
        invariant allBindingsFinalized <==> forall b :: b in items - rest ==> BindingProtection !in bindings[b].meta.finalizers
      {
        var b :| b in rest;
        rest := rest - {b};
        if BindingProtection in bindings[b].meta.finalizers {
          allBindingsFinalized := false;
          break;
        }
      }
      if allBindingsFinalized {
        fpvc := fpvc.(meta := fpvc.meta.(finalizers := fpvc.meta.finalizers - {FluentPVCProtection}));
      } else {
        fpvc := fpvc.(meta := fpvc.meta.(finalizers := fpvc.meta.finalizers + {FluentPVCProtection}));
      }
      assert fpvc == Guarded(client.cache.fluentPVCs[k], Held(bindings, k.name));
      var r := UpdateFluentPVC(client.server, k, fpvc);
      client.server := r.0;
      ret := if r.1.Ok? then Finished else Errored;
    }
  }
}

/** controllers/pod_controller.go. */
module PodController {
  import opened Kube
  import opened Utils
  import opened Client

  /** The pod is one of ours, runs, its FluentPVC asks for it, and its sidecar has stopped at least once. */
  predicate Doomed(v: Objects, k: Key) {
    && k in v.pods
    && var pod := v.pods[k].body;
    && POD_LABEL_FLUENT_PVC_NAME in pod.labels
    && pod.phase.PodRunning?
    && var fk := Key("", pod.labels[POD_LABEL_FLUENT_PVC_NAME]);
    && fk in v.fluentPVCs
    && v.fluentPVCs[fk].body.deletePodOnSidecarTermination
    && var status := StatusNamed(pod.statuses, v.fluentPVCs[fk].body.sidecar.name);
    && status.Some?
    && (status.value.restartCount != 0 || status.value.terminated)
  }

  /** What a reconcile answers when it deletes nothing. */
  function Idle(v: Objects, k: Key): Return {
    if k !in v.pods || POD_LABEL_FLUENT_PVC_NAME !in v.pods[k].body.labels || !v.pods[k].body.phase.PodRunning? then Finished
    else
      var fk := Key("", v.pods[k].body.labels[POD_LABEL_FLUENT_PVC_NAME]);
      if fk !in v.fluentPVCs then Errored
      else if !v.fluentPVCs[fk].body.deletePodOnSidecarTermination then Finished
      else if StatusNamed(v.pods[k].body.statuses, v.fluentPVCs[fk].body.sidecar.name).None? then Errored
      else Finished
  }

  /** The pod is deleted, in the version that was read, exactly when it is doomed. */
  function Reconciled(s: Store, v: Objects, k: Key): (Store, Return) {
    if !Doomed(v, k) then (s, Idle(v, k))
    else
      var (s1, a) := DeletePod(s, k, v.pods[k].meta);
      (s1, if a.Err? && a.error != NotFound then Errored else Finished)
  }

  class PodReconciler {
    const client: ApiClient

    constructor (c: ApiClient)
      ensures client == c
    {
      client := c;
    }

    method Reconcile(k: Key) returns (ret: Return)
      modifies client`server
      ensures (client.server, ret) == Reconciled(old(client.server), client.cache, k)
    {
      if k !in client.cache.pods {
        return Finished;
      }
      var pod := client.cache.pods[k];
      if POD_LABEL_FLUENT_PVC_NAME !in pod.body.labels {
        return Finished;
      }
      var fk := Key("", pod.body.labels[POD_LABEL_FLUENT_PVC_NAME]);
      if !pod.body.phase.PodRunning? {
        return Finished;
      }
      if fk !in client.cache.fluentPVCs {
        return Errored;
      }
      var fpvc := client.cache.fluentPVCs[fk];
      if !fpvc.body.deletePodOnSidecarTermination {
        return Finished;
      }
      var status := FindContainerStatusByName(pod.body.statuses, fpvc.body.sidecar.name);
      if status.None? {
        return Errored;
      }
      if status.value.restartCount == 0 && !status.value.terminated {
        return Finished;
      }
      var r := DeletePod(client.server, k, pod.meta);
      client.server := r.0;
      ret := if r.1.Err? && r.1.error != NotFound then Errored else Finished;
    }
  }
}

/** webhooks/pod_webhook.go: podMutator.Handle. */
module PodWebhook {
  import opened PodSpecs
  import opened SpecRewriting
  import opened Kube
  import opened Client

  datatype Response = Denied | Failed | Patched(labels: map<string, string>, spec: PodSpec)

  /** The pod under admission: it may lack a name and has no UID yet. */
  datatype PodRequest = PodRequest(ns: string, name: string, labels: map<string, string>, spec: PodSpec)

  function ProtectedPVC(): Meta {
    NewMeta({PVCProtection}, None)
  }

  function ProtectedBinding(fk: Key, fpvc: FluentPVC): Meta {
    NewMeta({BindingProtection}, Some(Owner(FluentPVCKind, fk.name, fpvc.meta.uid)))
  }

  function InitialBinding(fk: Key, fpvc: FluentPVC, name: string, pvcUid: Uid, podName: string): BindingBody {
    BindingBody(Identity(fk.name, fpvc.meta.uid), Identity(name, pvcUid), Identity(podName, NO_UID), [])
  }

  /** The request passes the checks made before anything is created. */
  predicate Admissible(v: Objects, r: PodRequest) {
    && |r.spec.containers| != 0
    && POD_LABEL_FLUENT_PVC_NAME in r.labels
    && Key("", r.labels[POD_LABEL_FLUENT_PVC_NAME]) in v.fluentPVCs
  }

  /** Create the protected PVC, then the protected binding that names it; both or the response is an error. */
  function Admitted(s: Store, v: Objects, r: PodRequest, name: string): (Store, bool)
    requires Admissible(v, r)
  {
    var fk, k := Key("", r.labels[POD_LABEL_FLUENT_PVC_NAME]), Key(r.ns, name);
    var fpvc := v.fluentPVCs[fk];
    match CreatePVC(s, k, ProtectedPVC(), PVCBody(ClaimPending))
    case (s1, Err(_)) => (s1, false)
    case (s1, Ok(pvc)) =>
      var (s2, a) := CreateBinding(s1, k, ProtectedBinding(fk, fpvc), InitialBinding(fk, fpvc, name, pvc.meta.uid, r.name));
      (s2, a.Ok?)
  }

  class PodMutator {
    const client: ApiClient

    constructor (c: ApiClient)
      ensures client == c
    {
      client := c;
    }

    /** Handle; name is the collision-free name generated for PVC and binding; touched says that someone
        else has written the new binding before its status update arrives, which is then a conflict. */
    method Handle(r: PodRequest, name: string, touched: bool) returns (response: Response)
      modifies client`server
      ensures !Admissible(client.cache, r) ==> !response.Patched? && client.server == old(client.server)
      ensures Admissible(client.cache, r) ==>
                var fpvc := client.cache.fluentPVCs[Key("", r.labels[POD_LABEL_FLUENT_PVC_NAME])];
                var (s, ok) := Admitted(old(client.server), client.cache, r, name);
                && client.server == s && response.Patched? == (ok && !touched)
                && (response.Patched? ==>
                      response == Patched(r.labels[POD_LABEL_BINDING_NAME := name], PatchedPod(r.spec, fpvc.body, name)))
      ensures response.Denied? <==> |r.spec.containers| == 0 || POD_LABEL_FLUENT_PVC_NAME !in r.labels
    {
      if |r.spec.containers| == 0 || POD_LABEL_FLUENT_PVC_NAME !in r.labels {
        return Denied;
      }
      var fk := Key("", r.labels[POD_LABEL_FLUENT_PVC_NAME]);
      if fk !in client.cache.fluentPVCs {
        return Failed;
      }
      var fpvc := client.cache.fluentPVCs[fk];
      var k := Key(r.ns, name);
      var created := CreatePVC(client.server, k, ProtectedPVC(), PVCBody(ClaimPending));
      client.server := created.0;
      if created.1.Err? {
        return Failed;
      }
      var pvc := created.1.obj;
      var b := InitialBinding(fk, fpvc, name, pvc.meta.uid, r.name);
      var bound := CreateBinding(client.server, k, ProtectedBinding(fk, fpvc), b);
      client.server := bound.0;
      if bound.1.Err? {
        return Failed;
      }
      // SetPhasePending and its status update change no condition.
      var status := if touched then (client.server, Err(Conflict)) else UpdateBindingStatus(client.server, k, bound.1.obj);
      client.server := status.0;
      if status.1.Err? {
        return Failed;
      }
      var spec := PatchPod(r.spec, fpvc.body, name);
      response := Patched(r.labels[POD_LABEL_BINDING_NAME := name], spec);
    }
  }
}
