/** The pods the webhook emits are the pods the binding controller accepts. */
module WebhookAgreement {
  import opened PodSpecs
  import opened SpecRewriting
  import opened Kube
  import opened Utils
  import opened Protocol
  import opened Invariants
  import opened Decisions
  import BC = BindingController
  import WH = PodWebhook

  /** A pod made from an admitted request: its labels are the user's and the binding's, its spec is the
      patched one. */
  predicate MadeFrom(pod: PodBody, r: WH.PodRequest, f: FluentPVCSpec, name: string) {
    pod.labels == r.labels[POD_LABEL_BINDING_NAME := name] && pod.spec == PatchedPod(r.spec, f, name)
  }

  /** Whatever the request and the FluentPVC say, the patched pod passes the checks for its own binding. */
  lemma EmittedPodCanFill(v: Objects, r: WH.PodRequest, name: string, b: Binding, pod: Pod)
    requires WH.Admissible(v, r)
    requires var fk := Key("", r.labels[POD_LABEL_FLUENT_PVC_NAME]);
             && b.body.fluentPVC.name == fk.name && b.body.pvc.name == name
             && MadeFrom(pod.body, r, v.fluentPVCs[fk].body, name)
    ensures Suits(pod, b) && BC.CanFill(b, pod)
  {
    var f := v.fluentPVCs[Key("", r.labels[POD_LABEL_FLUENT_PVC_NAME])].body;
    PatchedPodLaw(r.spec, f, name);
    var vs := pod.body.spec.volumes;
    assert Only(vs, f.PVCVolume(name));
    var i :| 0 <= i < |vs| && vs[i].name == f.pvcVolumeName;
    assert vs[i].value == Claim(name);
    assert |POD_LABEL_FLUENT_PVC_NAME| != |POD_LABEL_BINDING_NAME|;
  }

  /** After an admission the binding is stored, controlled by its FluentPVC; once the pod it was made
      for appears, and no other pod of the namespace carries its label or has taken its name, the next
      reconcile records exactly that pod. */
  lemma AdmittedPodGetsBound(s: Store, v: Objects, r: WH.PodRequest, name: string, v': Objects, pk: Key)
    requires WH.Admissible(v, r) && WH.Admitted(s, v, r, name).1
    requires var fk, k := Key("", r.labels[POD_LABEL_FLUENT_PVC_NAME]), Key(r.ns, name);
             && fk in v'.fluentPVCs && v'.fluentPVCs[fk] == v.fluentPVCs[fk]
             && k in v'.bindings && k in WH.Admitted(s, v, r, name).0.objs.bindings
             && v'.bindings[k] == WH.Admitted(s, v, r, name).0.objs.bindings[k]
             && pk in v'.pods && pk.ns == r.ns && MadeFrom(v'.pods[pk].body, r, v.fluentPVCs[fk].body, name)
             && (if r.name != "" then pk.name == r.name else BC.LabelledPods(v'.pods, r.ns, name) <= {pk})
    ensures var b := v'.bindings[Key(r.ns, name)];
            BC.PlanOf(v', Key(r.ns, name)) == BC.Fill(BC.WithPod(b, pk, v'.pods[pk]), v'.pods[pk])
  {
    var fk, k := Key("", r.labels[POD_LABEL_FLUENT_PVC_NAME]), Key(r.ns, name);
    var b, pod := v'.bindings[k], v'.pods[pk];
    AdmittedBinding(s, v, r, name);
    EmittedPodCanFill(v, r, name, b, pod);
    if r.name == "" {
      assert pk in BC.LabelledPods(v'.pods, r.ns, name);
      assert BC.LabelledPods(v'.pods, r.ns, name) == {pk};
    }
    assert BC.SearchPod(v', k, b) == BC.PodAt(pk, pod);
  }

  /** An admission succeeds exactly when neither name is taken. Then PVC and binding are new, protected and
      nothing else, the binding names the PVC and the FluentPVC by name and UID and the pod by the name it
      may have, and is controlled by the FluentPVC; nothing else changes. A taken PVC is left as it is. */
  lemma AdmittedBinding(s: Store, v: Objects, r: WH.PodRequest, name: string)
    requires WH.Admissible(v, r)
    ensures var fk, k, (st, ok) := Key("", r.labels[POD_LABEL_FLUENT_PVC_NAME]), Key(r.ns, name), WH.Admitted(s, v, r, name);
            var t := st.objs;
            && (ok <==> k !in s.objs.pvcs && k !in s.objs.bindings)
            && (k in s.objs.pvcs ==> t == s.objs)
            && (ok ==>
                  && k in t.bindings && k in t.pvcs
                  && t == s.objs.(bindings := s.objs.bindings[k := t.bindings[k]], pvcs := s.objs.pvcs[k := t.pvcs[k]])
                  && t.pvcs[k].meta == Meta(s.nextUid, s.nextRv, s.objs.now, false, {PVCProtection}, None)
                  && t.bindings[k].meta == Meta(s.nextUid + 1, s.nextRv + 1, s.objs.now, false, {BindingProtection},
                                                Some(Owner(FluentPVCKind, fk.name, v.fluentPVCs[fk].meta.uid)))
                  && t.bindings[k].body == BindingBody(Identity(fk.name, v.fluentPVCs[fk].meta.uid), Identity(name, s.nextUid),
                                                       Identity(r.name, 0), []))
  {
  }

  /** A webhook call is the protocol's two steps, the second only if the first created the PVC. */
  lemma AdmissionIsSteps(s: State, f: Sources, r: WH.PodRequest, name: string)
    requires NamesOK(s) && WH.Admissible(View(f), r) && Enabled(s, WebhookPVC(r.ns, name))
    ensures var fk, s1 := Key("", r.labels[POD_LABEL_FLUENT_PVC_NAME]), Next(s, WebhookPVC(r.ns, name));
            var bind := WebhookBinding(name, fk, r.name, f);
            if Key(r.ns, name) in s.PVCs() then WH.Admitted(s.store, View(f), r, name) == (s1.store, false)
            else Enabled(s1, bind) && WH.Admitted(s.store, View(f), r, name).0 == Next(s1, bind).store
  {
    assert name !in s.log.bound;
  }
}
