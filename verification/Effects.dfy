/** What whole operations leave on the server, in the fields of the stored objects, and what they answer. */
module Effects {
  import opened Conditions
  import opened Kube
  import opened Utils
  import opened Invariants
  import BC = BindingController
  import PC = PVCController
  import FC = FluentPVCController
  import DC = PodController

  /** t' is t but for the entry at k, which is o up to its version. */
  predicate Wrote<T(==)>(t: Table<T>, t': Table<T>, k: Key, o: Obj<T>) {
    k in t' && t' == t[k := t'[k]] && t'[k] == o.(meta := o.meta.(rv := t'[k].meta.rv))
  }

  /** The server holds another object than the copy, another version of it, or none. */
  predicate Outdated<T>(t: Table<T>, k: Key, copy: Meta) {
    k in t ==> t[k].meta.uid != copy.uid || t[k].meta.rv != copy.rv
  }

  // ---------------------------------------------------------------- the PVC

  /** A PVC is given up by taking pvc-protection, and no other finalizer, and asking for its deletion: it
      stays, terminating, while others hold it, and goes otherwise. Nothing else changes. */
  lemma ReleaseExactly(s: Store, k: Key, onConflict: Return)
    requires k in s.objs.pvcs
    ensures var p, (st, ret) := s.objs.pvcs[k], PC.Release(s, k, s.objs.pvcs[k], onConflict);
            && ret == Finished && st.objs == s.objs.(pvcs := st.objs.pvcs)
            && (if p.meta.finalizers <= {PVCProtection} then st.objs.pvcs == s.objs.pvcs - {k}
                else Wrote(s.objs.pvcs, st.objs.pvcs, k,
                           p.(meta := p.meta.(finalizers := p.meta.finalizers - {PVCProtection}, deleting := true))))
  {
    var p := s.objs.pvcs[k];
    var (s1, a) := UpdatePVC(s, k, PC.Unprotected(p));
    assert a.Ok?;
    if k in s1.objs.pvcs {
      assert s1.objs.pvcs == s.objs.pvcs[k := a.obj];
    } else {
      assert s1.objs.pvcs == s.objs.pvcs - {k};
    }
  }

  lemma OutdatedReleaseIsRefused(s: Store, k: Key, given: PVC, onConflict: Return)
    requires Outdated(s.objs.pvcs, k, given.meta)
    ensures PC.Release(s, k, given, onConflict) == (s, if k in s.objs.pvcs then onConflict else Finished)
  {
  }

  // ---------------------------------------------------------------- the binding

  /** A binding is let go by taking its own finalizer, and no other, and asking for its deletion. */
  lemma DropExactly(s: Store, k: Key)
    requires k in s.objs.bindings
    ensures var b, (st, ret) := s.objs.bindings[k], BC.DropBinding(s, k, s.objs.bindings[k]);
            && ret == Finished && st.objs == s.objs.(bindings := st.objs.bindings)
            && (if b.meta.finalizers <= {BindingProtection} then st.objs.bindings == s.objs.bindings - {k}
                else Wrote(s.objs.bindings, st.objs.bindings, k,
                           b.(meta := b.meta.(finalizers := b.meta.finalizers - {BindingProtection}, deleting := true))))
  {
    var b := s.objs.bindings[k];
    if BindingProtection in b.meta.finalizers {
      var (s1, a) := UpdateBinding(s, k, BC.Unprotected(b));
      assert a.Ok?;
      if k in s1.objs.bindings {
        assert s1.objs.bindings == s.objs.bindings[k := a.obj];
      } else {
        assert s1.objs.bindings == s.objs.bindings - {k};
      }
    }
  }

  /** A reconcile that went by another version of the binding than the server's writes nothing, and fails
      unless it had nothing to write or the binding to let go is gone. */
  lemma OutdatedBindingIsLeftAlone(s: Store, v: Objects, k: Key)
    requires k in v.bindings && Outdated(s.objs.bindings, k, v.bindings[k].meta)
    requires Ordered(v.bindings[k].body.conditions)
    ensures var plan := BC.PlanOf(v, k);
            BC.Reconciled(s, v, k) ==
              (s, if plan.Stop? then plan.ret else if plan.Drop? && k !in s.objs.bindings then Finished else Errored)
  {
    hide BC.PlanOf, Ordered;
    PlanIsAboutTheBinding(v, k);
  }

  /** A reconcile that went by the server's version leaves exactly what was planned, and nothing else. */
  lemma PlannedIsStored(s: Store, v: Objects, k: Key)
    requires k in v.bindings && k in s.objs.bindings && s.objs.bindings[k] == v.bindings[k]
    requires Ordered(v.bindings[k].body.conditions)
    requires v.bindings[k].meta.deleting ==> v.bindings[k].meta.finalizers != {}
    ensures var plan, (st, ret) := BC.PlanOf(v, k), BC.Reconciled(s, v, k);
            && (plan.Stop? ==> st == s && ret == plan.ret)
            && (plan.Adopt? || plan.Save? ==>
                  && st.objs == s.objs.(bindings := st.objs.bindings) && Wrote(s.objs.bindings, st.objs.bindings, k, plan.b)
                  && ret == if plan.Save? then plan.ret else Finished)
            && (plan.Drop? ==> (st, ret) == BC.DropBinding(s, k, s.objs.bindings[k]))
  {
    hide BC.PlanOf, Ordered, BC.DropBinding, UpdateBinding, UpdateBindingStatus;
    PlanIsAboutTheBinding(v, k);
    match BC.PlanOf(v, k)
    case Adopt(b1) => UpdateIsStored(s, k, b1);
    case Save(b1, _) => StatusIsStored(s, k, b1);
    case _ =>
  }

  /** An accepted update takes finalizers, owner and body from the writer, all else from the server. */
  lemma UpdateIsStored(s: Store, k: Key, o: Binding)
    requires k in s.objs.bindings && s.objs.bindings[k].meta.uid == o.meta.uid && s.objs.bindings[k].meta.rv == o.meta.rv
    requires s.objs.bindings[k].meta.deleting ==> {} != o.meta.finalizers <= s.objs.bindings[k].meta.finalizers
    ensures var b, (st, a) := s.objs.bindings[k], UpdateBinding(s, k, o);
            && a.Ok? && st.objs == s.objs.(bindings := st.objs.bindings)
            && Wrote(s.objs.bindings, st.objs.bindings, k,
                     Obj(b.meta.(finalizers := o.meta.finalizers, owner := o.meta.owner), o.body.(conditions := b.body.conditions)))
  {
  }

  /** An accepted status update takes the conditions from the writer, all else from the server. */
  lemma StatusIsStored(s: Store, k: Key, o: Binding)
    requires k in s.objs.bindings && s.objs.bindings[k].meta.uid == o.meta.uid && s.objs.bindings[k].meta.rv == o.meta.rv
    requires s.objs.bindings[k].meta.deleting ==> s.objs.bindings[k].meta.finalizers != {}
    ensures var b, (st, a) := s.objs.bindings[k], UpdateBindingStatus(s, k, o);
            && a.Ok? && st.objs == s.objs.(bindings := st.objs.bindings)
            && Wrote(s.objs.bindings, st.objs.bindings, k, b.(body := b.body.(conditions := o.body.conditions)))
  {
  }

  /** A pod that is recorded is judged in the same reconcile, on the binding as the server stored it. */
  lemma RecordedIsJudged(s: Store, v: Objects, k: Key) returns (s1: Store)
    requires k in v.bindings && k in s.objs.bindings && s.objs.bindings[k] == v.bindings[k]
    requires v.bindings[k].meta.deleting ==> v.bindings[k].meta.finalizers != {}
    requires BC.PlanOf(v, k).Fill?
    ensures s1.objs == s.objs.(bindings := s1.objs.bindings) && Wrote(s.objs.bindings, s1.objs.bindings, k, BC.PlanOf(v, k).b)
    ensures var b1 := s1.objs.bindings[k];
            BC.Reconciled(s, v, k) == BC.Execute(s1, k, b1, BC.Verdict(v, k, b1, Some(BC.PlanOf(v, k).pod)))
  {
    hide BC.PlanOf, BC.Verdict, BC.Execute;
    var plan := BC.PlanOf(v, k);
    s1 := UpdateBinding(s, k, plan.b).0;
    RecordsOnlyThePod(v, k);
  }

  lemma RecordsOnlyThePod(v: Objects, k: Key)
    requires k in v.bindings && BC.PlanOf(v, k).Fill?
    ensures var b, b1 := v.bindings[k], BC.PlanOf(v, k).b; b1 == b.(body := b.body.(pod := b1.body.pod))
  {
  }

  // ---------------------------------------------------------------- the Job

  /** A Job that is asked for is stored as asked for, held by nobody and without status, unless its name
      has been taken meanwhile. */
  lemma CreatedJob(s: Store, k: Key, r: PC.JobRequest)
    requires r.CreateIt?
    ensures var (st, a) := PC.SendJob(s, k, r);
            && (a.Ok? <==> k !in s.objs.jobs)
            && (a.Err? ==> st.objs == s.objs)
            && (a.Ok? ==>
                  && k in st.objs.jobs && st.objs == s.objs.(jobs := s.objs.jobs[k := st.objs.jobs[k]])
                  && var j := st.objs.jobs[k];
                     && j.meta.owner == r.meta.owner && j.meta.finalizers == r.meta.finalizers && !j.meta.deleting
                     && j.meta.uid == s.nextUid && j.meta.created == s.objs.now
                     && j.body.spec == r.body.spec && j.body.conditions == r.body.conditions)
  {
  }

  /** A Job that has a selector is never updated: its specification cannot change. */
  lemma UpdateOfAJobIsRefused(s: Store, v: Objects, got: Table<JobBody>, k: Key)
    requires k in v.bindings && PC.JobRequestOf(v, got, k, v.bindings[k]).UpdateIt?
    requires k in s.objs.jobs ==> s.objs.jobs[k].body.selector != NO_UID
    ensures PC.SendJob(s, k, PC.JobRequestOf(v, got, k, v.bindings[k])).0 == s
    ensures PC.SendJob(s, k, PC.JobRequestOf(v, got, k, v.bindings[k])).1.Err?
  {
  }

  // ---------------------------------------------------------------- the FluentPVC

  /** Some binding controlled by the FluentPVC of this name holds its own finalizer. */
  ghost predicate Needed(v: Objects, name: string) {
    exists bk :: && bk in v.bindings && v.bindings[bk].meta.owner.Some?
                 && v.bindings[bk].meta.owner.value.kind == FluentPVCKind && v.bindings[bk].meta.owner.value.name == name
                 && BindingProtection in v.bindings[bk].meta.finalizers
  }

  /** The FluentPVC's own finalizer, and no other, is set while it is needed and taken away when it is not;
      it cannot be added once the FluentPVC is being deleted. */
  lemma FluentPVCReconcileExactly(s: Store, v: Objects, k: Key)
    requires k in v.fluentPVCs && k in s.objs.fluentPVCs && s.objs.fluentPVCs[k] == v.fluentPVCs[k]
    ensures var f, (st, ret) := v.fluentPVCs[k], FC.Reconciled(s, v, k);
            var fs := if Needed(v, k.name) then f.meta.finalizers + {FluentPVCProtection} else f.meta.finalizers - {FluentPVCProtection};
            if f.meta.deleting && FluentPVCProtection !in f.meta.finalizers && Needed(v, k.name) then st == s && ret == Errored
            else
              && ret == Finished && st.objs == s.objs.(fluentPVCs := st.objs.fluentPVCs)
              && (if f.meta.deleting && fs == {} && f.meta.finalizers != {} then st.objs.fluentPVCs == s.objs.fluentPVCs - {k}
                  else Wrote(s.objs.fluentPVCs, st.objs.fluentPVCs, k, f.(meta := f.meta.(finalizers := fs))))
  {
    assert FC.Held(v.bindings, k.name) <==> Needed(v, k.name);
    var f := v.fluentPVCs[k];
    assert s.objs.fluentPVCs[k := f] == s.objs.fluentPVCs;
    if FluentPVCProtection in f.meta.finalizers {
      assert f.meta.finalizers + {FluentPVCProtection} == f.meta.finalizers;
    } else {
      assert f.meta.finalizers - {FluentPVCProtection} == f.meta.finalizers;
    }
  }

  lemma OutdatedFluentPVCIsLeftAlone(s: Store, v: Objects, k: Key)
    requires k in v.fluentPVCs && Outdated(s.objs.fluentPVCs, k, v.fluentPVCs[k].meta)
    ensures FC.Reconciled(s, v, k) == (s, Errored)
  {
  }

  // ---------------------------------------------------------------- the pod

  /** The pod at k is labelled and running. */
  predicate Watched(v: Objects, k: Key) {
    && k in v.pods && v.pods[k].body.phase == PodRunning && POD_LABEL_FLUENT_PVC_NAME in v.pods[k].body.labels
  }

  /** Its FluentPVC is there and asks for the deletion of pods whose sidecar stopped. */
  predicate Asks(v: Objects, k: Key)
    requires Watched(v, k)
  {
    var fk := Key("", v.pods[k].body.labels[POD_LABEL_FLUENT_PVC_NAME]);
    fk in v.fluentPVCs && v.fluentPVCs[fk].body.deletePodOnSidecarTermination
  }

  /** The first status named like the sidecar is number i. */
  predicate SidecarAt(v: Objects, k: Key, i: nat)
    requires Watched(v, k) && Asks(v, k)
  {
    var statuses := v.pods[k].body.statuses;
    var name := v.fluentPVCs[Key("", v.pods[k].body.labels[POD_LABEL_FLUENT_PVC_NAME])].body.sidecar.name;
    i < |statuses| && statuses[i].name == name && forall j :: 0 <= j < i ==> statuses[j].name != name
  }

  /** The sidecar ended or was restarted. */
  ghost predicate SidecarStopped(v: Objects, k: Key) {
    Watched(v, k) && Asks(v, k) &&
    exists i: nat :: SidecarAt(v, k, i) && (v.pods[k].body.statuses[i].restartCount > 0 || v.pods[k].body.statuses[i].terminated)
  }

  lemma {:induction false} FirstStatus(statuses: seq<ContainerStatus>, name: string, i: nat)
    requires i < |statuses| && statuses[i].name == name && forall j :: 0 <= j < i ==> statuses[j].name != name
    ensures StatusNamed(statuses, name) == Some(statuses[i])
  {
    if i > 0 {
      assert statuses[0].name != name;
      forall j | 0 <= j < i - 1 ensures statuses[1..][j].name != name { assert statuses[j + 1].name != name; }
      FirstStatus(statuses[1..], name, i - 1);
    }
  }

  lemma {:induction false} StatusIsSomewhere(statuses: seq<ContainerStatus>, name: string) returns (i: nat)
    requires StatusNamed(statuses, name).Some?
    ensures i < |statuses| && statuses[i].name == name && forall j :: 0 <= j < i ==> statuses[j].name != name
  {
    if statuses[0].name == name {
      i := 0;
    } else {
      i := StatusIsSomewhere(statuses[1..], name);
      forall j | 0 <= j < i + 1 ensures statuses[j].name != name { if j > 0 { assert statuses[1..][j - 1] == statuses[j]; } }
      i := i + 1;
    }
  }

  lemma Sidecar(v: Objects, k: Key)
    requires Watched(v, k) && Asks(v, k)
    ensures var st := StatusNamed(v.pods[k].body.statuses, v.fluentPVCs[Key("", v.pods[k].body.labels[POD_LABEL_FLUENT_PVC_NAME])].body.sidecar.name);
            && (st.None? <==> forall i: nat :: !SidecarAt(v, k, i))
            && forall i: nat :: SidecarAt(v, k, i) ==> st == Some(v.pods[k].body.statuses[i])
  {
    var statuses := v.pods[k].body.statuses;
    var name := v.fluentPVCs[Key("", v.pods[k].body.labels[POD_LABEL_FLUENT_PVC_NAME])].body.sidecar.name;
    forall i: nat | SidecarAt(v, k, i) ensures StatusNamed(statuses, name) == Some(statuses[i]) {
      FirstStatus(statuses, name, i);
    }
    if StatusNamed(statuses, name).Some? {
      var i := StatusIsSomewhere(statuses, name);
      assert SidecarAt(v, k, i);
    }
  }

  /** A labelled running pod is marked for deletion exactly when its FluentPVC asks for it and its sidecar
      ended or was restarted; in every other case the server is left alone. */
  lemma PodReconcileExactly(s: Store, v: Objects, k: Key)
    requires k in v.pods ==> k in s.objs.pods && s.objs.pods[k] == v.pods[k]
    ensures var (st, ret) := DC.Reconciled(s, v, k);
            if !SidecarStopped(v, k) then st == s
            else
              && ret == Finished && st.objs == s.objs.(pods := st.objs.pods)
              && Wrote(s.objs.pods, st.objs.pods, k, v.pods[k].(meta := v.pods[k].meta.(deleting := true)))
  {
    if Watched(v, k) && Asks(v, k) { Sidecar(v, k); }
    if k in v.pods { assert s.objs.pods[k := v.pods[k]] == s.objs.pods; }
  }

  /** A pod that was replaced or changed after it was read is not deleted. */
  lemma OutdatedPodIsLeftAlone(s: Store, v: Objects, k: Key)
    requires k in v.pods && Outdated(s.objs.pods, k, v.pods[k].meta)
    ensures var (st, ret) := DC.Reconciled(s, v, k);
            st == s && (SidecarStopped(v, k) ==> ret == if k in s.objs.pods then Errored else Finished)
  {
    if Watched(v, k) && Asks(v, k) { Sidecar(v, k); }
  }

  /** A reconcile that deletes nothing fails exactly when the FluentPVC of a labelled running pod is
      missing, or asks for a sidecar that has no status. */
  lemma PodReconcileFailsExactlyWhen(s: Store, v: Objects, k: Key)
    requires !SidecarStopped(v, k)
    ensures DC.Reconciled(s, v, k).1 == Errored <==>
              Watched(v, k) &&
              (Key("", v.pods[k].body.labels[POD_LABEL_FLUENT_PVC_NAME]) !in v.fluentPVCs ||
               (Asks(v, k) && forall i: nat :: !SidecarAt(v, k, i)))
    ensures DC.Reconciled(s, v, k).1 != Requeue
  {
    if Watched(v, k) && Asks(v, k) { Sidecar(v, k); }
  }
}
