/** Whole reconciles: each is a few steps of the protocol, and each keeps to its own objects. */
module Reconciles {
  import opened Conditions
  import opened Kube
  import opened Utils
  import opened Protocol
  import opened Invariants
  import opened Preservation
  import BC = BindingController
  import PC = PVCController

  // ---------------------------------------------------------------- the binding reconcile

  /** st is the store after at most n more writes of a binding reconcile that has reached s: a write
      that rests on the answer to the previous one, or the deletion that ends deleteFluentPVCBinding. */
  ghost predicate Continues(s: State, f: Sources, k: Key, st: Store, n: nat)
    decreases n
  {
    || st == s.store
    || (n > 0 && Continues(Next(s, BindingWrite(k, f.(bindings := s))), f, k, st, n - 1))
    || (n > 0 && k in s.Bindings() && Continues(Next(s, Action.DeleteBinding(k)), f, k, st, n - 1))
  }

  /** Reconcile of a binding, with reads from any past states, is the protocol's BindingWrite and at
      most two more steps. */
  lemma BindingReconcileIsSteps(s: State, f: Sources, k: Key)
    requires Inv(s) && SourcesPast(f, s)
    ensures Continues(Next(s, BindingWrite(k, f)), f, k, BC.Reconciled(s.store, View(f), k).0, 2)
  {
    var v := View(f);
    if k in v.bindings {
      StaleBinding(f.bindings, s, k);
      StalePods(f.pods, s, v);
    }
    PlanIsSteps(s, f, k);
  }

  lemma PlanIsSteps(s: State, f: Sources, k: Key)
    requires k in View(f).bindings ==> PodsKnown(View(f), s.store.nextUid) && Cas(s.Bindings(), k, View(f).bindings[k])
    ensures Continues(Next(s, BindingWrite(k, f)), f, k, BC.Reconciled(s.store, View(f), k).0, 2)
  {
    hide BC.PlanOf, Continues, UpdateBinding, UpdateBindingStatus, BC.DropBinding, Cas, PodsKnown;
    var v := View(f);
    match BC.PlanOf(v, k)
    case Fill(_, _) =>
      NoBindingNoPlan(v, k);
      FillIsSteps(s, f, k);
    case Drop =>
      NoBindingNoPlan(v, k);
      DropIsSteps(s.store, k, v.bindings[k]);
      Deletes(Next(s, BindingWrite(k, f)), f, k, BC.Reconciled(s.store, v, k).0, 1);
    case Adopt(_) =>
      NoBindingNoPlan(v, k);
      Rests(s, f, k);
    case Save(_, _) =>
      NoBindingNoPlan(v, k);
      Rests(s, f, k);
    case Stop(_) => Rests(s, f, k);
  }

  lemma Rests(s: State, f: Sources, k: Key)
    requires BC.Reconciled(s.store, View(f), k).0 == Next(s, BindingWrite(k, f)).store
    ensures Continues(Next(s, BindingWrite(k, f)), f, k, BC.Reconciled(s.store, View(f), k).0, 2)
  {
  }

  lemma Deletes(s1: State, f: Sources, k: Key, st: Store, n: nat)
    requires st == s1.store || (k in s1.Bindings() && st == Next(s1, Action.DeleteBinding(k)).store)
    ensures Continues(s1, f, k, st, n + 1)
  {
  }

  /** The first write of DropBinding. */
  function DropWrite(s: Store, k: Key, b: Binding): Store {
    if BindingProtection in b.meta.finalizers then UpdateBinding(s, k, BC.Unprotected(b)).0
    else Kube.DeleteBinding(s, k, b.meta).0
  }

  lemma DropIsSteps(s: Store, k: Key, b: Binding)
    requires Cas(s.objs.bindings, k, b)
    ensures var st, s1 := BC.DropBinding(s, k, b).0, DropWrite(s, k, b);
            st == s1 || (k in s1.objs.bindings &&
                         st == WithBindings(s1, TableOf(s1.objs.bindings, Mark(s1.objs.bindings, k, false, s1.nextRv))))
  {
  }

  lemma FillIsSteps(s: State, f: Sources, k: Key)
    requires var v := View(f);
             k in v.bindings && BC.PlanOf(v, k).Fill? && PodsKnown(v, s.store.nextUid) && Cas(s.Bindings(), k, v.bindings[k])
    ensures Continues(Next(s, BindingWrite(k, f)), f, k, BC.Reconciled(s.store, View(f), k).0, 2)
  {
    hide BC.PlanOf, BC.Verdict, Continues, UpdateBinding, BC.DropBinding;
    var v := View(f);
    var b1, pod := BC.PlanOf(v, k).b, BC.PlanOf(v, k).pod;
    FillKeeps(v, k, s.store.nextUid);
    var (st, a) := UpdateBinding(s.store, k, b1);
    var s1 := Next(s, BindingWrite(k, f));
    FillAnswer(s.store, k, v.bindings[k], b1);
    if a.Ok? {
      var b2, plan := a.obj, BC.Verdict(v, k, a.obj, Some(pod));
      BC.VerdictIsNoFill(v, k, b2, Some(pod));
      if k in st.objs.bindings {
        FilledPlan(v, View(f.(bindings := s1)), k, s.store.nextUid);
        ExecuteIsSteps(s1, f, k, plan);
      } else {
        GoneStaysGone(st, k, b2, plan);
        Rests(s, f, k);
      }
    } else {
      Rests(s, f, k);
    }
  }

  /** Execution of the plan that the present version of the binding leads to. */
  lemma ExecuteIsSteps(s1: State, f: Sources, k: Key, plan: BC.Plan)
    requires k in s1.Bindings() && BC.PlanOf(View(f.(bindings := s1)), k) == plan && !plan.Fill?
    ensures Continues(s1, f, k, BC.Execute(s1.store, k, s1.Bindings()[k], plan).0, 2)
  {
    hide BC.PlanOf, UpdateBinding, BC.DropBinding;
    var s2 := Next(s1, BindingWrite(k, f.(bindings := s1)));
    if plan.Drop? {
      DropIsSteps(s1.store, k, s1.Bindings()[k]);
      Deletes(s2, f, k, BC.DropBinding(s1.store, k, s1.Bindings()[k]).0, 0);
    } else {
      assert Continues(s2, f, k, s2.store, 1);
    }
  }

  lemma GoneStaysGone(s: Store, k: Key, b: Binding, plan: BC.Plan)
    requires k !in s.objs.bindings && !plan.Fill? && !plan.Adopt?
    ensures BC.Execute(s, k, b, plan).0 == s
  {
  }

  lemma FillAnswer(s: Store, k: Key, b: Binding, b1: Binding)
    requires Cas(s.objs.bindings, k, b) && b1 == b.(body := b.body.(pod := b1.body.pod))
    ensures var (st, a) := UpdateBinding(s, k, b1);
            a.Ok? ==> a.obj.body == b1.body && a.obj.meta.owner == b.meta.owner &&
                      (k in st.objs.bindings ==> st.objs.bindings[k] == a.obj)
  {
  }

  /** The pod a fill found is the pod of the binding from then on. */
  lemma FilledPlan(v: Objects, v': Objects, k: Key, nextUid: Uid)
    requires k in v.bindings && BC.PlanOf(v, k).Fill? && PodsKnown(v, nextUid)
    requires v' == v.(bindings := v'.bindings) && k in v'.bindings
    requires v'.bindings[k].body == BC.PlanOf(v, k).b.body && v'.bindings[k].meta.owner == v.bindings[k].meta.owner
    ensures BC.PlanOf(v', k) == BC.Verdict(v, k, v'.bindings[k], Some(BC.PlanOf(v, k).pod))
  {
    hide BC.Verdict;
    FillKeeps(v, k, nextUid);
    var b2, pod := v'.bindings[k], BC.PlanOf(v, k).pod;
    SearchAfterFill(v, v', k);
    SameVerdict(v, v', k, b2, Some(pod));
  }

  lemma SearchAfterFill(v: Objects, v': Objects, k: Key)
    requires k in v.bindings && BC.PlanOf(v, k).Fill? && BC.PlanOf(v, k).b.body.pod.name != ""
    requires v'.pods == v.pods && k in v'.bindings && v'.bindings[k].body == BC.PlanOf(v, k).b.body
    ensures var pod := BC.PlanOf(v, k).pod;
            BC.SearchPod(v', k, v'.bindings[k]) == BC.PodAt(Key(k.ns, v'.bindings[k].body.pod.name), pod) &&
            v'.bindings[k].body.pod.uid == pod.meta.uid
  {
    var at := BC.SearchPod(v, k, v.bindings[k]);
    if v.bindings[k].body.pod.name == "" {
      assert at.key in BC.LabelledPods(v.pods, k.ns, k.name);
    }
  }

  /** The verdict on a binding does not look at the table of bindings. */
  lemma SameVerdict(v: Objects, v': Objects, k: Key, b: Binding, pod: Option<Pod>)
    requires v' == v.(bindings := v'.bindings)
    ensures BC.Verdict(v', k, b, pod) == BC.Verdict(v, k, b, pod)
  {
  }

  // ---------------------------------------------------------------- the PVC reconcile

  /** Reconcile of a PVC, with reads from any past states, is one of: nothing, the protocol's JobWrite,
      its ReleaseWrite, or its ReleaseWrite followed by the deletion of the PVC. */
  ghost predicate PVCSteps(s: State, f: Sources, k: Key, st: Store) {
    var s1 := Next(s, ReleaseWrite(k, f));
    || st == s.store
    || st == Next(s, JobWrite(k, f)).store
    || st == s1.store
    || (k in s1.PVCs() && st == Next(s1, Action.DeletePVC(k)).store)
  }

  lemma PVCReconcileIsSteps(s: State, f: Sources, k: Key)
    requires Inv(s) && SourcesPast(f, s)
    ensures PVCSteps(s, f, k, PC.Reconciled(s.store, View(f), f.got.Jobs(), k).0)
  {
    var v := View(f);
    if k in v.pvcs && k in v.bindings {
      StaleBinding(f.bindings, s, k);
      StalePVC(f.pvcs, s, k);
      PVCPlanIsSteps(s, f, k);
    }
  }

  lemma PVCPlanIsSteps(s: State, f: Sources, k: Key)
    requires var v := View(f);
             k in v.pvcs && k in v.bindings && Ordered(v.bindings[k].body.conditions) && Cas(s.PVCs(), k, v.pvcs[k])
    ensures PVCSteps(s, f, k, PC.Reconciled(s.store, View(f), f.got.Jobs(), k).0)
  {
    hide PC.Reconciled, PC.Release, UpdatePVC, JobPlanWrite, PC.MayRelease, Ordered;
    var v := View(f);
    PVCReconcileCases(s.store, v, f.got.Jobs(), k);
    ReleaseIsSteps(s.store, k, v.pvcs[k], Finished);
    ReleaseIsSteps(s.store, k, v.pvcs[k], Requeue);
  }

  /** Applying the Job and giving the PVC up never happen in the same reconcile. */
  lemma PVCReconcileCases(s: Store, v: Objects, got: Table<JobBody>, k: Key)
    requires k in v.pvcs && k in v.bindings && Ordered(v.bindings[k].body.conditions)
    ensures var st := PC.Reconciled(s, v, got, k).0;
            || st == s
            || st == JobPlanWrite(s, v, got, k)
            || (PC.MayRelease(v, k) && (st == PC.Release(s, k, v.pvcs[k], Finished).0 || st == PC.Release(s, k, v.pvcs[k], Requeue).0))
  {
    hide PC.SendJob, PC.JobRequestOf, PC.Release;
  }

  lemma ReleaseIsSteps(s: Store, k: Key, pvc: PVC, ret: Return)
    requires Cas(s.objs.pvcs, k, pvc)
    ensures var st, s1 := PC.Release(s, k, pvc, ret).0, UpdatePVC(s, k, PC.Unprotected(pvc)).0;
            st == s1 || (k in s1.objs.pvcs && st == WithPVCs(s1, TableOf(s1.objs.pvcs, Mark(s1.objs.pvcs, k, false, s1.nextRv))))
  {
  }

  // ---------------------------------------------------------------- frames

  /** t' agrees with t everywhere but at k. */
  ghost predicate SameBut<T(!new)>(t: Table<T>, t': Table<T>, k: Key) {
    && (forall j :: j in t && j != k ==> j in t' && t'[j] == t[j])
    && (forall j :: j in t' && j != k ==> j in t)
  }

  ghost predicate OnlyTheBinding(s: Store, s': Store, k: Key) {
    s'.objs == s.objs.(bindings := s'.objs.bindings) && SameBut(s.objs.bindings, s'.objs.bindings, k)
  }

  ghost predicate OnlyThePVCAndJob(s: Store, s': Store, k: Key) {
    && s'.objs == s.objs.(pvcs := s'.objs.pvcs, jobs := s'.objs.jobs)
    && SameBut(s.objs.pvcs, s'.objs.pvcs, k) && SameBut(s.objs.jobs, s'.objs.jobs, k)
  }

  /** A reconcile of one binding changes that binding and nothing else, however old its reads. */
  lemma BindingReconcileFrame(s: Store, v: Objects, k: Key)
    ensures OnlyTheBinding(s, BC.Reconciled(s, v, k).0, k)
  {
    hide BC.PlanOf, BC.Verdict, UpdateBinding, BC.Execute;
    match BC.PlanOf(v, k)
    case Fill(b1, pod) =>
      var (s1, a) := UpdateBinding(s, k, b1);
      UpdateBindingFrame(s, k, b1);
      if a.Ok? {
        ExecuteFrame(s1, k, a.obj, BC.Verdict(v, k, a.obj, Some(pod)));
      }
    case plan =>
      if k in v.bindings {
        ExecuteFrame(s, k, v.bindings[k], plan);
      }
  }

  lemma UpdateBindingFrame(s: Store, k: Key, b: Binding)
    ensures OnlyTheBinding(s, UpdateBinding(s, k, b).0, k)
  {
  }

  lemma UpdateBindingStatusFrame(s: Store, k: Key, b: Binding)
    ensures OnlyTheBinding(s, UpdateBindingStatus(s, k, b).0, k)
  {
  }

  lemma DeleteBindingFrame(s: Store, k: Key, based: Meta)
    ensures OnlyTheBinding(s, Kube.DeleteBinding(s, k, based).0, k)
  {
  }

  lemma DropBindingFrame(s: Store, k: Key, b: Binding)
    ensures OnlyTheBinding(s, BC.DropBinding(s, k, b).0, k)
  {
    hide UpdateBinding, Kube.DeleteBinding;
    var (s1, a) := UpdateBinding(s, k, BC.Unprotected(b));
    UpdateBindingFrame(s, k, BC.Unprotected(b));
    DeleteBindingFrame(s, k, b.meta);
    DeleteBindingFrame(s1, k, BC.Unprotected(b).meta);
    if a.Ok? { DeleteBindingFrame(s1, k, a.obj.meta); }
  }

  lemma ExecuteFrame(s: Store, k: Key, b: Binding, plan: BC.Plan)
    ensures OnlyTheBinding(s, BC.Execute(s, k, b, plan).0, k)
  {
    hide UpdateBinding, UpdateBindingStatus, BC.DropBinding;
    match plan
    case Stop(_) =>
    case Adopt(b1) => UpdateBindingFrame(s, k, b1);
    case Fill(b1, _) => UpdateBindingFrame(s, k, b1);
    case Save(b1, _) => UpdateBindingStatusFrame(s, k, b1);
    case Drop => DropBindingFrame(s, k, b);
  }

  /** A reconcile of one PVC changes that PVC and the Job of the same key and nothing else. */
  lemma PVCReconcileFrame(s: Store, v: Objects, got: Table<JobBody>, k: Key)
    ensures OnlyThePVCAndJob(s, PC.Reconciled(s, v, got, k).0, k)
  {
    hide PC.SendJob, PC.JobRequestOf, PC.Release, OnlyThePVCAndJob, Is;
    if k in v.pvcs && k in v.bindings {
      var pvc, r := v.pvcs[k], PC.JobRequestOf(v, got, k, v.bindings[k]);
      ReleaseFrame(s, k, pvc, Finished);
      ReleaseFrame(s, k, pvc, Requeue);
      if !r.NoRequest? {
        var s1 := PC.SendJob(s, k, r).0;
        SendJobFrame(s, k, r);
        ReleaseFrame(s1, k, pvc, Requeue);
        FramesCompose(s, s1, PC.Release(s1, k, pvc, Requeue).0, k);
      }
    }
    NoFrame(s, k);
  }

  lemma NoFrame(s: Store, k: Key)
    ensures OnlyThePVCAndJob(s, s, k)
  {
  }

  lemma FramesCompose(s: Store, s1: Store, s2: Store, k: Key)
    requires OnlyThePVCAndJob(s, s1, k) && OnlyThePVCAndJob(s1, s2, k)
    ensures OnlyThePVCAndJob(s, s2, k)
  {
  }

  lemma SendJobFrame(s: Store, k: Key, r: PC.JobRequest)
    requires !r.NoRequest?
    ensures OnlyThePVCAndJob(s, PC.SendJob(s, k, r).0, k)
  {
  }

  lemma UpdatePVCFrame(s: Store, k: Key, pvc: PVC)
    ensures OnlyThePVCAndJob(s, UpdatePVC(s, k, pvc).0, k)
  {
  }

  lemma DeletePVCFrame(s: Store, k: Key, based: Meta)
    ensures OnlyThePVCAndJob(s, Kube.DeletePVC(s, k, based).0, k)
  {
  }

  lemma ReleaseFrame(s: Store, k: Key, pvc: PVC, ret: Return)
    ensures OnlyThePVCAndJob(s, PC.Release(s, k, pvc, ret).0, k)
  {
    hide UpdatePVC, Kube.DeletePVC;
    var (s1, a) := UpdatePVC(s, k, PC.Unprotected(pvc));
    UpdatePVCFrame(s, k, PC.Unprotected(pvc));
    DeletePVCFrame(s1, k, pvc.meta);
    if a.Ok? { DeletePVCFrame(s1, k, a.obj.meta); }
  }

  /** The only Job a PVC reconcile writes is indexed under its own name. */
  lemma WrittenJobIndex(s: Store, v: Objects, got: Table<JobBody>, k: Key)
    ensures var t, t' := s.objs.jobs, PC.Reconciled(s, v, got, k).0.objs.jobs;
            k in t' && (k !in t || t'[k] != t[k]) ==> JobIndex(t'[k]) == Some(k.name)
  {
    hide PC.SendJob, PC.JobRequestOf, PC.Release;
    if k in v.pvcs && k in v.bindings {
      var pvc, r := v.pvcs[k], PC.JobRequestOf(v, got, k, v.bindings[k]);
      ReleaseLeavesJobs(s, k, pvc, Finished);
      ReleaseLeavesJobs(s, k, pvc, Requeue);
      if !r.NoRequest? {
        SentJobIndex(s, v, got, k);
        ReleaseLeavesJobs(PC.SendJob(s, k, r).0, k, pvc, Requeue);
      }
    }
  }

  lemma ReleaseLeavesJobs(s: Store, k: Key, pvc: PVC, ret: Return)
    ensures PC.Release(s, k, pvc, ret).0.objs.jobs == s.objs.jobs
  {
  }

  lemma SentJobIndex(s: Store, v: Objects, got: Table<JobBody>, k: Key)
    requires k in v.bindings && !PC.JobRequestOf(v, got, k, v.bindings[k]).NoRequest?
    ensures var t, t' := s.objs.jobs, PC.SendJob(s, k, PC.JobRequestOf(v, got, k, v.bindings[k])).0.objs.jobs;
            k in t' && (k !in t || t'[k] != t[k]) ==> JobIndex(t'[k]) == Some(k.name)
  {
  }

  // ---------------------------------------------------------------- non-interference

  /** v and v' show the reconciles of the binding and the PVC at k the same things. */
  ghost predicate Agree(v: Objects, v': Objects, k: Key) {
    && v'.fluentPVCs == v.fluentPVCs && v'.pods == v.pods && v'.now == v.now
    && AgreeAt(v.bindings, v'.bindings, k) && AgreeAt(v.pvcs, v'.pvcs, k) && AgreeAt(v.jobs, v'.jobs, k)
    && JobsOwnedBy(v'.jobs, k.name) == JobsOwnedBy(v.jobs, k.name)
    && forall j :: j in JobsOwnedBy(v.jobs, k.name) ==> v'.jobs[j] == v.jobs[j]
  }

  predicate AgreeAt<T(==)>(t: Table<T>, t': Table<T>, k: Key) {
    (k in t' <==> k in t) && (k in t ==> t'[k] == t[k])
  }

  /** Names being unique, what a reconcile of another name writes is invisible to the reconciles of k. */
  lemma BindingReconcileElsewhere(s: Store, v: Objects, k: Key, k2: Key)
    requires k2.name != k.name
    ensures Agree(s.objs, BC.Reconciled(s, v, k2).0.objs, k)
  {
    BindingReconcileFrame(s, v, k2);
  }

  lemma PVCReconcileElsewhere(s: Store, v: Objects, got: Table<JobBody>, k: Key, k2: Key)
    requires k2.name != k.name && k2 !in JobsOwnedBy(s.objs.jobs, k.name)
    ensures Agree(s.objs, PC.Reconciled(s, v, got, k2).0.objs, k)
  {
    PVCReconcileFrame(s, v, got, k2);
    WrittenJobIndex(s, v, got, k2);
    AgreeButOne(s.objs, PC.Reconciled(s, v, got, k2).0.objs, k, k2);
  }

  lemma AgreeButOne(v: Objects, v': Objects, k: Key, k2: Key)
    requires k2.name != k.name && k2 !in JobsOwnedBy(v.jobs, k.name)
    requires v' == v.(pvcs := v'.pvcs, jobs := v'.jobs) && SameBut(v.pvcs, v'.pvcs, k2) && SameBut(v.jobs, v'.jobs, k2)
    requires k2 in v'.jobs ==> (k2 in v.jobs && JobIndex(v'.jobs[k2]) == JobIndex(v.jobs[k2])) || JobIndex(v'.jobs[k2]) == Some(k2.name)
    ensures Agree(v, v', k)
  {
    var js, js' := JobsOwnedBy(v.jobs, k.name), JobsOwnedBy(v'.jobs, k.name);
    assert forall j :: j in js ==> j in js';
    assert forall j :: j in js' ==> j in js;
  }

  /** What a reconcile decides depends on nothing else: views that agree around k lead to one decision. */
  lemma DecisionsAreLocal(v: Objects, v': Objects, got: Table<JobBody>, got': Table<JobBody>, k: Key)
    requires Agree(v, v', k) && AgreeAt(got, got', k) && (k in v.bindings ==> v.bindings[k].body.pvc.name == k.name)
    ensures BC.PlanOf(v', k) == BC.PlanOf(v, k)
    ensures PC.MayApply(v', k) == PC.MayApply(v, k) && PC.MayRelease(v', k) == PC.MayRelease(v, k)
    ensures k in v.bindings ==> PC.JobRequestOf(v', got', k, v.bindings[k]) == PC.JobRequestOf(v, got, k, v.bindings[k])
  {
    hide BC.Verdict;
    if k in v.bindings {
      var b := v.bindings[k];
      LocalVerdict(v, v', k, b, None);
      match BC.SearchPod(v, k, b)
      case PodAt(_, p) => LocalVerdict(v, v', k, b, Some(p));
      case _ =>
    }
  }

  lemma LocalVerdict(v: Objects, v': Objects, k: Key, b: Binding, pod: Option<Pod>)
    requires Agree(v, v', k) && b.body.pvc.name == k.name
    ensures BC.Verdict(v', k, b, pod) == BC.Verdict(v, k, b, pod)
  {
    hide BC.JobVerdict;
    LocalJobVerdict(v, v', k, b);
  }

  lemma LocalJobVerdict(v: Objects, v': Objects, k: Key, b: Binding)
    requires Agree(v, v', k)
    ensures BC.JobVerdict(v', k, b) == BC.JobVerdict(v, k, b)
  {
    var js := JobsOwnedBy(v.jobs, k.name);
    if |js| == 1 {
      var jk :| jk in js;
      forall x | x in js ensures x == jk { SingletonChoice(js, x, jk); }
    }
  }
}
