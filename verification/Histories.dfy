/** Whole runs looked back upon: what was seen before a binding was given up or its pod recorded, and who
    took the finalizers away that are not the operator's. */
module Histories {
  import opened Conditions
  import opened PodSpecs
  import opened Kube
  import opened Utils
  import opened Protocol
  import opened Invariants
  import opened Preservation
  import opened Runs
  import opened StaleReads
  import opened Decisions
  import FinalizerChains
  import BC = BindingController
  import PC = PVCController
  import FC = FluentPVCController
  import DC = PodController

  // ---------------------------------------------------------------- the timeout

  /** THE TIMEOUT, with reads as stale as may be: no binding is PodMissing before it is an hour old. */
  lemma {:induction false} GivenUpAfterAnHour(ss: seq<State>, acts: seq<Action>, j: nat, k: Key)
    requires IsRun(ss, acts) && j < |ss| && k in ss[j].Bindings() && Is(ss[j].Bindings()[k], PodMissing)
    ensures ss[j].store.objs.now - ss[j].Bindings()[k].meta.created > 3600
  {
    hide Inv, Evolves, Next, Enabled, StepAt;
    assert j > 0;
    RunClock(ss, acts, j - 1, j);
    if k in ss[j - 1].Bindings() && Is(ss[j - 1].Bindings()[k], PodMissing) {
      GivenUpAfterAnHour(ss, acts, j - 1, k);
      BindingsOnlyAdvance(ss, acts, j - 1, j, k);
    } else {
      NewlyGivenUp(ss, acts, j - 1, k);
    }
  }

  lemma NewlyGivenUp(ss: seq<State>, acts: seq<Action>, j: nat, k: Key)
    requires IsRun(ss, acts) && j < |acts| && k in ss[j + 1].Bindings() && Is(ss[j + 1].Bindings()[k], PodMissing)
    requires !(k in ss[j].Bindings() && Is(ss[j].Bindings()[k], PodMissing))
    ensures ss[j].store.objs.now - ss[j + 1].Bindings()[k].meta.created > 3600
  {
    hide Inv, Evolves, Enabled, Fits, BindingPlanWrite;
    var s, s' := ss[j], ss[j + 1];
    var h := TheWriteAtK(ss, acts, j, k);
    var f := acts[j].from;
    var v := View(f);
    var c := ConditionsWereSaved(s, k, f);
    var b := s.Bindings()[k];
    var b1 :| s'.Bindings()[k] == Stamped(b1, s.store.nextRv) && Fits(v, k, b, PodOfVerdict(v, k), c, b1);
    OnlyAfterAnHour(v, k, b, PodOfVerdict(v, k), c, b1);
    assert StepAt(ss, acts, j);
    var n :| 0 <= n <= j && ss[n] == f.clock;
    RunClock(ss, acts, n, j);
  }

  lemma OnlyAfterAnHour(v: Objects, k: Key, b: Binding, pod: Option<Pod>, c: Change, b1: Binding)
    requires Fits(v, k, b, pod, c, b1) && Is(b1, PodMissing) && !Is(b, PodMissing)
    ensures v.now - b.meta.created > 3600 && b1.meta == b.meta
  {
    hide SetStatusCondition, IsTrue;
  }

  // ---------------------------------------------------------------- the recorded pod

  /** THE RECORDED POD, with reads as stale as may be: whatever pod a binding has recorded was, in some
      earlier state, the pod of that name in its namespace, and it mounted the binding's claim and carried
      the label of its FluentPVC. */
  lemma {:induction false} RecordedPodMountedItsClaim(ss: seq<State>, acts: seq<Action>, j: nat, k: Key) returns (h: nat)
    requires IsRun(ss, acts) && j < |ss| && k in ss[j].Bindings() && ss[j].Bindings()[k].body.pod.uid != 0
    ensures h <= j
    ensures var b := ss[j].Bindings()[k];
            var pk := Key(k.ns, b.body.pod.name);
            && pk in ss[h].Pods() && ss[h].Pods()[pk].meta.uid == b.body.pod.uid
            && var pod := ss[h].Pods()[pk].body;
               && (exists i :: 0 <= i < |pod.spec.volumes| && pod.spec.volumes[i].value == Claim(b.body.pvc.name))
               && POD_LABEL_FLUENT_PVC_NAME in pod.labels && pod.labels[POD_LABEL_FLUENT_PVC_NAME] == b.body.fluentPVC.name
  {
    hide Inv, Evolves, Next, Enabled, StepAt;
    assert j > 0;
    if k in ss[j - 1].Bindings() && ss[j - 1].Bindings()[k].body.pod == ss[j].Bindings()[k].body.pod {
      h := RecordedPodMountedItsClaim(ss, acts, j - 1, k);
      BindingsOnlyAdvance(ss, acts, j - 1, j, k);
    } else {
      h := NewlyRecorded(ss, acts, j - 1, k);
    }
  }

  lemma NewlyRecorded(ss: seq<State>, acts: seq<Action>, j: nat, k: Key) returns (h: nat)
    requires IsRun(ss, acts) && j < |acts| && k in ss[j + 1].Bindings() && ss[j + 1].Bindings()[k].body.pod.uid != 0
    requires !(k in ss[j].Bindings() && ss[j + 1].Bindings()[k].body.pod == ss[j].Bindings()[k].body.pod)
    ensures h <= j
    ensures var b := ss[j + 1].Bindings()[k];
            var pk := Key(k.ns, b.body.pod.name);
            pk in ss[h].Pods() && ss[h].Pods()[pk].meta.uid == b.body.pod.uid && Suits(ss[h].Pods()[pk], b)
  {
    hide Inv, Evolves, Enabled, BindingPlanWrite, SourcesPast, Suits;
    var s, a := ss[j], acts[j];
    RunStep(ss, acts, j);
    if !(a.BindingWrite? && a.k == k) {
      OthersKeepConditions(s, a, k);
    }
    assert StepAt(ss, acts, j);
    h :| 0 <= h <= j && ss[h] == a.from.pods;
    ItWasFilled(s, ss[j + 1], k, a.from);
  }

  lemma ItWasFilled(s: State, s': State, k: Key, f: Sources)
    requires Inv(s) && SourcesPast(f, s) && s'.store == BindingPlanWrite(s.store, View(f), k)
    requires k in s'.Bindings() && !(k in s.Bindings() && s'.Bindings()[k].body.pod == s.Bindings()[k].body.pod)
    ensures var b := s'.Bindings()[k];
            var pk := Key(k.ns, b.body.pod.name);
            pk in f.pods.Pods() && f.pods.Pods()[pk].meta.uid == b.body.pod.uid && Suits(f.pods.Pods()[pk], b)
  {
    hide Inv, BindingPlanWrite, SourcesPast, BC.PlanOf, Suits, Ordered;
    var v := BindingWriteStep(s, k, f);
    OrderedView(f, s, k);
    ChangeOfPodIsAFill(s, v, k);
    FillsExactlyWhen(v, k);
    var b, plan := v.bindings[k], BC.PlanOf(v, k);
    var pk :| && Candidate(v, k, b, pk) && plan.pod == v.pods[pk]
              && plan.b == b.(body := b.body.(pod := Identity(pk.name, plan.pod.meta.uid)));
    StillSuits(plan.pod, b, s'.Bindings()[k]);
  }

  lemma ChangeOfPodIsAFill(s: State, v: Objects, k: Key)
    requires BindingEffect(s.store, BindingPlanWrite(s.store, v, k), v, k)
    requires k in v.bindings ==> Ordered(v.bindings[k].body.conditions)
    requires var t' := BindingPlanWrite(s.store, v, k).objs.bindings;
             k in t' && !(k in s.Bindings() && t'[k].body.pod == s.Bindings()[k].body.pod)
    ensures k in v.bindings && BC.PlanOf(v, k).Fill?
    ensures BindingPlanWrite(s.store, v, k).objs.bindings[k].body == BC.PlanOf(v, k).b.body
  {
    hide BC.PlanOf, BindingPlanWrite, Ordered;
    if k in v.bindings {
      PlanIsAboutTheBinding(v, k);
      if BC.PlanOf(v, k).Adopt? { AdoptKeeps(v, k); }
    }
  }

  lemma StillSuits(pod: Pod, b: Binding, b': Binding)
    requires Suits(pod, b) && b'.body.pvc == b.body.pvc && b'.body.fluentPVC == b.body.fluentPVC
    ensures Suits(pod, b')
  {
  }

  // ---------------------------------------------------------------- other people's finalizers

  predicate Holds<T>(t: Table<T>, k: Key, uid: Uid, f: Finalizer) {
    k in t && t[k].meta.uid == uid && f in t[k].meta.finalizers
  }

  /** Nobody but those who set them takes a finalizer other than pvc-protection from a PVC, nor the PVC
      from under it: not the release, not a deletion, not a strip. */
  lemma ForeignHoldOnPVC(s: State, a: Action, k: Key, uid: Uid, f: Finalizer)
    requires Inv(s) && Enabled(s, a) && ReadsPast(a, s)
    requires Holds(s.PVCs(), k, uid, f) && f != PVCProtection && !(a.SetForeignFinalizers? && a.k == k)
    ensures Holds(Next(s, a).PVCs(), k, uid, f)
  {
    hide Inv, Evolves;
    if a.UserPVC? || a.SetClaimPhase? || a.SetForeignFinalizers? || a.DeletePVC? || a.StripPVC? {
      EventsKeepForeign(s, a, k, uid, f);
    } else if a.ReleaseWrite? {
      ReleaseKeepsForeign(s, a, k, uid, f);
    } else {
      OthersKeepForeign(s, a, k, uid, f);
    }
  }

  lemma EventsKeepForeign(s: State, a: Action, k: Key, uid: Uid, f: Finalizer)
    requires Enabled(s, a) && (a.UserPVC? || a.SetClaimPhase? || a.SetForeignFinalizers? || a.DeletePVC? || a.StripPVC?)
    requires Holds(s.PVCs(), k, uid, f) && f != PVCProtection && !(a.SetForeignFinalizers? && a.k == k)
    ensures Holds(Next(s, a).PVCs(), k, uid, f)
  {
  }

  lemma ReleaseKeepsForeign(s: State, a: Action, k: Key, uid: Uid, f: Finalizer)
    requires Inv(s) && a.ReleaseWrite? && ReadsPast(a, s) && Holds(s.PVCs(), k, uid, f) && f != PVCProtection
    ensures Holds(Next(s, a).PVCs(), k, uid, f)
  {
    hide Inv, Evolves;
    var v := View(a.from);
    if PC.MayRelease(v, a.k) {
      StalePVC(a.from.pvcs, s, a.k);
      UnprotectedKeepsForeign(s.store, a.k, v.pvcs[a.k], k, uid, f);
    }
  }

  lemma UnprotectedKeepsForeign(s: Store, pk: Key, pvc: PVC, k: Key, uid: Uid, f: Finalizer)
    requires Cas(s.objs.pvcs, pk, pvc) && Holds(s.objs.pvcs, k, uid, f) && f != PVCProtection
    ensures Holds(UpdatePVC(s, pk, PC.Unprotected(pvc)).0.objs.pvcs, k, uid, f)
  {
  }

  lemma OthersKeepForeign(s: State, a: Action, k: Key, uid: Uid, f: Finalizer)
    requires Enabled(s, a) && Holds(s.PVCs(), k, uid, f)
    requires !a.UserPVC? && !a.SetClaimPhase? && !a.SetForeignFinalizers? && !a.DeletePVC? && !a.StripPVC? && !a.ReleaseWrite?
    ensures Holds(Next(s, a).PVCs(), k, uid, f)
  {
    match a
    case BindingWrite(k2, f2) => BindingWritesOnlyBindings(s.store, View(f2), k2);
    case JobWrite(k2, f2) => JobWriteTouchesJobs(s.store, View(f2), f2.got.Jobs(), k2);
    case _ =>
  }

  /** OTHER PEOPLE'S FINALIZERS, with reads as stale as may be: when a PVC no longer holds a finalizer
      that is not pvc-protection, those who own it took it away; until then the PVC was there, whatever
      the operator released. */
  lemma {:induction false} ForeignFinalizersGoByTheirOwners(ss: seq<State>, acts: seq<Action>, i: nat, j: nat, k: Key, uid: Uid, f: Finalizer)
      returns (h: nat)
    requires IsRun(ss, acts) && i <= j < |ss| && f != PVCProtection
    requires Holds(ss[i].PVCs(), k, uid, f) && !Holds(ss[j].PVCs(), k, uid, f)
    ensures i <= h < j && acts[h].SetForeignFinalizers? && acts[h].k == k && Holds(ss[h].PVCs(), k, uid, f)
    decreases j
  {
    hide Inv, Evolves, Next, Enabled, StepAt;
    if Holds(ss[j - 1].PVCs(), k, uid, f) {
      h := j - 1;
      RunStep(ss, acts, h);
      if !(acts[h].SetForeignFinalizers? && acts[h].k == k) {
        ForeignHoldOnPVC(ss[h], acts[h], k, uid, f);
      }
    } else {
      h := ForeignFinalizersGoByTheirOwners(ss, acts, i, j - 1, k, uid, f);
    }
  }

  /** The same for a binding, from which nothing in the protocol takes a finalizer but its own. */
  lemma ForeignHoldOnBinding(s: State, a: Action, k: Key, uid: Uid, f: Finalizer)
    requires Inv(s) && Enabled(s, a) && ReadsPast(a, s)
    requires Holds(s.Bindings(), k, uid, f) && f != BindingProtection
    ensures Holds(Next(s, a).Bindings(), k, uid, f)
  {
    hide Inv, Evolves;
    if a.BindingWrite? {
      BindingWriteKeepsForeign(s, a, k, uid, f);
    } else {
      OthersKeepForeignOnBindings(s, a, k, uid, f);
    }
  }

  lemma BindingWriteKeepsForeign(s: State, a: Action, k: Key, uid: Uid, f: Finalizer)
    requires Inv(s) && a.BindingWrite? && ReadsPast(a, s) && Holds(s.Bindings(), k, uid, f) && f != BindingProtection
    ensures Holds(Next(s, a).Bindings(), k, uid, f)
  {
    hide Inv, Evolves, BC.PlanOf, BindingPlanWrite, SourcesPast, Ordered;
    var v := BindingWriteStep(s, a.k, a.from);
    OrderedView(a.from, s, a.k);
    EffectKeepsForeign(s, v, a.k, k, uid, f);
  }

  lemma EffectKeepsForeign(s: State, v: Objects, bk: Key, k: Key, uid: Uid, f: Finalizer)
    requires BindingEffect(s.store, BindingPlanWrite(s.store, v, bk), v, bk)
    requires bk in v.bindings ==> Ordered(v.bindings[bk].body.conditions)
    requires Holds(s.Bindings(), k, uid, f) && f != BindingProtection
    ensures Holds(BindingPlanWrite(s.store, v, bk).objs.bindings, k, uid, f)
  {
    hide BC.PlanOf, BindingPlanWrite, Ordered;
    FinalizerChains.PlanAboutBinding(v, bk);
    if bk in v.bindings { PlanIsAboutTheBinding(v, bk); }
  }

  lemma OthersKeepForeignOnBindings(s: State, a: Action, k: Key, uid: Uid, f: Finalizer)
    requires Enabled(s, a) && !a.BindingWrite? && Holds(s.Bindings(), k, uid, f)
    ensures Holds(Next(s, a).Bindings(), k, uid, f)
  {
    match a
    case JobWrite(k2, f2) => JobWriteTouchesJobs(s.store, View(f2), f2.got.Jobs(), k2);
    case _ =>
  }

  /** A FluentPVC loses no finalizer but its own, and to nobody but its controller; a pod is never removed
      by the operator, which at most asks for its deletion. */
  lemma OperatorSparesFluentPVCsAndPods(s: State, a: Action, k: Key, uid: Uid, f: Finalizer)
    requires Inv(s) && Enabled(s, a) && ReadsPast(a, s) && ByOperator(a)
    ensures Holds(s.FluentPVCs(), k, uid, f) && f != FluentPVCProtection ==> Holds(Next(s, a).FluentPVCs(), k, uid, f)
    ensures k in s.Pods() ==>
              && k in Next(s, a).Pods() && Next(s, a).Pods()[k].body == s.Pods()[k].body
              && Next(s, a).Pods()[k].meta.finalizers == s.Pods()[k].meta.finalizers
  {
    hide Inv, Evolves;
    if a.FluentPVCWrite? {
      if Holds(s.FluentPVCs(), k, uid, f) && f != FluentPVCProtection { FluentPVCWriteKeepsForeign(s, a, k, uid, f); }
      OthersLeavePods(s, a);
    } else if a.PodWrite? {
      FinalizerChains.OthersLeaveFluentPVCs(s, a);
      if k in s.Pods() { PodWriteOnlyMarks(s, a, k); }
    } else {
      FinalizerChains.OthersLeaveFluentPVCs(s, a);
      OthersLeavePods(s, a);
    }
  }

  lemma FluentPVCWriteKeepsForeign(s: State, a: Action, k: Key, uid: Uid, f: Finalizer)
    requires Inv(s) && a.FluentPVCWrite? && ReadsPast(a, s) && Holds(s.FluentPVCs(), k, uid, f) && f != FluentPVCProtection
    ensures Holds(Next(s, a).FluentPVCs(), k, uid, f)
  {
    hide FC.Held, FC.Guarded, Inv, Evolves, UpdateFluentPVC;
    var v, fk := View(a.from), a.k;
    if fk in v.fluentPVCs {
      StaleFluentPVC(a.from.fluentPVCs, s, fk);
      GuardedKeepsForeign(s.store, fk, v.fluentPVCs[fk], FC.Held(v.bindings, fk.name), k, uid, f);
    }
  }

  lemma StaleFluentPVC(p: State, s: State, fk: Key)
    requires Past(p, s) && fk in p.FluentPVCs()
    ensures Cas(s.FluentPVCs(), fk, p.FluentPVCs()[fk])
  {
    if fk in s.FluentPVCs() && s.FluentPVCs()[fk].meta.rv == p.FluentPVCs()[fk].meta.rv {
      SameVersion(p.FluentPVCs(), s.FluentPVCs(), p.store.nextUid, p.store.nextRv, fk);
    }
  }

  lemma GuardedKeepsForeign(s: Store, fk: Key, fpvc: FluentPVC, held: bool, k: Key, uid: Uid, f: Finalizer)
    requires Cas(s.objs.fluentPVCs, fk, fpvc) && Holds(s.objs.fluentPVCs, k, uid, f) && f != FluentPVCProtection
    ensures Holds(UpdateFluentPVC(s, fk, FC.Guarded(fpvc, held)).0.objs.fluentPVCs, k, uid, f)
  {
  }

  lemma PodWriteOnlyMarks(s: State, a: Action, k: Key)
    requires a.PodWrite? && k in s.Pods()
    ensures k in Next(s, a).Pods() && Next(s, a).Pods()[k].body == s.Pods()[k].body
    ensures Next(s, a).Pods()[k].meta.finalizers == s.Pods()[k].meta.finalizers
  {
    hide DC.Doomed, DC.Idle;
  }
}
