/** Which guarantees hang on which reads: over runs with arbitrarily stale reads, the one read that has to
    be recent enough for each of them. */
module StaleReads {
  import opened Conditions
  import opened Kube
  import opened Utils
  import opened Protocol
  import opened Invariants
  import opened Preservation
  import opened Runs
  import opened Reconciles
  import BC = BindingController
  import PC = PVCController
  import DC = PodController

  // ---------------------------------------------------------------- who writes conditions

  /** Only the binding controller's write at k changes the conditions or the pod of the binding at k. */
  lemma OthersKeepConditions(s: State, a: Action, k: Key)
    requires Enabled(s, a) && !(a.BindingWrite? && a.k == k) && k in Next(s, a).Bindings()
    ensures (Next(s, a).Bindings()[k].body.conditions == [] && Next(s, a).Bindings()[k].body.pod.uid == NO_UID) || (k in s.Bindings() && Next(s, a).Bindings()[k].body == s.Bindings()[k].body)
  {
    match a
    case BindingWrite(k2, f) => StepIsOneWrite(s, a);
    case JobWrite(k2, f) => JobWriteTouchesJobs(s.store, View(f), f.got.Jobs(), k2);
    case _ =>
  }

  lemma OrderedView(f: Sources, s: State, k: Key)
    requires SourcesPast(f, s)
    ensures k in View(f).bindings ==> Ordered(View(f).bindings[k].body.conditions)
  {
    if k in View(f).bindings { StaleBinding(f.bindings, s, k); }
  }

  /** What the write at k found and saved when it changed the conditions there. */
  lemma ConditionsWereSaved(s: State, k: Key, f: Sources) returns (c: Change)
    requires Inv(s) && SourcesPast(f, s)
    requires var t' := BindingPlanWrite(s.store, View(f), k).objs.bindings;
             k in t' && !(k in s.Bindings() && t'[k].body.conditions == s.Bindings()[k].body.conditions)
    ensures k in s.Bindings() && k in f.bindings.Bindings() && s.Bindings()[k] == f.bindings.Bindings()[k]
    ensures !Is(s.Bindings()[k], Unknown)
    ensures var b' := BindingPlanWrite(s.store, View(f), k).objs.bindings[k];
            exists b1 :: b' == Stamped(b1, s.store.nextRv) && Fits(View(f), k, s.Bindings()[k], PodOfVerdict(View(f), k), c, b1)
    ensures PodOfVerdict(View(f), k).Some? ==> !BC.Unfilled(s.Bindings()[k])
  {
    hide BC.PlanOf, Inv, BindingPlanWrite;
    var v := BindingWriteStep(s, k, f);
    PlanIsAboutTheBinding(v, k);
    ChangeIsASave(s, v, k);
    SaveIsAVerdict(v, k);
    c := Classify(v, k, v.bindings[k], PodOfVerdict(v, k));
  }

  lemma ChangeIsASave(s: State, v: Objects, k: Key)
    requires k in v.bindings ==> match BC.PlanOf(v, k)
                                 case Adopt(b1) => b1.body.conditions == v.bindings[k].body.conditions
                                 case Fill(b1, _) => b1.body.conditions == v.bindings[k].body.conditions
                                 case _ => true
    requires BindingEffect(s.store, BindingPlanWrite(s.store, v, k), v, k)
    requires var t' := BindingPlanWrite(s.store, v, k).objs.bindings;
             k in t' && !(k in s.Bindings() && t'[k].body.conditions == s.Bindings()[k].body.conditions)
    ensures k in s.Bindings() && k in v.bindings && s.Bindings()[k] == v.bindings[k] && BC.PlanOf(v, k).Save?
    ensures BindingPlanWrite(s.store, v, k).objs.bindings[k] == Stamped(BC.PlanOf(v, k).b, s.store.nextRv)
  {
    hide BC.PlanOf, BindingPlanWrite;
  }

  // ---------------------------------------------------------------- pods

  /** The bound pod is gone for good or in a terminal phase. */
  ghost predicate PodEnded(pods: Table<PodBody>, b: Binding) {
    forall pk :: pk in pods && pods[pk].meta.uid == b.body.pod.uid ==> Terminal(pods[pk].body.phase)
  }

  /** Pods end and are replaced by new ones; none comes back to life. */
  ghost predicate PodsFade(t: Table<PodBody>, t': Table<PodBody>, nextUid: Uid) {
    forall pk :: pk in t' ==>
      t'[pk].meta.uid >= nextUid ||
      (pk in t && t'[pk].meta.uid == t[pk].meta.uid && (Terminal(t[pk].body.phase) ==> Terminal(t'[pk].body.phase)))
  }

  lemma PodsFadeAlways(s: State, a: Action)
    requires Enabled(s, a)
    ensures PodsFade(s.Pods(), Next(s, a).Pods(), s.store.nextUid)
  {
    hide Next, Enabled, PodsFade;
    if a.PodWrite? {
      PodWriteFades(s, a);
    } else if a.CreatePod? || a.EditPod? || a.DeletePod? || a.ReapPod? {
      PodEventFades(s, a);
    } else {
      OthersLeavePods(s, a);
      PodsFadeRefl(s.Pods(), s.store.nextUid);
    }
  }

  lemma PodEventFades(s: State, a: Action)
    requires Enabled(s, a) && (a.CreatePod? || a.EditPod? || a.DeletePod? || a.ReapPod?)
    ensures PodsFade(s.Pods(), Next(s, a).Pods(), s.store.nextUid)
  {
    hide PodsFade;
    PodFades(s, a.k, Next(s, a).Pods());
  }

  lemma PodFades(s: State, k: Key, t': Table<PodBody>)
    requires t' == s.Pods() || t' == s.Pods() - {k} ||
             (k in t' && t' == s.Pods()[k := t'[k]] &&
              (if k in s.Pods() then t'[k].meta.uid == s.Pods()[k].meta.uid && (Terminal(s.Pods()[k].body.phase) ==> Terminal(t'[k].body.phase))
               else t'[k].meta.uid == s.store.nextUid))
    ensures PodsFade(s.Pods(), t', s.store.nextUid)
  {
  }

  lemma PodWriteFades(s: State, a: Action)
    requires Enabled(s, a) && a.PodWrite?
    ensures PodsFade(s.Pods(), Next(s, a).Pods(), s.store.nextUid)
  {
    hide DC.Doomed, DC.Idle;
  }

  lemma OthersLeavePods(s: State, a: Action)
    requires Enabled(s, a) && !a.PodWrite? && !a.CreatePod? && !a.EditPod? && !a.DeletePod? && !a.ReapPod?
    ensures Next(s, a).Pods() == s.Pods()
  {
    match a
    case BindingWrite(k, f) => BindingWritesOnlyBindings(s.store, View(f), k);
    case JobWrite(k, f) => JobWriteTouchesJobs(s.store, View(f), f.got.Jobs(), k);
    case _ =>
  }

  lemma PodsFadeTrans(t: Table<PodBody>, t': Table<PodBody>, t'': Table<PodBody>, u: Uid, u': Uid)
    requires PodsFade(t, t', u) && PodsFade(t', t'', u') && u <= u'
    ensures PodsFade(t, t'', u)
  {
  }

  lemma {:induction false} RunPodsFade(ss: seq<State>, acts: seq<Action>, i: nat, j: nat)
    requires IsRun(ss, acts) && i <= j < |ss|
    ensures PodsFade(ss[i].Pods(), ss[j].Pods(), ss[i].store.nextUid)
    ensures ss[i].store.nextUid <= ss[j].store.nextUid
  {
    hide Inv, Next, Enabled, PodsFade, StepAt;
    if i < j {
      RunPodsFade(ss, acts, i, j - 1);
      RunStep(ss, acts, j - 1);
      PodsFadeAlways(ss[j - 1], acts[j - 1]);
      PodsFadeTrans(ss[i].Pods(), ss[j - 1].Pods(), ss[j].Pods(), ss[i].store.nextUid, ss[j - 1].store.nextUid);
    } else {
      PodsFadeRefl(ss[i].Pods(), ss[i].store.nextUid);
    }
  }

  lemma PodsFadeRefl(t: Table<PodBody>, u: Uid)
    ensures PodsFade(t, t, u)
  {
  }

  // ---------------------------------------------------------------- mutual exclusion

  /** The list of pods a binding write at k goes by is not older than the pod it looks for. */
  predicate PodListKnowsThePod(a: Action, k: Key) {
    a.BindingWrite? && a.k == k && k in a.from.bindings.Bindings() ==>
      a.from.bindings.Bindings()[k].body.pod.uid < a.from.pods.store.nextUid
  }

  predicate PodListsKnowThePod(ss: seq<State>, acts: seq<Action>, k: Key) {
    forall i :: 0 <= i < |acts| ==> PodListKnowsThePod(acts[i], k)
  }

  /** A pod that a list no older than itself does not show running has ended. */
  lemma OverMeansEnded(p: State, s: State, v: Objects, k: Key, b: Binding)
    requires v.pods == p.Pods() && k in v.bindings && v.bindings[k] == b && !BC.Unfilled(b)
    requires PodHome(k, b, s.Pods()) && PodsFade(p.Pods(), s.Pods(), p.store.nextUid) && b.body.pod.uid < p.store.nextUid
    requires PodOfVerdict(v, k).Some? ==> Terminal(PodOfVerdict(v, k).value.body.phase)
    ensures PodEnded(s.Pods(), b)
  {
    var at := BC.SearchPod(v, k, b);
  }

  lemma HomeOfPod(s: State, k: Key)
    requires Inv(s) && k in s.Bindings()
    ensures PodHome(k, s.Bindings()[k], s.Pods()) && BindingOK(s, k, s.Bindings()[k])
  {
  }

  lemma EndedStays(s: State, s': State, b: Binding)
    requires PodsFade(s.Pods(), s'.Pods(), s.store.nextUid) && b.body.pod.uid < s.store.nextUid && PodEnded(s.Pods(), b)
    ensures PodEnded(s'.Pods(), b)
  {
  }

  /** A binding that was OutOfUse a step ago has the pod it had then. */
  lemma SamePodAsBefore(s: State, s': State, k: Key)
    requires Inv(s) && Inv(s') && Evolves(s, s') && k in s.Bindings() && k in s'.Bindings() && Is(s.Bindings()[k], OutOfUse)
    ensures s'.Bindings()[k].body.pod == s.Bindings()[k].body.pod && s.Bindings()[k].body.pod.uid < s.store.nextUid
  {
    assert BindingOK(s, k, s.Bindings()[k]);
  }

  lemma OnlyToOutOfUseSetsIt(v: Objects, k: Key, b: Binding, pod: Option<Pod>, c: Change, b1: Binding)
    requires Fits(v, k, b, pod, c, b1) && Is(b1, OutOfUse) && !Is(b, OutOfUse)
    ensures c.ToOutOfUse? && Is(b, Ready)
  {
    hide SetStatusCondition, IsTrue;
  }

  /** OutOfUse means that the bound pod has ended, provided no list of pods was older than the pod. */
  lemma {:induction false} OutOfUseMeansEnded(ss: seq<State>, acts: seq<Action>, j: nat, k: Key)
    requires IsRun(ss, acts) && j < |ss| && PodListsKnowThePod(ss, acts, k)
    requires k in ss[j].Bindings() && Is(ss[j].Bindings()[k], OutOfUse)
    ensures PodEnded(ss[j].Pods(), ss[j].Bindings()[k])
  {
    hide Inv, Evolves, Next, Enabled, PodEnded, PodsFade, Fits;
    assert j > 0;
    var s, s', a := ss[j - 1], ss[j], acts[j - 1];
    RunStep(ss, acts, j - 1);
    PodsFadeAlways(s, a);
    if k in s.Bindings() && Is(s.Bindings()[k], OutOfUse) {
      OutOfUseMeansEnded(ss, acts, j - 1, k);
      SamePodAsBefore(s, s', k);
      EndedStays(s, s', s.Bindings()[k]);
      SameEnd(s'.Pods(), s.Bindings()[k], s'.Bindings()[k]);
    } else {
      NewlyOutOfUse(ss, acts, j - 1, k);
    }
  }

  lemma SameEnd(pods: Table<PodBody>, b: Binding, b': Binding)
    requires PodEnded(pods, b) && b'.body.pod.uid == b.body.pod.uid
    ensures PodEnded(pods, b')
  {
  }

  lemma NewlyOutOfUse(ss: seq<State>, acts: seq<Action>, j: nat, k: Key)
    requires IsRun(ss, acts) && j < |acts| && PodListKnowsThePod(acts[j], k)
    requires k in ss[j + 1].Bindings() && Is(ss[j + 1].Bindings()[k], OutOfUse)
    requires !(k in ss[j].Bindings() && Is(ss[j].Bindings()[k], OutOfUse))
    ensures PodEnded(ss[j + 1].Pods(), ss[j + 1].Bindings()[k])
  {
    hide Inv, Evolves, Enabled, PodEnded, PodsFade, Fits, SourcesPast, BindingPlanWrite;
    var s, s', a := ss[j], ss[j + 1], acts[j];
    var h := TheWriteAtK(ss, acts, j, k);
    var f := a.from;
    var v := View(f);
    var c := ConditionsWereSaved(s, k, f);
    var b1 :| s'.Bindings()[k] == Stamped(b1, s.store.nextRv) && Fits(v, k, s.Bindings()[k], PodOfVerdict(v, k), c, b1);
    OnlyToOutOfUseSetsIt(v, k, s.Bindings()[k], PodOfVerdict(v, k), c, b1);
    SawThePodOver(v, k, s.Bindings()[k], c, b1);
    HomeOfPod(s, k);
    RunPodsFade(ss, acts, h, j);
    OverMeansEnded(f.pods, s, v, k, s.Bindings()[k]);
    SameEnd(s.Pods(), s.Bindings()[k], s'.Bindings()[k]);
    BindingWritesOnlyBindings(s.store, v, k);
  }

  lemma SawThePodOver(v: Objects, k: Key, b: Binding, c: Change, b1: Binding)
    requires k in v.bindings && c.ToOutOfUse? && Fits(v, k, b, PodOfVerdict(v, k), c, b1)
    ensures PodOfVerdict(v, k).Some? ==> Terminal(PodOfVerdict(v, k).value.body.phase)
    ensures b1.body.pod == b.body.pod
  {
  }

  /** The step that changed the conditions at k is a binding write at k, on a list of pods of an earlier state. */
  lemma TheWriteAtK(ss: seq<State>, acts: seq<Action>, j: nat, k: Key) returns (h: nat)
    requires IsRun(ss, acts) && j < |acts|
    requires k in ss[j + 1].Bindings() && ss[j + 1].Bindings()[k].body.conditions != []
    requires !(k in ss[j].Bindings() && ss[j + 1].Bindings()[k].body.conditions == ss[j].Bindings()[k].body.conditions)
    ensures acts[j].BindingWrite? && acts[j].k == k && h <= j && ss[h] == acts[j].from.pods
    ensures Inv(ss[j]) && SourcesPast(acts[j].from, ss[j]) && ss[j + 1] == ss[j].(store := BindingPlanWrite(ss[j].store, View(acts[j].from), k))
  {
    hide Inv, Evolves, Enabled, BindingPlanWrite, SourcesPast;
    RunStep(ss, acts, j);
    if !(acts[j].BindingWrite? && acts[j].k == k) {
      OthersKeepConditions(ss[j], acts[j], k);
    }
    assert StepAt(ss, acts, j);
    h :| 0 <= h <= j && ss[h] == acts[j].from.pods;
  }

  /** MUTUAL EXCLUSION, with reads as stale as may be but for one: when a finalizer Job of a binding
      exists, the pod bound to it has ended, then and ever after, provided no binding write at k went by
      a list of pods older than the pod. */
  lemma StaleMutualExclusion(ss: seq<State>, acts: seq<Action>, i: nat, j: nat, k: Key, jk: Key)
    requires IsRun(ss, acts) && i <= j < |ss| && PodListsKnowThePod(ss, acts, k)
    requires k in ss[i].Bindings() && jk in JobsOwnedBy(ss[i].Jobs(), k.name)
    ensures Is(ss[i].Bindings()[k], OutOfUse)
    ensures PodEnded(ss[j].Pods(), ss[i].Bindings()[k])
  {
    hide Evolves, Next, Enabled, PodEnded, PodsFade;
    RunKeepsInv(ss, acts, i);
    JobMeansOutOfUse(ss[i], k, jk);
    OutOfUseMeansEnded(ss, acts, i, k);
    RunPodsFade(ss, acts, i, j);
    EndedStays(ss[i], ss[j], ss[i].Bindings()[k]);
  }

  lemma JobMeansOutOfUse(s: State, k: Key, jk: Key)
    requires Inv(s) && k in s.Bindings() && jk in JobsOwnedBy(s.Jobs(), k.name)
    ensures Is(s.Bindings()[k], OutOfUse) && s.Bindings()[k].body.pod.uid < s.store.nextUid
  {
    assert BindingOK(s, k, s.Bindings()[k]) && JobOK(s, jk, s.Jobs()[jk]);
  }

  /** The other way round: a Job beside a pod of the bound UID that has not ended goes back to a binding
      write at k that went by a list of pods from before that pod. */
  lemma BrokenExclusionHasAnOldPodList(ss: seq<State>, acts: seq<Action>, j: nat, k: Key, jk: Key) returns (i: nat)
    requires IsRun(ss, acts) && j < |ss| && k in ss[j].Bindings() && jk in JobsOwnedBy(ss[j].Jobs(), k.name)
    requires !PodEnded(ss[j].Pods(), ss[j].Bindings()[k])
    ensures i < |acts| && acts[i].BindingWrite? && acts[i].k == k && k in acts[i].from.bindings.Bindings()
    ensures acts[i].from.pods.store.nextUid <= acts[i].from.bindings.Bindings()[k].body.pod.uid
  {
    if PodListsKnowThePod(ss, acts, k) {
      StaleMutualExclusion(ss, acts, j, j, k, jk);
    }
    i :| 0 <= i < |acts| && !PodListKnowsThePod(acts[i], k);
  }

  // ---------------------------------------------------------------- a PVC not found

  /** A binding write at k, on a binding that was read, that went by a list of PVCs from before its PVC
      was made. */
  predicate PVCListTooOld(a: Action, k: Key) {
    a.BindingWrite? && a.k == k && k in a.from.bindings.Bindings() && k.name !in a.from.pvcs.log.minted
  }

  /** A PVC missing from a list no older than itself, though the operator had no leave to release it,
      was stripped. */
  lemma MissingMeansStripped(p: State, s: State, v: Objects, k: Key, b: Binding)
    requires Past(p, s) && Inv(s) && v.pvcs == p.PVCs() && k in s.Bindings() && s.Bindings()[k] == b
    requires k.name in p.log.minted && BC.FindPVC(v, k, b).None? && !Is(b, PodMissing) && !Is(b, FinalizerJobSucceeded)
    ensures b.body.pvc.uid in s.log.stripped
  {
    assert BindingOK(s, k, b);
    var m := p.log.minted[k.name];
    assert Protected(p.PVCs(), Key(m.ns, k.name), m.uid) || m.uid in p.log.released || m.uid in p.log.stripped;
  }

  lemma OnlyToUnknownSetsIt(v: Objects, k: Key, b: Binding, pod: Option<Pod>, c: Change, b1: Binding)
    requires Fits(v, k, b, pod, c, b1) && Is(b1, Unknown) && !Is(b, Unknown)
    ensures c.ToUnknown? && ReasonOf(b1.body.conditions, Unknown) == c.reason
  {
    hide SetStatusCondition, IsTrue, ReasonOf;
  }

  predicate UnknownForWantOfPVC(b: Binding) {
    Is(b, Unknown) && BlamesPVC(ReasonOf(b.body.conditions, Unknown))
  }

  /** A PVC NOT FOUND, with reads as stale as may be: a binding is Unknown for want of its PVC only if
      someone other than the operator took pvc-protection from that PVC, or a binding write at k went by
      a list of PVCs from before the PVC was made. */
  lemma {:induction false} MissingPVCHasACause(ss: seq<State>, acts: seq<Action>, j: nat, k: Key)
    requires IsRun(ss, acts) && j < |ss| && k in ss[j].Bindings() && UnknownForWantOfPVC(ss[j].Bindings()[k])
    ensures ss[j].Bindings()[k].body.pvc.uid in ss[j].log.stripped || exists i :: 0 <= i < j && PVCListTooOld(acts[i], k)
  {
    hide Inv, Evolves, Next, Enabled, PVCListTooOld;
    assert j > 0;
    var s, s' := ss[j - 1], ss[j];
    RunStep(ss, acts, j - 1);
    if k in s.Bindings() && Is(s.Bindings()[k], Unknown) {
      UnknownCarriesOn(s, s', k);
      MissingPVCHasACause(ss, acts, j - 1, k);
    } else {
      NewlyUnknown(ss, acts, j - 1, k);
    }
  }

  lemma UnknownCarriesOn(s: State, s': State, k: Key)
    requires Inv(s) && Evolves(s, s') && k in s.Bindings() && k in s'.Bindings() && Is(s.Bindings()[k], Unknown)
    ensures s'.Bindings()[k].body.conditions == s.Bindings()[k].body.conditions
    ensures s'.Bindings()[k].body.pvc == s.Bindings()[k].body.pvc && s.log.stripped <= s'.log.stripped
  {
    assert BindingOK(s, k, s.Bindings()[k]);
  }

  lemma NewlyUnknown(ss: seq<State>, acts: seq<Action>, j: nat, k: Key)
    requires IsRun(ss, acts) && j < |acts| && k in ss[j + 1].Bindings() && UnknownForWantOfPVC(ss[j + 1].Bindings()[k])
    requires !(k in ss[j].Bindings() && Is(ss[j].Bindings()[k], Unknown))
    ensures ss[j + 1].Bindings()[k].body.pvc.uid in ss[j + 1].log.stripped || PVCListTooOld(acts[j], k)
  {
    hide Inv, Evolves, Enabled, Fits, BindingPlanWrite;
    var s, s' := ss[j], ss[j + 1];
    var h := TheWriteAtK(ss, acts, j, k);
    var f := acts[j].from;
    var v := View(f);
    var c := ConditionsWereSaved(s, k, f);
    var b := s.Bindings()[k];
    var b1 :| s'.Bindings()[k] == Stamped(b1, s.store.nextRv) && Fits(v, k, b, PodOfVerdict(v, k), c, b1);
    OnlyToUnknownSetsIt(v, k, b, PodOfVerdict(v, k), c, b1);
    SawNoPVC(v, k, b, PodOfVerdict(v, k), c, b1);
    if k.name in f.pvcs.log.minted {
      MissingMeansStripped(f.pvcs, s, v, k, b);
    }
  }

  lemma SawNoPVC(v: Objects, k: Key, b: Binding, pod: Option<Pod>, c: Change, b1: Binding)
    requires c.ToUnknown? && BlamesPVC(c.reason) && Fits(v, k, b, pod, c, b1)
    ensures BC.FindPVC(v, k, b).None? && !Is(b, PodMissing) && !Is(b, FinalizerJobSucceeded)
    ensures b1.body.pvc == b.body.pvc
  {
  }

  // ---------------------------------------------------------------- one outcome

  /** A binding write at k goes by the present Job of that key, a Job write at k by the present binding. */
  predicate JobReadPresent(s: State, a: Action, k: Key) {
    && (a.BindingWrite? && a.k == k ==> AgreeAt(a.from.jobs.Jobs(), s.Jobs(), k))
    && (a.JobWrite? && a.k == k ==> AgreeAt(a.from.bindings.Bindings(), s.Bindings(), k))
  }

  predicate JobReadsPresent(ss: seq<State>, acts: seq<Action>, k: Key)
    requires |ss| == |acts| + 1
  {
    forall i :: 0 <= i < |acts| ==> JobReadPresent(ss[i], acts[i], k)
  }

  /** The Job at k, if it is indexed under its own name, has failed. */
  predicate OwnJobFailed(jobs: Table<JobBody>, k: Key) {
    k in jobs && JobIndex(jobs[k]) == Some(k.name) ==> IsJobFailed(jobs[k])
  }

  predicate FailureIsFinal(s: State, k: Key) {
    k in s.Bindings() && Is(s.Bindings()[k], FinalizerJobFailed) ==>
      !Is(s.Bindings()[k], FinalizerJobSucceeded) && OwnJobFailed(s.Jobs(), k)
  }

  /** The Job at k of a binding that knows of a failure stays as it is or goes. */
  lemma FailedJobStays(s: State, a: Action, k: Key)
    requires Inv(s) && Enabled(s, a) && k in s.Bindings() && Is(s.Bindings()[k], FinalizerJobFailed) && JobReadPresent(s, a, k)
    requires OwnJobFailed(s.Jobs(), k)
    ensures OwnJobFailed(Next(s, a).Jobs(), k)
  {
    hide Inv;
    BindingIsOK(s, k);
    if a.UserJob? || a.SetJobStatus? || a.DeleteJob? {
      FailedJobEvent(s, a, k);
    } else if a.JobWrite? {
      FailedJobWrite(s, a, k);
    } else {
      OthersLeaveJobs(s, a);
    }
  }

  lemma FailedJobEvent(s: State, a: Action, k: Key)
    requires Enabled(s, a) && (a.UserJob? || a.SetJobStatus? || a.DeleteJob?)
    requires OwnJobFailed(s.Jobs(), k)
    ensures OwnJobFailed(Next(s, a).Jobs(), k)
  {
    match a
    case UserJob(_, _) =>
    case SetJobStatus(_, _) =>
    case DeleteJob(_) =>
  }

  lemma FailedJobWrite(s: State, a: Action, k: Key)
    requires Enabled(s, a) && a.JobWrite? && JobReadPresent(s, a, k)
    requires k in s.Bindings() && Is(s.Bindings()[k], FinalizerJobFailed) && Ordered(s.Bindings()[k].body.conditions)
    ensures AgreeAt(s.Jobs(), Next(s, a).Jobs(), k)
  {
    if a.k != k {
      StepIsOneWrite(s, a);
    }
  }

  lemma OthersLeaveJobs(s: State, a: Action)
    requires Enabled(s, a) && !a.JobWrite? && !a.UserJob? && !a.SetJobStatus? && !a.DeleteJob?
    ensures Next(s, a).Jobs() == s.Jobs()
  {
    match a
    case BindingWrite(k, f) => BindingWritesOnlyBindings(s.store, View(f), k);
    case _ =>
  }

  lemma OnlyItsJob(p: State, s: State, k: Key, jk: Key)
    requires Past(p, s) && k in s.Bindings() && BindingOK(s, k, s.Bindings()[k]) && jk in JobsOwnedBy(p.Jobs(), k.name)
    ensures jk == k
  {
    assert JobOK(p, jk, p.Jobs()[jk]);
  }

  lemma ChangeKeepsFailure(v: Objects, k: Key, b: Binding, pod: Option<Pod>, c: Change, b1: Binding)
    requires Fits(v, k, b, pod, c, b1) && Ordered(b.body.conditions) && Is(b1, FinalizerJobFailed)
    requires c.JobSeen? ==> c.jk == k && k in v.jobs
    requires Is(b, FinalizerJobFailed) ==> !Is(b, FinalizerJobSucceeded) && (c.JobSeen? ==> IsJobFailed(v.jobs[k]))
    ensures !Is(b1, FinalizerJobSucceeded)
    ensures Is(b, FinalizerJobFailed) || (c.JobSeen? && IsJobFailed(v.jobs[k]))
  {
    hide SetStatusCondition, IsTrue;
    match c
    case JobSeen(jk) => JobStatusVerdictKeeps(v.now, b, v.jobs[jk]);
    case JobsGone => NoJobVerdictKeeps(v.now, b);
    case _ =>
  }

  lemma {:induction false} FailureStaysFinal(ss: seq<State>, acts: seq<Action>, j: nat, k: Key)
    requires IsRun(ss, acts) && j < |ss| && JobReadsPresent(ss, acts, k)
    ensures FailureIsFinal(ss[j], k)
  {
    hide Inv, Evolves, Next, Enabled, FailureIsFinal, JobReadPresent;
    if j == 0 {
      NoFailureAtFirst(k);
    } else {
      FailureStaysFinal(ss, acts, j - 1, k);
      FailureStep(ss, acts, j - 1, k);
    }
  }

  lemma NoFailureAtFirst(k: Key)
    ensures FailureIsFinal(Init, k)
  {
  }

  lemma FailureStep(ss: seq<State>, acts: seq<Action>, j: nat, k: Key)
    requires IsRun(ss, acts) && j < |acts| && JobReadPresent(ss[j], acts[j], k) && FailureIsFinal(ss[j], k)
    ensures FailureIsFinal(ss[j + 1], k)
  {
    hide Inv, Evolves, Next, Enabled, Fits;
    var s, s' := ss[j], ss[j + 1];
    RunStep(ss, acts, j);
    if k in s'.Bindings() && Is(s'.Bindings()[k], FinalizerJobFailed) {
      if k in s.Bindings() && s'.Bindings()[k].body.conditions == s.Bindings()[k].body.conditions {
        FailedJobStays(s, acts[j], k);
      } else {
        FailureRecorded(ss, acts, j, k);
      }
    }
  }

  lemma FailureRecorded(ss: seq<State>, acts: seq<Action>, j: nat, k: Key)
    requires IsRun(ss, acts) && j < |acts| && JobReadPresent(ss[j], acts[j], k) && FailureIsFinal(ss[j], k)
    requires k in ss[j + 1].Bindings() && Is(ss[j + 1].Bindings()[k], FinalizerJobFailed)
    requires !(k in ss[j].Bindings() && ss[j + 1].Bindings()[k].body.conditions == ss[j].Bindings()[k].body.conditions)
    ensures FailureIsFinal(ss[j + 1], k)
  {
    hide Inv, Evolves, Enabled, Fits, BindingPlanWrite;
    var s, s' := ss[j], ss[j + 1];
    var h := TheWriteAtK(ss, acts, j, k);
    var f := acts[j].from;
    var v := View(f);
    var c := ConditionsWereSaved(s, k, f);
    var b := s.Bindings()[k];
    var b1 :| s'.Bindings()[k] == Stamped(b1, s.store.nextRv) && Fits(v, k, b, PodOfVerdict(v, k), c, b1);
    BindingIsOK(s, k);
    if c.JobSeen? {
      SeenJob(v, k, b, PodOfVerdict(v, k), c, b1);
      OnlyItsJob(f.jobs, s, k, c.jk);
    }
    ChangeKeepsFailure(v, k, b, PodOfVerdict(v, k), c, b1);
    BindingWritesOnlyBindings(s.store, v, k);
  }

  lemma SeenJob(v: Objects, k: Key, b: Binding, pod: Option<Pod>, c: Change, b1: Binding)
    requires c.JobSeen? && Fits(v, k, b, pod, c, b1)
    ensures c.jk in JobsOwnedBy(v.jobs, k.name)
  {
    assert c.jk in {c.jk};
  }

  /** ONE OUTCOME, with reads as stale as may be but for two: Succeeded and Failed exclude each other, and
      while Failed is set every Job of the binding has failed, provided binding writes at k went by the
      present Job of that key and Job writes at k by the present binding. */
  lemma OneOutcome(ss: seq<State>, acts: seq<Action>, j: nat, k: Key)
    requires IsRun(ss, acts) && j < |ss| && JobReadsPresent(ss, acts, k) && k in ss[j].Bindings()
    ensures var b := ss[j].Bindings()[k];
            && !(Is(b, FinalizerJobSucceeded) && Is(b, FinalizerJobFailed))
            && (Is(b, FinalizerJobFailed) ==>
                  forall jk :: jk in JobsOwnedBy(ss[j].Jobs(), k.name) ==> IsJobFailed(ss[j].Jobs()[jk]))
  {
    hide Inv;
    FailureStaysFinal(ss, acts, j, k);
    AtMostOneJob(ss, acts, j, k);
    var js := JobsOwnedBy(ss[j].Jobs(), k.name);
    assert forall jk :: jk in js ==> jk == k;
  }

  // ---------------------------------------------------------------- Unknown

  /** s' differs from s neither in the conditions of the binding at k, if that is still there, nor in
      its PVC nor in its Job. */
  predicate Untouched(s: State, s': State, k: Key)
    requires k in s.Bindings()
  {
    && (k in s'.Bindings() ==> s'.Bindings()[k].body.conditions == s.Bindings()[k].body.conditions)
    && (k !in s'.Bindings() ==> s.Bindings()[k].meta.deleting)
    && AgreeAt(s.PVCs(), s'.PVCs(), k) && AgreeAt(s.Jobs(), s'.Jobs(), k)
  }

  /** The PVC controller goes by the present binding at k. */
  predicate BindingReadPresent(s: State, a: Action, k: Key) {
    (a.JobWrite? || a.ReleaseWrite?) && a.k == k ==> AgreeAt(a.from.bindings.Bindings(), s.Bindings(), k)
  }

  /** While a binding is Unknown without PodMissing the operator keeps its hands off: no step of any
      controller or webhook changes its conditions, its PVC or its Job, with reads as stale as may be,
      provided the PVC controller goes by the present binding. */
  lemma UnknownStopsTheOperator(s: State, a: Action, k: Key)
    requires Inv(s) && Enabled(s, a) && ReadsPast(a, s) && ByOperator(a) && BindingReadPresent(s, a, k)
    requires k in s.Bindings() && Is(s.Bindings()[k], Unknown) && !Is(s.Bindings()[k], PodMissing)
    ensures Untouched(s, Next(s, a), k)
  {
    hide Next, BindingOK, Enabled, Inv, OneWrite, Untouched, Evolves;
    BindingIsOK(s, k);
    if KeyOf(s, a) != k {
      StepIsOneWrite(s, a);
      WritesElsewhere(s, Next(s, a), KeyOf(s, a), k);
    } else if a.BindingWrite? {
      FrozenBindingStep(s, a, k);
    } else {
      FrozenAtItsKey(s, a, k);
    }
  }

  lemma WritesElsewhere(s: State, s': State, k': Key, k: Key)
    requires OneWrite(s, s', k') && k' != k && k in s.Bindings()
    ensures Untouched(s, s', k)
  {
  }

  lemma FrozenBindingStep(s: State, a: Action, k: Key)
    requires Inv(s) && a.BindingWrite? && a.k == k && ReadsPast(a, s) && k in s.Bindings() && Is(s.Bindings()[k], Unknown)
    ensures Untouched(s, Next(s, a), k)
  {
    hide Inv, Evolves, Untouched, SourcesPast, BindingPlanWrite;
    FrozenBinding(s, Next(s, a), k, a.from);
  }

  lemma FrozenBinding(s: State, s': State, k: Key, f: Sources)
    requires Inv(s) && SourcesPast(f, s) && k in s.Bindings() && Is(s.Bindings()[k], Unknown)
    requires s' == s.(store := BindingPlanWrite(s.store, View(f), k))
    ensures Untouched(s, s', k)
  {
    hide Inv, Evolves, BC.PlanOf, BindingPlanWrite, SourcesPast;
    var v := BindingWriteStep(s, k, f);
    FrozenPlan(v, k);
    OrderedView(f, s, k);
    FrozenEffect(s, v, k);
    BindingWritesOnlyBindings(s.store, v, k);
  }

  lemma FrozenPlan(v: Objects, k: Key)
    ensures k in v.bindings && Is(v.bindings[k], Unknown) ==>
              BC.PlanOf(v, k).Stop? || (BC.PlanOf(v, k).Adopt? && BC.PlanOf(v, k).b.body.conditions == v.bindings[k].body.conditions)
  {
  }

  lemma FrozenAtItsKey(s: State, a: Action, k: Key)
    requires Enabled(s, a) && ByOperator(a) && KeyOf(s, a) == k && !a.BindingWrite? && BindingReadPresent(s, a, k)
    requires k in s.Bindings() && Is(s.Bindings()[k], Unknown) && !Is(s.Bindings()[k], PodMissing)
    requires BindingOK(s, k, s.Bindings()[k])
    ensures Untouched(s, Next(s, a), k)
  {
    match a
    case JobWrite(_, _) =>
    case ReleaseWrite(_, _) =>
    case _ =>
  }

  lemma FrozenEffect(s: State, v: Objects, k: Key)
    requires k in s.Bindings() && BindingEffect(s.store, BindingPlanWrite(s.store, v, k), v, k)
    requires k in v.bindings && v.bindings[k] == s.Bindings()[k] ==>
               BC.PlanOf(v, k).Stop? || (BC.PlanOf(v, k).Adopt? && BC.PlanOf(v, k).b.body.conditions == v.bindings[k].body.conditions)
    ensures var t' := BindingPlanWrite(s.store, v, k).objs.bindings;
            && (k in t' ==> t'[k].body.conditions == s.Bindings()[k].body.conditions)
            && (k !in t' ==> s.Bindings()[k].meta.deleting)
  {
    hide BC.PlanOf;
  }

  /** UNKNOWN IS FINAL. From the state in which a binding is Unknown without PodMissing, no step of the
      operator in the rest of the run changes its conditions, its PVC or its Job. */
  lemma UnknownStopsTheOperatorForGood(ss: seq<State>, acts: seq<Action>, i: nat, j: nat, k: Key)
    requires IsRun(ss, acts) && i <= j < |acts| && ByOperator(acts[j]) && BindingReadPresent(ss[j], acts[j], k)
    requires k in ss[i].Bindings() && Is(ss[i].Bindings()[k], Unknown) && !Is(ss[i].Bindings()[k], PodMissing)
    requires k in ss[j].Bindings()
    ensures ss[j].Bindings()[k].body.conditions == ss[i].Bindings()[k].body.conditions
    ensures Untouched(ss[j], ss[j + 1], k)
  {
    hide Next, Enabled, Inv, Evolves, Untouched;
    BindingsOnlyAdvance(ss, acts, i, j, k);
    RunStep(ss, acts, j);
    UnknownStopsTheOperator(ss[j], acts[j], k);
  }
}
