/** Whole runs with arbitrarily stale reads, and what holds over them. */
module Runs {
  import opened Conditions
  import opened Kube
  import opened Utils
  import opened Protocol
  import opened Invariants
  import opened Preservation
  import BC = BindingController
  import PC = PVCController

  /** The tables an operator action reads are tables of states the run has been through. */
  ghost predicate ReadsFrom(a: Action, past: seq<State>) {
    match a
    case WebhookBinding(_, _, _, f) => SourcesIn(f, past)
    case BindingWrite(_, f) => SourcesIn(f, past)
    case JobWrite(_, f) => SourcesIn(f, past)
    case ReleaseWrite(_, f) => SourcesIn(f, past)
    case FluentPVCWrite(_, f) => SourcesIn(f, past)
    case PodWrite(_, f) => SourcesIn(f, past)
    case _ => true
  }

  ghost predicate SourcesIn(f: Sources, past: seq<State>) {
    f.fluentPVCs in past && f.bindings in past && f.pvcs in past && f.pods in past && f.jobs in past && f.got in past && f.clock in past
  }

  ghost predicate StepAt(ss: seq<State>, acts: seq<Action>, i: nat)
    requires i < |acts| && |ss| == |acts| + 1
  {
    Enabled(ss[i], acts[i]) && ReadsFrom(acts[i], ss[..i + 1]) && ss[i + 1] == Next(ss[i], acts[i])
  }

  ghost predicate IsRun(ss: seq<State>, acts: seq<Action>) {
    && |ss| == |acts| + 1 && ss[0] == Init
    && forall i :: 0 <= i < |acts| ==> StepAt(ss, acts, i)
  }

  lemma InitInv()
    ensures Inv(Init)
  {
  }

  lemma {:induction false} RunKeepsInv(ss: seq<State>, acts: seq<Action>, j: nat)
    requires IsRun(ss, acts) && j < |ss|
    ensures Inv(ss[j])
    decreases j, 1
  {
    if j == 0 {
      InitInv();
    } else {
      RunStep(ss, acts, j - 1);
    }
  }

  lemma {:induction false} RunStep(ss: seq<State>, acts: seq<Action>, i: nat)
    requires IsRun(ss, acts) && i < |acts|
    ensures Inv(ss[i]) && Enabled(ss[i], acts[i]) && ReadsPast(acts[i], ss[i]) && ss[i + 1] == Next(ss[i], acts[i])
    ensures Inv(ss[i + 1]) && Evolves(ss[i], ss[i + 1])
    decreases i + 1, 0
  {
    hide Inv, Evolves, Next, Enabled;
    RunKeepsInv(ss, acts, i);
    assert StepAt(ss, acts, i);
    forall p | p in ss[..i + 1] ensures Past(p, ss[i]) {
      var h :| 0 <= h <= i && ss[h] == p;
      RunKeeps(ss, acts, h, i);
    }
    StepKeeps(ss[i], acts[i]);
  }

  /** Every state of a run satisfies the invariant and is a later state of each one before it. */
  lemma {:induction false} RunKeeps(ss: seq<State>, acts: seq<Action>, i: nat, j: nat)
    requires IsRun(ss, acts) && i <= j < |ss|
    ensures Inv(ss[i]) && Inv(ss[j]) && Evolves(ss[i], ss[j])
    decreases j, 2
  {
    hide Inv, Evolves, Next, Enabled;
    RunKeepsInv(ss, acts, i);
    if i < j {
      RunKeeps(ss, acts, i, j - 1);
      RunStep(ss, acts, j - 1);
      EvolvesTrans(ss[i], ss[j - 1], ss[j]);
    } else {
      EvolvesRefl(ss[i]);
    }
  }

  // ---------------------------------------------------------------- the clock

  lemma TimePasses(s: State, a: Action)
    requires Enabled(s, a)
    ensures s.store.objs.now <= Next(s, a).store.objs.now
  {
    match a
    case BindingWrite(k, f) => BindingWritesOnlyBindings(s.store, View(f), k);
    case JobWrite(k, f) => JobWriteTouchesJobs(s.store, View(f), f.got.Jobs(), k);
    case _ =>
  }

  lemma {:induction false} RunClock(ss: seq<State>, acts: seq<Action>, i: nat, j: nat)
    requires IsRun(ss, acts) && i <= j < |ss|
    ensures ss[i].store.objs.now <= ss[j].store.objs.now
  {
    hide Next, Enabled;
    if i < j {
      RunClock(ss, acts, i, j - 1);
      assert StepAt(ss, acts, j - 1);
      TimePasses(ss[j - 1], acts[j - 1]);
    }
  }

  // ---------------------------------------------------------------- who takes pvc-protection away

  /** Only the operator's release, and someone stripping the finalizer, take pvc-protection away. */
  lemma OnlyReleaseUnprotects(s: State, a: Action, pk: Key, u: Uid)
    requires Inv(s) && Enabled(s, a) && ReadsPast(a, s)
    requires Protected(s.PVCs(), pk, u) && !Protected(Next(s, a).PVCs(), pk, u)
    ensures a.ReleaseWrite? || a.StripPVC?
    ensures a.ReleaseWrite? ==> a.k == pk && PC.MayRelease(View(a.from), pk) && View(a.from).bindings[pk].body.pvc.uid == u
  {
    hide Inv, Evolves, ReadsPast;
    if a.UserPVC? || a.SetClaimPhase? || a.SetForeignFinalizers? || a.DeletePVC? {
      PVCEventKeepsProtection(s, a);
    } else if a.ReleaseWrite? {
      ReleaseStepHits(s, a, pk, u);
    } else if !a.StripPVC? {
      OthersKeepProtection(s, a, pk, u);
    }
  }

  lemma ReleaseStepHits(s: State, a: Action, pk: Key, u: Uid)
    requires Inv(s) && a.ReleaseWrite? && ReadsPast(a, s)
    requires Protected(s.PVCs(), pk, u) && !Protected(Next(s, a).PVCs(), pk, u)
    ensures a.k == pk && PC.MayRelease(View(a.from), pk) && View(a.from).bindings[pk].body.pvc.uid == u
  {
    hide Inv, PC.MayRelease, Evolves;
    ReleaseHits(s, a.k, a.from, pk, u);
  }

  /** All other actions leave the PVCs as they are, but for the webhook, which adds one. */
  lemma OthersKeepProtection(s: State, a: Action, pk: Key, u: Uid)
    requires Enabled(s, a) && Protected(s.PVCs(), pk, u)
    requires !a.UserPVC? && !a.SetClaimPhase? && !a.SetForeignFinalizers? && !a.DeletePVC? && !a.ReleaseWrite? && !a.StripPVC?
    ensures Protected(Next(s, a).PVCs(), pk, u)
  {
    match a
    case BindingWrite(k, f) => BindingWritesOnlyBindings(s.store, View(f), k);
    case JobWrite(k, f) => JobWriteTouchesJobs(s.store, View(f), f.got.Jobs(), k);
    case _ =>
  }

  lemma BindingWritesOnlyBindings(s: Store, v: Objects, k: Key)
    ensures var st := BindingPlanWrite(s, v, k); st.objs == s.objs.(bindings := st.objs.bindings)
  {
    hide BC.PlanOf, Update, UpdateStatus, Delete;
  }

  lemma ReleaseHits(s: State, k: Key, f: Sources, pk: Key, u: Uid)
    requires Inv(s) && SourcesPast(f, s)
    requires Protected(s.PVCs(), pk, u) && !Protected(ReleasePlanWrite(s.store, View(f), k).objs.pvcs, pk, u)
    ensures k == pk && PC.MayRelease(View(f), k) && View(f).bindings[k].body.pvc.uid == u
  {
    var v := View(f);
    if k in v.pvcs {
      StalePVC(f.pvcs, s, k);
      ReleaseHitsItsTarget(s.store, v, k, pk, u);
    }
  }

  lemma ReleaseHitsItsTarget(s: Store, v: Objects, k: Key, pk: Key, u: Uid)
    requires k in v.pvcs && Cas(s.objs.pvcs, k, v.pvcs[k])
    requires Protected(s.objs.pvcs, pk, u) && !Protected(ReleasePlanWrite(s, v, k).objs.pvcs, pk, u)
    ensures k == pk && PC.MayRelease(v, k) && v.bindings[k].body.pvc.uid == u
  {
    ReleaseEffect(s, k, v.pvcs[k]);
  }

  // ---------------------------------------------------------------- data safety

  /** A Job owned by the binding with this UID stands complete in s. */
  ghost predicate CompleteJobOf(s: State, uid: Uid) {
    exists jk :: jk in s.Jobs() && JobIndex(s.Jobs()[jk]).Some? && s.Jobs()[jk].meta.owner.value.uid == uid && IsJobSucceeded(s.Jobs()[jk])
  }

  /** A recorded completion was a complete Job in some state of the run. */
  lemma {:induction false} CompletionWasThere(ss: seq<State>, acts: seq<Action>, i: nat, uid: Uid) returns (m: nat)
    requires IsRun(ss, acts) && i < |ss| && uid in ss[i].log.completed
    ensures m <= i && CompleteJobOf(ss[m], uid)
  {
    assert i > 0;
    assert StepAt(ss, acts, i - 1);
    if uid in ss[i - 1].log.completed {
      m := CompletionWasThere(ss, acts, i - 1, uid);
    } else {
      m := i;
      NewCompletion(ss[i - 1], acts[i - 1], uid);
    }
  }

  lemma NewCompletion(s: State, a: Action, uid: Uid)
    requires Enabled(s, a) && uid !in s.log.completed && uid in Next(s, a).log.completed
    ensures CompleteJobOf(Next(s, a), uid)
  {
    assert a.SetJobStatus?;
    var j := Next(s, a).Jobs()[a.k];
  }

  /** Bindings of one PVC, in any two states of a run, are versions of one binding. */
  lemma OneBindingPerPVC(ss: seq<State>, acts: seq<Action>, p: nat, j: nat, pk: Key, k: Key)
    requires IsRun(ss, acts) && p < |ss| && j < |ss|
    requires pk in ss[p].Bindings() && k in ss[j].Bindings()
    requires ss[p].Bindings()[pk].body.pvc.uid == ss[j].Bindings()[k].body.pvc.uid
    ensures pk == k
    ensures p <= j ==> BindingLe(ss[p].Bindings()[k], ss[j].Bindings()[k])
    ensures j <= p ==> BindingLe(ss[j].Bindings()[k], ss[p].Bindings()[k])
  {
    if p <= j {
      RunKeeps(ss, acts, p, j);
      SamePVCSameBinding(ss[p], ss[j], pk, k);
    }
    if j <= p {
      RunKeeps(ss, acts, j, p);
      SamePVCSameBinding(ss[j], ss[p], k, pk);
    }
  }

  lemma SamePVCSameBinding(p: State, s: State, pk: Key, k: Key)
    requires Past(p, s) && Inv(s) && pk in p.Bindings() && k in s.Bindings()
    requires p.Bindings()[pk].body.pvc.uid == s.Bindings()[k].body.pvc.uid
    ensures pk == k && BindingLe(p.Bindings()[k], s.Bindings()[k])
  {
    StaleBinding(p, s, pk);
    NameOf(s, k);
  }

  lemma NameOf(s: State, k: Key)
    requires Inv(s) && k in s.Bindings()
    ensures k.name in s.log.minted && s.log.minted[k.name] == Minted(k.ns, s.Bindings()[k].body.pvc.uid)
    ensures forall n :: n in s.log.minted && s.log.minted[n].uid == s.Bindings()[k].body.pvc.uid ==> n == k.name
  {
    assert BindingOK(s, k, s.Bindings()[k]);
  }

  /** DATA SAFETY. In any run, with reads as stale as may be: if a binding is ever Ready without
      PodMissing, then whenever the PVC it is bound to loses pvc-protection, and nobody stripped it,
      a Job owned by that binding has stood complete before. */
  lemma DataSafety(ss: seq<State>, acts: seq<Action>, i: nat, j: nat, k: Key, pk: Key) returns (m: nat)
    requires IsRun(ss, acts) && i < |acts| && j < |ss|
    requires k in ss[j].Bindings() && Is(ss[j].Bindings()[k], Ready) && !Is(ss[j].Bindings()[k], PodMissing)
    requires Protected(ss[i].PVCs(), pk, ss[j].Bindings()[k].body.pvc.uid)
    requires !Protected(ss[i + 1].PVCs(), pk, ss[j].Bindings()[k].body.pvc.uid)
    requires !acts[i].StripPVC?
    ensures m <= i && CompleteJobOf(ss[m], ss[j].Bindings()[k].meta.uid)
  {
    var b := ss[j].Bindings()[k];
    var p := ReleaseWasDecided(ss, acts, i, pk, b.body.pvc.uid);
    OneBindingPerPVC(ss, acts, p, j, pk, k);
    m := SucceededHadItsJob(ss, acts, p, k);
  }

  /** A loss of pvc-protection goes back to a version of the bound binding that allowed it. */
  lemma ReleaseWasDecided(ss: seq<State>, acts: seq<Action>, i: nat, pk: Key, u: Uid) returns (p: nat)
    requires IsRun(ss, acts) && i < |acts| && !acts[i].StripPVC?
    requires Protected(ss[i].PVCs(), pk, u) && !Protected(ss[i + 1].PVCs(), pk, u)
    ensures p <= i && pk in ss[p].Bindings() && ss[p].Bindings()[pk].body.pvc.uid == u
    ensures Is(ss[p].Bindings()[pk], PodMissing) || Is(ss[p].Bindings()[pk], FinalizerJobSucceeded)
  {
    hide Inv, Evolves, Next, Enabled;
    RunStep(ss, acts, i);
    OnlyReleaseUnprotects(ss[i], acts[i], pk, u);
    assert StepAt(ss, acts, i);
    p :| 0 <= p <= i && ss[p] == acts[i].from.bindings;
  }

  lemma SucceededHadItsJob(ss: seq<State>, acts: seq<Action>, p: nat, k: Key) returns (m: nat)
    requires IsRun(ss, acts) && p < |ss| && k in ss[p].Bindings() && Is(ss[p].Bindings()[k], FinalizerJobSucceeded)
    ensures m <= p && CompleteJobOf(ss[m], ss[p].Bindings()[k].meta.uid)
  {
    RunKeepsInv(ss, acts, p);
    assert BindingOK(ss[p], k, ss[p].Bindings()[k]);
    m := CompletionWasThere(ss, acts, p, ss[p].Bindings()[k].meta.uid);
  }

  /** A binding that is Unknown because its PVC was not found never lost that PVC to the operator,
      before or after: whenever the PVC loses pvc-protection, someone stripped it. */
  lemma OperatorNeverCausesMissingPVC(ss: seq<State>, acts: seq<Action>, j: nat, k: Key, i: nat, pk: Key)
    requires IsRun(ss, acts) && j < |ss| && i < |acts|
    requires k in ss[j].Bindings() && Is(ss[j].Bindings()[k], Unknown)
    requires BlamesPVC(ReasonOf(ss[j].Bindings()[k].body.conditions, Unknown))
    requires Protected(ss[i].PVCs(), pk, ss[j].Bindings()[k].body.pvc.uid)
    requires !Protected(ss[i + 1].PVCs(), pk, ss[j].Bindings()[k].body.pvc.uid)
    ensures acts[i].StripPVC?
  {
    hide Inv, Evolves, Next, Enabled;
    if !acts[i].StripPVC? {
      var p := ReleaseWasDecided(ss, acts, i, pk, ss[j].Bindings()[k].body.pvc.uid);
      OneBindingPerPVC(ss, acts, p, j, pk, k);
      RunKeepsInv(ss, acts, j);
      BindingIsOK(ss[j], k);
    }
  }

  lemma BindingIsOK(s: State, k: Key)
    requires Inv(s) && k in s.Bindings()
    ensures BindingOK(s, k, s.Bindings()[k])
  {
  }

  // ---------------------------------------------------------------- identities, order, one Job

  /** In every state of every run, a binding's conditions are in order and a Ready binding names its pod. */
  lemma ConditionsInOrder(ss: seq<State>, acts: seq<Action>, j: nat, k: Key)
    requires IsRun(ss, acts) && j < |ss| && k in ss[j].Bindings()
    ensures var b := ss[j].Bindings()[k];
            && Ordered(b.body.conditions)
            && (Is(b, Ready) ==> b.body.pod.uid != NO_UID && b.body.pod.name != "")
  {
    RunKeepsInv(ss, acts, j);
    BindingIsOK(ss[j], k);
  }

  /** A binding seen in two states of a run kept its PVC, its FluentPVC's name, its pod once known, and
      every condition that is not withdrawn; Unknown froze them all; PodMissing did not follow Ready. */
  lemma BindingsOnlyAdvance(ss: seq<State>, acts: seq<Action>, i: nat, j: nat, k: Key)
    requires IsRun(ss, acts) && i <= j < |ss| && k in ss[i].Bindings() && k in ss[j].Bindings()
    ensures BindingLe(ss[i].Bindings()[k], ss[j].Bindings()[k])
  {
    RunKeeps(ss, acts, i, j);
    BindingIsOK(ss[i], k);
  }

  /** In every state of every run a binding has at most the Job of its own key, and no binding is ever
      Unknown for having several. */
  lemma AtMostOneJob(ss: seq<State>, acts: seq<Action>, j: nat, k: Key)
    requires IsRun(ss, acts) && j < |ss| && k in ss[j].Bindings()
    ensures JobsOwnedBy(ss[j].Jobs(), k.name) <= {k}
    ensures Is(ss[j].Bindings()[k], Unknown) ==> !ReasonOf(ss[j].Bindings()[k].body.conditions, Unknown).MultipleFinalizerJobsFound?
  {
    RunKeepsInv(ss, acts, j);
    BindingIsOK(ss[j], k);
    JobsOfOneName(ss[j], k.name);
  }
}
