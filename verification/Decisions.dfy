/** The controllers' decisions, outcome by outcome and in the fields of the objects that were read: when
    exactly each thing happens, whatever the order in which the reconciles ask their questions. */
module Decisions {
  import opened Conditions
  import opened PodSpecs
  import opened SpecRewriting
  import opened Kube
  import opened Utils
  import opened Invariants
  import BC = BindingController
  import PC = PVCController

  // ---------------------------------------------------------------- what the reads show

  /** The FluentPVC the binding names controls it, by UID. */
  predicate Controlled(v: Objects, b: Binding) {
    var fk := Key("", b.body.fluentPVC.name);
    fk in v.fluentPVCs && b.meta.owner.Some? && b.meta.owner.value.uid == v.fluentPVCs[fk].meta.uid
  }

  predicate SomeoneElses(b: Binding) {
    b.meta.owner.Some? && !(b.meta.owner.value.kind.FluentPVCKind? && b.meta.owner.value.name == b.body.fluentPVC.name)
  }

  /** The PVC of the binding: in its namespace, under the name and with the UID it was bound by. */
  predicate Found(v: Objects, k: Key, b: Binding) {
    var pk := Key(k.ns, b.body.pvc.name);
    pk in v.pvcs && v.pvcs[pk].meta.uid == b.body.pvc.uid
  }

  predicate Lost(v: Objects, k: Key, b: Binding) {
    Found(v, k, b) && v.pvcs[Key(k.ns, b.body.pvc.name)].body.phase == ClaimLost
  }

  predicate Usable(v: Objects, k: Key, b: Binding) {
    Found(v, k, b) && !Lost(v, k, b)
  }

  /** A pod of the namespace carries the binding's label. */
  predicate Labelled(v: Objects, k: Key, pk: Key) {
    && pk in v.pods && pk.ns == k.ns
    && POD_LABEL_BINDING_NAME in v.pods[pk].body.labels && v.pods[pk].body.labels[POD_LABEL_BINDING_NAME] == k.name
  }

  /** The one pod a binding that has not recorded its pod may mean: the only labelled one or, once it has
      a name, the one of that name. */
  ghost predicate Candidate(v: Objects, k: Key, b: Binding, pk: Key) {
    if b.body.pod.name == "" then Labelled(v, k, pk) && forall qk :: Labelled(v, k, qk) ==> qk == pk
    else pk == Key(k.ns, b.body.pod.name) && pk in v.pods && b.body.pod.uid == 0
  }

  ghost predicate Ambiguous(v: Objects, k: Key, b: Binding) {
    b.body.pod.name == "" && exists pk, qk :: Labelled(v, k, pk) && Labelled(v, k, qk) && pk != qk
  }

  /** The pod mounts the claim and is labelled with the FluentPVC. */
  ghost predicate Suits(pod: Pod, b: Binding) {
    && (exists i :: 0 <= i < |pod.body.spec.volumes| && pod.body.spec.volumes[i].value == Claim(b.body.pvc.name))
    && POD_LABEL_FLUENT_PVC_NAME in pod.body.labels
    && pod.body.labels[POD_LABEL_FLUENT_PVC_NAME] == b.body.fluentPVC.name
  }

  /** Nothing labelled while there is no name; afterwards nothing of that name, or a pod of another UID
      than the recorded one. */
  ghost predicate SeesNoPod(v: Objects, k: Key, b: Binding) {
    if b.body.pod.name == "" then forall pk :: !Labelled(v, k, pk)
    else
      var pk := Key(k.ns, b.body.pod.name);
      pk in v.pods ==> b.body.pod.uid != 0 && v.pods[pk].meta.uid != b.body.pod.uid
  }

  predicate SeesItsPod(v: Objects, k: Key, b: Binding) {
    var pk := Key(k.ns, b.body.pod.name);
    b.body.pod.name != "" && b.body.pod.uid != 0 && pk in v.pods && v.pods[pk].meta.uid == b.body.pod.uid
  }

  /** A Job, of any namespace, whose owner is a binding of this name. */
  predicate OwnsJob(v: Objects, k: Key, jk: Key) {
    && jk in v.jobs && v.jobs[jk].meta.owner.Some?
    && v.jobs[jk].meta.owner.value.kind == BindingKind && v.jobs[jk].meta.owner.value.name == k.name
  }

  ghost predicate NoJobs(v: Objects, k: Key) {
    forall jk :: !OwnsJob(v, k, jk)
  }

  ghost predicate SeveralJobs(v: Objects, k: Key) {
    exists i, j :: i != j && OwnsJob(v, k, i) && OwnsJob(v, k, j)
  }

  ghost predicate OnlyJob(v: Objects, k: Key, jk: Key) {
    OwnsJob(v, k, jk) && forall j :: OwnsJob(v, k, j) ==> j == jk
  }

  lemma JobsByOwner(v: Objects, k: Key)
    ensures JobsOwnedBy(v.jobs, k.name) == {} <==> NoJobs(v, k)
    ensures |JobsOwnedBy(v.jobs, k.name)| > 1 <==> SeveralJobs(v, k)
    ensures forall jk :: OnlyJob(v, k, jk) <==> JobsOwnedBy(v.jobs, k.name) == {jk}
  {
    var js := JobsOwnedBy(v.jobs, k.name);
    assert forall jk :: jk in js <==> OwnsJob(v, k, jk);
    if |js| > 1 {
      var i :| i in js;
      assert |js - {i}| > 0;
      var j :| j in js - {i};
    }
    if i, j :| i != j && OwnsJob(v, k, i) && OwnsJob(v, k, j) {
      assert j in js - {i} && |js - {i}| > 0;
    }
    forall jk ensures OnlyJob(v, k, jk) <==> js == {jk} {
      if js == {jk} { assert jk in js; }
    }
  }

  // ---------------------------------------------------------------- how far a binding reconcile gets

  /** A FluentPVC that is not, by UID, the controller takes the binding over, unless another object
      controls it; nothing but owner and identity changes. */
  lemma AdoptsExactlyWhen(v: Objects, k: Key)
    requires k in v.bindings
    ensures var b, plan, fk := v.bindings[k], BC.PlanOf(v, k), Key("", v.bindings[k].body.fluentPVC.name);
            && (plan.Adopt? <==> fk in v.fluentPVCs && !Controlled(v, b) && !SomeoneElses(b))
            && (plan.Adopt? ==>
                  var uid := v.fluentPVCs[fk].meta.uid;
                  plan.b == b.(meta := b.meta.(owner := Some(Owner(FluentPVCKind, fk.name, uid))),
                               body := b.body.(fluentPVC := Identity(fk.name, uid))))
  {
    hide BC.Verdict, BC.SearchPod, BC.CanFill;
    BC.VerdictIsNoFill(v, k, v.bindings[k], None);
    match BC.SearchPod(v, k, v.bindings[k])
    case PodAt(_, p) =>
      BC.VerdictIsNoFill(v, k, v.bindings[k], if p.meta.uid == v.bindings[k].body.pod.uid then Some(p) else None);
    case _ =>
  }

  /** A pod is recorded exactly when it is the one the binding may mean, mounts the claim and carries the
      FluentPVC's label. */
  lemma FillsExactlyWhen(v: Objects, k: Key)
    requires k in v.bindings
    ensures var b, plan := v.bindings[k], BC.PlanOf(v, k);
            && (plan.Fill? <==> Controlled(v, b) && !Is(b, Unknown) && exists pk :: Candidate(v, k, b, pk) && Suits(v.pods[pk], b))
            && (plan.Fill? ==>
                  Suits(plan.pod, b) &&
                  exists pk :: && Candidate(v, k, b, pk) && plan.pod == v.pods[pk]
                               && plan.b == b.(body := b.body.(pod := Identity(pk.name, plan.pod.meta.uid))))
  {
    hide BC.Verdict, Suits;
    var b := v.bindings[k];
    SearchFinds(v, k, b);
    BC.VerdictIsNoFill(v, k, b, None);
    match BC.SearchPod(v, k, b)
    case PodAt(pk, p) =>
      SuitsIsCanFill(p, b);
      BC.VerdictIsNoFill(v, k, b, if p.meta.uid == b.body.pod.uid then Some(p) else None);
    case _ =>
  }

  lemma SuitsIsCanFill(pod: Pod, b: Binding)
    ensures BC.CanFill(b, pod) <==> Suits(pod, b)
  {
  }

  lemma SearchFinds(v: Objects, k: Key, b: Binding)
    ensures BC.SearchPod(v, k, b) == BC.PodError <==> Ambiguous(v, k, b)
    ensures forall pk :: Candidate(v, k, b, pk) <==>
                           BC.Unfilled(b) && pk in v.pods && BC.SearchPod(v, k, b) == BC.PodAt(pk, v.pods[pk])
    ensures SeesNoPod(v, k, b) <==>
              match BC.SearchPod(v, k, b)
              case PodError => false
              case PodAbsent => true
              case PodAt(_, p) => !BC.Unfilled(b) && p.meta.uid != b.body.pod.uid
  {
    var ks := BC.LabelledPods(v.pods, k.ns, k.name);
    assert forall pk :: pk in ks <==> Labelled(v, k, pk);
    if b.body.pod.name == "" {
      if |ks| == 1 {
        var pk :| pk in ks && BC.SearchPod(v, k, b) == BC.PodAt(pk, v.pods[pk]);
        forall x | x in ks ensures x == pk { SingletonChoice(ks, x, pk); }
      } else if ks != {} {
        var i :| i in ks;
        assert |ks - {i}| > 0;
        var j :| j in ks - {i};
        assert Labelled(v, k, i) && Labelled(v, k, j);
      }
    }
  }

  /** A reconcile that writes nothing fails exactly when the FluentPVC is missing, another object controls
      the binding, two pods carry its label, or the pod to record does not suit. */
  lemma FailsExactlyWhen(v: Objects, k: Key)
    ensures BC.PlanOf(v, k) == BC.Stop(Errored) <==>
              k in v.bindings &&
              var b := v.bindings[k];
              || Key("", b.body.fluentPVC.name) !in v.fluentPVCs
              || (!Controlled(v, b) && SomeoneElses(b))
              || (Controlled(v, b) && !Is(b, Unknown) &&
                  (Ambiguous(v, k, b) || exists pk :: Candidate(v, k, b, pk) && !Suits(v.pods[pk], b)))
  {
    hide BC.Verdict, Suits;
    if k in v.bindings {
      var b := v.bindings[k];
      SearchFinds(v, k, b);
      VerdictNeverFails(v, k, b, None);
      match BC.SearchPod(v, k, b)
      case PodAt(pk, p) =>
        SuitsIsCanFill(p, b);
        VerdictNeverFails(v, k, b, if p.meta.uid == b.body.pod.uid then Some(p) else None);
      case _ =>
    }
  }

  lemma VerdictNeverFails(v: Objects, k: Key, b: Binding, pod: Option<Pod>)
    ensures BC.Verdict(v, k, b, pod).Stop? ==> BC.Verdict(v, k, b, pod).ret == Finished
  {
  }

  /** A controlled binding that is not Unknown, and has no pod to record, is judged by the pod it sees;
      an Unknown one is left alone. */
  lemma JudgesWhatItSees(v: Objects, k: Key)
    requires k in v.bindings && Controlled(v, v.bindings[k])
    ensures var b, plan := v.bindings[k], BC.PlanOf(v, k);
            && (Is(b, Unknown) ==> plan == BC.Stop(Finished))
            && (!Is(b, Unknown) && SeesNoPod(v, k, b) ==> plan == BC.Verdict(v, k, b, None))
            && (!Is(b, Unknown) && SeesItsPod(v, k, b) ==>
                  plan == BC.Verdict(v, k, b, Some(v.pods[Key(k.ns, b.body.pod.name)])))
  {
    hide BC.Verdict;
    SearchFinds(v, k, v.bindings[k]);
  }

  // ---------------------------------------------------------------- what it decides

  predicate Sets(plan: BC.Plan, b: Binding, t: ConditionType) {
    plan.Save? && Is(plan.b, t) && !Is(b, t)
  }

  predicate Withdraws(plan: BC.Plan, b: Binding, t: ConditionType) {
    plan.Save? && Is(b, t) && !Is(plan.b, t)
  }

  /** The pod is over: not found, or in a terminal phase. */
  predicate Over(pod: Option<Pod>) {
    pod.Some? ==> pod.value.body.phase == PodSucceeded || pod.value.body.phase == PodFailed
  }

  /** The binding is up to its Job: in use no more, its PVC at hand, not yet succeeded. */
  predicate Finalizing(v: Objects, k: Key, b: Binding, pod: Option<Pod>) {
    Is(b, OutOfUse) && !Is(b, FinalizerJobSucceeded) && Over(pod) && Usable(v, k, b)
  }

  /** Given up once the PVC is gone, done with once the PVC is free of pvc-protection. */
  lemma DropsExactlyWhen(v: Objects, k: Key, b: Binding, pod: Option<Pod>)
    ensures BC.Verdict(v, k, b, pod).Drop? <==>
              || (!Found(v, k, b) && (Is(b, PodMissing) || Is(b, FinalizerJobSucceeded)))
              || (Usable(v, k, b) && Is(b, FinalizerJobSucceeded) &&
                  PVCProtection !in v.pvcs[Key(k.ns, b.body.pvc.name)].meta.finalizers)
  {
    hide SetStatusCondition, IsTrue;
  }

  lemma SetsReadyExactlyWhen(v: Objects, k: Key, b: Binding, pod: Option<Pod>)
    requires Ordered(b.body.conditions) && !Is(b, Unknown)
    ensures Sets(BC.Verdict(v, k, b, pod), b, Ready) <==>
              pod.Some? && Usable(v, k, b) && !Is(b, FinalizerJobSucceeded) && !Is(b, Ready)
  {
    hide SetStatusCondition, IsTrue, ReasonOf, BC.JobVerdict;
    if Finalizing(v, k, b, pod) { JobEffects(v, k, b, pod); }
  }

  lemma SetsPodMissingExactlyWhen(v: Objects, k: Key, b: Binding, pod: Option<Pod>)
    ensures Sets(BC.Verdict(v, k, b, pod), b, PodMissing) <==>
              && pod.None? && !Is(b, Ready) && !Is(b, PodMissing) && !Is(b, FinalizerJobSucceeded)
              && !Lost(v, k, b) && v.now - b.meta.created > 3600
  {
    hide SetStatusCondition, IsTrue;
  }

  /** THE TIMEOUT: a binding without pod is given up exactly when it was made more than 3600 seconds ago. */
  lemma GivesUpExactlyWhen(v: Objects, k: Key)
    requires k in v.bindings
    ensures var b := v.bindings[k];
            Sets(BC.PlanOf(v, k), b, PodMissing) <==>
              && Controlled(v, b) && !Is(b, Unknown) && SeesNoPod(v, k, b) && !Lost(v, k, b)
              && !Is(b, Ready) && !Is(b, PodMissing) && !Is(b, FinalizerJobSucceeded) && v.now - b.meta.created > 3600
  {
    hide BC.Verdict, IsTrue, Candidate, Suits;
    var b := v.bindings[k];
    SearchFinds(v, k, b);
    if BC.PlanOf(v, k).Save? {
      SaveIsAVerdict(v, k);
      SetsPodMissingExactlyWhen(v, k, b, PodOfVerdict(v, k));
    }
    if Controlled(v, b) && !Is(b, Unknown) {
      JudgesWhatItSees(v, k);
      SetsPodMissingExactlyWhen(v, k, b, None);
    }
  }

  lemma SetsOutOfUseExactlyWhen(v: Objects, k: Key, b: Binding, pod: Option<Pod>)
    requires Ordered(b.body.conditions) && !Is(b, Unknown)
    ensures Sets(BC.Verdict(v, k, b, pod), b, OutOfUse) <==>
              Over(pod) && Usable(v, k, b) && Is(b, Ready) && !Is(b, OutOfUse)
    ensures var plan := BC.Verdict(v, k, b, pod);
            Sets(plan, b, OutOfUse) ==>
              ReasonOf(plan.b.body.conditions, OutOfUse) == if pod.None? then PodDeletedPVCFound else PodCompletedPVCFound
  {
    hide SetStatusCondition, IsTrue, ReasonOf, BC.JobVerdict;
    if Finalizing(v, k, b, pod) { JobEffects(v, k, b, pod); }
  }

  lemma SetsUnknownExactlyWhen(v: Objects, k: Key, b: Binding, pod: Option<Pod>)
    requires Ordered(b.body.conditions) && !Is(b, Unknown)
    ensures Sets(BC.Verdict(v, k, b, pod), b, Unknown) <==>
              || Lost(v, k, b)
              || (!Found(v, k, b) && !Is(b, PodMissing) && !Is(b, FinalizerJobSucceeded) &&
                  (if pod.None? then Is(b, Ready) else pod.value.body.phase == PodRunning || Over(pod)))
              || (Finalizing(v, k, b, pod) && SeveralJobs(v, k))
    ensures var plan := BC.Verdict(v, k, b, pod);
            Sets(plan, b, Unknown) ==>
              ReasonOf(plan.b.body.conditions, Unknown) == (
                if Lost(v, k, b) then PVCLost
                else if Found(v, k, b) then MultipleFinalizerJobsFound
                else if pod.None? then PodAndPVCNotFound
                else if pod.value.body.phase == PodRunning then PodRunningButPVCNotFound
                else PodCompletedPVCNotFound)
  {
    hide SetStatusCondition, IsTrue, ReasonOf, BC.JobVerdict;
    if Finalizing(v, k, b, pod) { JobEffects(v, k, b, pod); }
  }

  /** The one Job of the binding decides what is recorded about it. */
  lemma RecordsJobExactlyWhen(v: Objects, k: Key, b: Binding, pod: Option<Pod>, jk: Key)
    requires Ordered(b.body.conditions) && !Is(b, Unknown) && OnlyJob(v, k, jk)
    ensures var plan, up, cs := BC.Verdict(v, k, b, pod), Finalizing(v, k, b, pod), v.jobs[jk].body.conditions;
            && (Sets(plan, b, FinalizerJobApplied) <==> up && !Is(b, FinalizerJobApplied))
            && (Sets(plan, b, FinalizerJobSucceeded) <==> up && FinishedAs(cs, JobComplete))
            && (Sets(plan, b, FinalizerJobFailed) <==> up && FinishedAs(cs, JobFailed) && !Is(b, FinalizerJobFailed))
  {
    hide SetStatusCondition, IsTrue, ReasonOf, BC.JobVerdict, FinishedAs;
    JobsByOwner(v, k);
    if Finalizing(v, k, b, pod) { JobEffects(v, k, b, pod); }
  }

  /** Applied and Failed, and nothing else, are withdrawn when the list of Jobs is empty; never after
      Succeeded. */
  lemma WithdrawsExactlyWhen(v: Objects, k: Key, b: Binding, pod: Option<Pod>, t: ConditionType)
    requires Ordered(b.body.conditions) && !Is(b, Unknown)
    ensures Withdraws(BC.Verdict(v, k, b, pod), b, t) <==>
              (t == FinalizerJobApplied || t == FinalizerJobFailed) && Is(b, t) && Finalizing(v, k, b, pod) && NoJobs(v, k)
  {
    hide SetStatusCondition, IsTrue, ReasonOf, BC.JobVerdict;
    JobsByOwner(v, k);
    if Finalizing(v, k, b, pod) { JobEffects(v, k, b, pod); }
  }

  /** The reason a condition is set with, where there is only one. */
  function ReasonFor(t: ConditionType): Option<Reason> {
    match t
    case Ready => Some(PodFoundPVCFound)
    case PodMissing => Some(BindingPodTimeout)
    case FinalizerJobApplied => Some(FinalizerJobFound)
    case FinalizerJobSucceeded => Some(FinalizerJobIsSucceeded)
    case FinalizerJobFailed => Some(FinalizerJobIsFailed)
    case _ => None
  }

  /** A status update stamps what it sets with the time of the reconcile, keeps the time of what was set
      before, and changes nothing but conditions. */
  ghost predicate Stamps(plan: BC.Plan, b: Binding, now: int)
    requires plan.Save?
  {
    var cs, cs1 := b.body.conditions, plan.b.body.conditions;
    && SameButStatus(b, plan.b)
    && (forall t :: IsTrue(cs1, t) ==> Since(cs1, t) == if IsTrue(cs, t) then Since(cs, t) else now)
    && (forall t :: Sets(plan, b, t) && ReasonFor(t).Some? ==> ReasonOf(cs1, t) == ReasonFor(t).value)
  }

  /** The reconcile succeeds with its update, except when it reports several Jobs. */
  lemma SavesAreStamped(v: Objects, k: Key, b: Binding, pod: Option<Pod>)
    requires Ordered(b.body.conditions) && !Is(b, Unknown)
    ensures var plan := BC.Verdict(v, k, b, pod);
            plan.Save? ==>
              && Stamps(plan, b, v.now)
              && plan.ret == if Finalizing(v, k, b, pod) && SeveralJobs(v, k) then Errored else Finished
  {
    hide SetStatusCondition, IsTrue, ReasonOf, Since, BC.JobVerdict;
    if Finalizing(v, k, b, pod) {
      ComesToTheJobs(v, k, b, pod);
      JobSavesAreStamped(v, k, b);
    }
  }

  lemma JobSavesAreStamped(v: Objects, k: Key, b: Binding)
    requires Ordered(b.body.conditions)
    ensures var plan := BC.JobVerdict(v, k, b);
            plan.Save? ==> Stamps(plan, b, v.now) && plan.ret == if SeveralJobs(v, k) then Errored else Finished
  {
    hide SetStatusCondition, IsTrue, ReasonOf, Since, Stamps;
    JobsByOwner(v, k);
    NoJobStamps(v.now, b);
    var js := JobsOwnedBy(v.jobs, k.name);
    if |js| == 1 {
      var jk :| jk in js && BC.JobVerdict(v, k, b) == BC.JobStatusVerdict(v.now, b, v.jobs[jk]);
      JobStatusStamps(v.now, b, v.jobs[jk]);
    } else if |js| > 1 {
      SeveralJobsStamp(v.now, b);
    }
  }

  lemma NoJobStamps(now: int, b: Binding)
    ensures var plan := BC.NoJobVerdict(now, b); plan.Save? ==> Stamps(plan, b, now) && plan.ret == Finished
  {
    hide SetStatusCondition, IsTrue, ReasonOf, Since;
  }

  lemma JobStatusStamps(now: int, b: Binding, j: Job)
    ensures var plan := BC.JobStatusVerdict(now, b, j); plan.Save? ==> Stamps(plan, b, now) && plan.ret == Finished
  {
    hide SetStatusCondition, IsTrue, ReasonOf, Since, IsJobSucceeded, IsJobFailed;
  }

  lemma SeveralJobsStamp(now: int, b: Binding)
    ensures Stamps(BC.Save(BC.With(b, Unknown, true, MultipleFinalizerJobsFound, now), Errored), b, now)
  {
    hide SetStatusCondition, IsTrue, ReasonOf, Since;
  }

  // ---------------------------------------------------------------- the Jobs

  ghost predicate WithdrawsOnly(plan: BC.Plan, b: Binding) {
    && (forall t :: !Sets(plan, b, t))
    && (forall t :: Withdraws(plan, b, t) <==> (t == FinalizerJobApplied || t == FinalizerJobFailed) && Is(b, t))
  }

  ghost predicate RecordsOnly(plan: BC.Plan, b: Binding, j: Job) {
    && (forall t :: !Withdraws(plan, b, t))
    && (forall t :: Sets(plan, b, t) <==> !Is(b, t) && Tells(j, t))
  }

  ghost predicate BlamesOnly(plan: BC.Plan, b: Binding) {
    && (forall t :: !Withdraws(plan, b, t)) && (forall t :: Sets(plan, b, t) <==> t == Unknown)
    && (Sets(plan, b, Unknown) ==> ReasonOf(plan.b.body.conditions, Unknown) == MultipleFinalizerJobsFound)
  }

  /** What the existence and the status of a Job tell about its binding. */
  ghost predicate Tells(j: Job, t: ConditionType) {
    || t == FinalizerJobApplied
    || (t == FinalizerJobSucceeded && FinishedAs(j.body.conditions, JobComplete))
    || (t == FinalizerJobFailed && FinishedAs(j.body.conditions, JobFailed))
  }

  /** What a reconcile that has come to the Jobs changes. */
  lemma JobEffects(v: Objects, k: Key, b: Binding, pod: Option<Pod>)
    requires Ordered(b.body.conditions) && !Is(b, Unknown) && Finalizing(v, k, b, pod)
    ensures NoJobs(v, k) ==> WithdrawsOnly(BC.Verdict(v, k, b, pod), b)
    ensures forall jk :: OnlyJob(v, k, jk) ==> RecordsOnly(BC.Verdict(v, k, b, pod), b, v.jobs[jk])
    ensures NoJobs(v, k) || SeveralJobs(v, k) || exists jk :: OnlyJob(v, k, jk)
    ensures SeveralJobs(v, k) ==> BlamesOnly(BC.Verdict(v, k, b, pod), b)
  {
    hide BC.Verdict, SetStatusCondition, IsTrue, BC.NoJobVerdict, BC.JobStatusVerdict, NoJobs, SeveralJobs, OnlyJob;
    ComesToTheJobs(v, k, b, pod);
    JobsByOwner(v, k);
    var js := JobsOwnedBy(v.jobs, k.name);
    if js == {} {
      NoJobEffects(v.now, b);
    } else if |js| == 1 {
      var jk :| jk in js && BC.JobVerdict(v, k, b) == BC.JobStatusVerdict(v.now, b, v.jobs[jk]);
      forall x | x in js ensures x == jk { SingletonChoice(js, x, jk); }
      assert js == {jk} && OnlyJob(v, k, jk);
      JobStatusEffects(v.now, b, v.jobs[jk]);
    } else {
      assert forall jk :: js == {jk} ==> |js| == 1;
    }
  }

  lemma ComesToTheJobs(v: Objects, k: Key, b: Binding, pod: Option<Pod>)
    requires Ordered(b.body.conditions) && Finalizing(v, k, b, pod)
    ensures BC.Verdict(v, k, b, pod) == BC.JobVerdict(v, k, b)
  {
  }

  lemma NoJobEffects(now: int, b: Binding)
    requires Ordered(b.body.conditions)
    ensures WithdrawsOnly(BC.NoJobVerdict(now, b), b)
  {
    hide SetStatusCondition, IsTrue;
    if BC.NoJobVerdict(now, b).Save? { NoJobVerdictKeeps(now, b); }
  }

  lemma JobStatusEffects(now: int, b: Binding, j: Job)
    requires !Is(b, FinalizerJobSucceeded)
    ensures RecordsOnly(BC.JobStatusVerdict(now, b, j), b, j)
  {
    hide SetStatusCondition, IsTrue, FinishedAs;
    FinishedStatusIsFirst(j.body.conditions, JobComplete);
    FinishedStatusIsFirst(j.body.conditions, JobFailed);
    if BC.JobStatusVerdict(now, b, j).Save? { JobStatusVerdictKeeps(now, b, j); }
  }

  // ---------------------------------------------------------------- the PVC controller

  /** The PVC at k is the one the binding at k is bound to. */
  predicate Bound(v: Objects, k: Key) {
    k in v.pvcs && k in v.bindings && v.pvcs[k].meta.uid == v.bindings[k].body.pvc.uid
  }

  /** The PVC may go: no pod ever came, or the finalizer Job has succeeded and nothing failed. */
  predicate Done(b: Binding) {
    Is(b, PodMissing) || (!Is(b, Unknown) && Is(b, FinalizerJobSucceeded) && !Is(b, FinalizerJobFailed))
  }

  /** It is time for the Job. */
  predicate WantsJob(b: Binding) {
    !Is(b, PodMissing) && !Is(b, Unknown) && Is(b, OutOfUse) && !Is(b, FinalizerJobApplied)
  }

  /** A PVC reconcile gives the PVC up exactly when it may, else applies the Job exactly when it is time
      and there is none, else leaves the server alone. */
  lemma PVCReconcileExactly(s: Store, v: Objects, got: Table<JobBody>, k: Key)
    requires k in v.bindings ==> Ordered(v.bindings[k].body.conditions)
    ensures var (st, ret) := PC.Reconciled(s, v, got, k);
            if Bound(v, k) && Done(v.bindings[k]) then
              (st, ret) == PC.Release(s, k, v.pvcs[k], if Is(v.bindings[k], PodMissing) then Finished else Requeue)
            else if Bound(v, k) && WantsJob(v.bindings[k]) && !PC.JobRequestOf(v, got, k, v.bindings[k]).NoRequest? then
              var (s1, a) := PC.SendJob(s, k, PC.JobRequestOf(v, got, k, v.bindings[k]));
              st == s1 && ret == if a.Ok? then Requeue else Errored
            else st == s
  {
    hide PC.Release, PC.SendJob, PC.JobRequestOf;
  }

  /** What a PVC reconcile that leaves the server alone answers: it fails over a Job it cannot apply, is
      done with a PVC or a binding that is not its business, and comes back otherwise. */
  lemma PVCReconcileAnswers(s: Store, v: Objects, got: Table<JobBody>, k: Key)
    requires k in v.bindings ==> Ordered(v.bindings[k].body.conditions)
    requires !(Bound(v, k) && Done(v.bindings[k]))
    requires Bound(v, k) && WantsJob(v.bindings[k]) ==> PC.JobRequestOf(v, got, k, v.bindings[k]).NoRequest?
    ensures var ret := PC.Reconciled(s, v, got, k).1;
            && (ret == Errored <==> Bound(v, k) && WantsJob(v.bindings[k]) && NoJobs(v, k))
            && (ret == Finished <==> k in v.pvcs && k in v.bindings && (!Bound(v, k) || Is(v.bindings[k], Unknown)))
  {
    JobsByOwner(v, k);
  }

  /** No Job is asked for exactly when the list shows one, the FluentPVC that controls the binding is not
      there, or a Job of the name has another controller. */
  lemma AsksForNoJobExactlyWhen(v: Objects, got: Table<JobBody>, k: Key, b: Binding)
    ensures PC.JobRequestOf(v, got, k, b).NoRequest? <==>
              || !NoJobs(v, k)
              || b.meta.owner.None? || Key("", b.meta.owner.value.name) !in v.fluentPVCs
              || (k in got && got[k].meta.owner.Some? &&
                  !(got[k].meta.owner.value.kind == BindingKind && got[k].meta.owner.value.name == k.name))
  {
    JobsByOwner(v, k);
  }

  /** A Job is asked for only when the list shows none of this name, for the FluentPVC that controls
      the binding; it is owned by the binding, held by nobody, and in every container mounts the PVC and
      sets the common variables. */
  lemma RequestedJob(v: Objects, got: Table<JobBody>, k: Key)
    requires k in v.bindings && PC.JobRequestOf(v, got, k, v.bindings[k]).CreateIt?
    ensures NoJobs(v, k) && k !in got
    ensures var b, r := v.bindings[k], PC.JobRequestOf(v, got, k, v.bindings[k]);
            && b.meta.owner.Some? && Key("", b.meta.owner.value.name) in v.fluentPVCs
            && var f := v.fluentPVCs[Key("", b.meta.owner.value.name)].body;
               && r.meta.owner == Some(Owner(BindingKind, k.name, b.meta.uid)) && r.meta.finalizers == {}
               && r.body.conditions == [] && r.body.spec.rest == f.jobSpecTemplate.rest
               && HasPVCVolume(f.jobSpecTemplate.template.volumes, r.body.spec.template.volumes, f, k.name)
               && |r.body.spec.template.containers| == |f.jobSpecTemplate.template.containers|
               && forall i :: 0 <= i < |f.jobSpecTemplate.template.containers| ==>
                    Rewritten(f.jobSpecTemplate.template.containers[i], r.body.spec.template.containers[i], f)
  {
    JobsByOwner(v, k);
    var f := v.fluentPVCs[Key("", v.bindings[k].meta.owner.value.name)].body;
    FinalizerJobSpecLaw(f, k.name);
  }
}
