/** Runs that show where the guarantees end: each goes from the initial state to the situation a
    hypothesis of the theorems excludes. */
module Schedules {
  import opened Conditions
  import opened PodSpecs
  import opened SpecRewriting
  import opened Kube
  import opened Utils
  import opened Protocol
  import opened Invariants
  import opened Convergence
  import opened Runs
  import BC = BindingController
  import PC = PVCController

  // ---------------------------------------------------------------- building runs

  datatype Story = Story(ss: seq<State>, acts: seq<Action>)
  {
    ghost predicate Holds() { IsRun(ss, acts) }
    function Last(): State requires ss != [] { ss[|ss| - 1] }
  }

  lemma Begin() returns (r: Story)
    ensures r == Story([Init], []) && r.Holds()
  {
    r := Story([Init], []);
  }

  lemma Extend(r: Story, a: Action) returns (r': Story)
    requires r.Holds() && Enabled(r.Last(), a) && ReadsFrom(a, r.ss)
    ensures r'.Holds() && r' == Story(r.ss + [Next(r.Last(), a)], r.acts + [a])
  {
    hide Next, Enabled;
    var s' := Next(r.Last(), a);
    r' := Story(r.ss + [s'], r.acts + [a]);
    forall i | 0 <= i < |r'.acts| ensures StepAt(r'.ss, r'.acts, i) {
      if i < |r.acts| {
        assert StepAt(r.ss, r.acts, i);
        assert r'.ss[..i + 1] == r.ss[..i + 1];
      } else {
        assert r'.ss[..i + 1] == r.ss;
      }
    }
  }

  // ---------------------------------------------------------------- one binding, its PVC and its pod

  const K := Key("ns", "n")
  const F := Key("", "f")
  const P := Key("ns", "p")

  const SPEC := FluentPVCSpec("", JobSpec(PodSpec([], []), ""), "v", "/v", Named("sidecar", ContainerBody("", [], [])), [], [], [], false)

  function PodIn(phase: PodPhase): PodBody {
    PodBody(map[POD_LABEL_FLUENT_PVC_NAME := "f", POD_LABEL_BINDING_NAME := "n"], PodSpec([], [Named("v", Claim("n"))]), phase, [])
  }

  /** The binding at K with its FluentPVC and its protected PVC; exactly the conditions in `on` hold. */
  ghost predicate Scene(s: State, pod: Identity, on: set<ConditionType>) {
    && K in s.Bindings() && K in s.PVCs() && F in s.FluentPVCs() && s.FluentPVCs()[F].body == SPEC
    && "n" in s.log.minted && "n" in s.log.bound && s.log.minted["n"].ns == "ns"
    && var b, pvc := s.Bindings()[K], s.PVCs()[K];
       && b.meta.owner == Some(Owner(FluentPVCKind, "f", s.FluentPVCs()[F].meta.uid)) && b.body.fluentPVC.name == "f"
       && b.meta.finalizers == {BindingProtection} && b.body.pvc == Identity("n", pvc.meta.uid) && b.body.pod == pod
       && b.meta.created == 0
       && pvc.meta.finalizers == {PVCProtection} && pvc.body.phase == ClaimPending && !pvc.meta.deleting && !b.meta.deleting
       && forall t :: Is(b, t) <==> t in on
  }

  ghost predicate PodAt(s: State, pod: Identity, phase: PodPhase) {
    pod.name == "p" && P in s.Pods() && s.Pods()[P].meta.uid == pod.uid && s.Pods()[P].body == PodIn(phase)
  }

  /** The webhook has made PVC and binding for a pod named p. */
  lemma Opening() returns (r: Story)
    ensures r.Holds() && |r.ss| == 4 && Scene(r.Last(), Identity("p", NO_UID), {})
    ensures r.Last().Pods() == map[] && r.Last().Jobs() == map[] && r.Last().store.objs.now == 0 && r.Last().log.completed == {}
    ensures r.Last().log.stripped == {} && r.Last().log.released == {} && r.ss[0] == Init
    ensures r.Last().store.nextUid > 0
    ensures r.Last().FluentPVCs()[F].meta.finalizers == {} && !r.Last().FluentPVCs()[F].meta.deleting
  {
    r := Begin();
    r := Extend(r, CreateFluentPVC(F, SPEC));
    assert r.Last().FluentPVCs() == map[F := r.Last().FluentPVCs()[F]];
    r := Extend(r, WebhookPVC("ns", "n"));
    var s2 := r.Last();
    assert s2.PVCs().Keys == {K};
    assert s2 in r.ss;
    r := Extend(r, WebhookBinding("n", F, "p", Now(s2)));
    var b := r.Last().Bindings()[K];
    assert b.body.conditions == [];
  }

  /** s' differs from s in its bindings only. */
  predicate OnlyBindings(s: State, s': State) {
    s'.log == s.log && s'.store.objs == s.store.objs.(bindings := s'.Bindings()) && s'.store.nextUid == s.store.nextUid
  }

  lemma Recorded(s: State, f: Sources, pod: Identity, on: set<ConditionType>, on': set<ConditionType>)
    requires Scene(s, pod, on) && f.bindings == s
    requires BC.PlanOf(View(f), K).Save? && SameButStatus(s.Bindings()[K], BC.PlanOf(View(f), K).b)
    requires forall t :: Is(BC.PlanOf(View(f), K).b, t) <==> t in on'
    ensures var s' := Next(s, BindingWrite(K, f)); Scene(s', pod, on') && OnlyBindings(s, s')
    ensures Next(s, BindingWrite(K, f)).Bindings()[K].meta.uid == s.Bindings()[K].meta.uid
  {
    hide BC.PlanOf;
    StatusLands(s.store, K, BC.PlanOf(View(f), K).b);
  }

  lemma Fills(s: State, uid: Uid, phase: PodPhase, on: set<ConditionType>)
    requires Scene(s, Identity("p", NO_UID), on) && PodAt(s, Identity("p", uid), phase) && uid > 0 && Unknown !in on
    ensures var s' := Next(s, BindingWrite(K, Now(s))); Scene(s', Identity("p", uid), on) && OnlyBindings(s, s')
  {
    var v, b := View(Now(s)), s.Bindings()[K];
    assert s.Pods()[P].body.spec.volumes[0].value == Claim("n");
    assert BC.PlanOf(v, K) == BC.Fill(BC.WithPod(b, P, s.Pods()[P]), s.Pods()[P]);
    UpdateLands(s.store, K, BC.WithPod(b, P, s.Pods()[P]));
  }

  /** A pod found running makes the binding Ready, PodMissing or not. */
  lemma GetsReady(s: State, pod: Identity, on: set<ConditionType>)
    requires Scene(s, pod, on) && PodAt(s, pod, PodRunning) && pod.uid > 0 && on <= {PodMissing}
    ensures var s' := Next(s, BindingWrite(K, Now(s))); Scene(s', pod, on + {Ready}) && OnlyBindings(s, s')
  {
    var v, b := View(Now(s)), s.Bindings()[K];
    assert BC.PlanOf(v, K) == BC.Save(BC.With(b, Ready, true, PodFoundPVCFound, v.now), Finished);
    Recorded(s, Now(s), pod, on, on + {Ready});
  }

  /** A list of pods without the bound one makes a Ready binding OutOfUse, whatever the pod does now. */
  lemma GetsOutOfUse(s: State, f: Sources, pod: Identity)
    requires Scene(s, pod, {Ready}) && pod.uid > 0 && pod.name == "p" && f == Now(s).(pods := f.pods) && P !in f.pods.Pods()
    ensures var s' := Next(s, BindingWrite(K, f)); Scene(s', pod, {Ready, OutOfUse}) && OnlyBindings(s, s')
  {
    var v, b := View(f), s.Bindings()[K];
    assert BC.PlanOf(v, K) == BC.Save(BC.With(b, OutOfUse, true, PodDeletedPVCFound, v.now), Finished);
    Recorded(s, f, pod, {Ready}, {Ready, OutOfUse});
  }

  lemma TimesOut(s: State)
    requires Scene(s, Identity("p", NO_UID), {}) && s.Pods() == map[] && s.store.objs.now > ONE_HOUR
    ensures var s' := Next(s, BindingWrite(K, Now(s))); Scene(s', Identity("p", NO_UID), {PodMissing}) && OnlyBindings(s, s')
  {
    var v, b := View(Now(s)), s.Bindings()[K];
    assert BC.PlanOf(v, K) == BC.Save(BC.With(b, PodMissing, true, BindingPodTimeout, v.now), Finished);
    Recorded(s, Now(s), Identity("p", NO_UID), {}, {PodMissing});
  }

  lemma CreatesPod(s: State, on: set<ConditionType>)
    requires Scene(s, Identity("p", NO_UID), on) && s.Pods() == map[] && s.store.nextUid > 0
    ensures Enabled(s, CreatePod(P, PodIn(PodRunning)))
    ensures var s' := Next(s, CreatePod(P, PodIn(PodRunning)));
            Scene(s', Identity("p", NO_UID), on) && PodAt(s', Identity("p", s.store.nextUid), PodRunning) &&
            s'.Jobs() == s.Jobs() && s'.log == s.log
  {
  }

  // ---------------------------------------------------------------- PodMissing and Ready

  /** A pod that turns up after PodMissing makes the binding Ready as well, and the PVC is released all
      the same: under a running pod, without any Job. DataSafety needs its hypothesis on PodMissing. */
  lemma ReleasedUnderARunningPod() returns (r: Story)
    ensures r.Holds() && r.ss != []
    ensures var s := r.Last();
            && K in s.Bindings() && Is(s.Bindings()[K], Ready) && Is(s.Bindings()[K], PodMissing)
            && P in s.Pods() && s.Pods()[P].meta.uid == s.Bindings()[K].body.pod.uid && s.Pods()[P].body.phase.PodRunning?
            && s.Jobs() == map[] && s.log.completed == {}
            && !Protected(s.PVCs(), K, s.Bindings()[K].body.pvc.uid) && s.Bindings()[K].body.pvc.uid in s.log.released
  {
    hide Scene, PodAt, Next, Enabled;
    r := Opening();
    r := Waits(r);
    var s5 := r.Last();
    CreatesPod(s5, {PodMissing});
    r := Extend(r, CreatePod(P, PodIn(PodRunning)));
    var s6, pod := r.Last(), Identity("p", s5.store.nextUid);
    Fills(s6, pod.uid, PodRunning, {PodMissing});
    r := Writes(r);
    var s7 := r.Last();
    SamePod(s6, s7, pod, PodRunning);
    GetsReady(s7, pod, {PodMissing});
    r := Writes(r);
    var s8 := r.Last();
    SamePod(s7, s8, pod, PodRunning);
    r := Releases(r, pod);
  }

  lemma SamePod(s: State, s': State, pod: Identity, phase: PodPhase)
    requires PodAt(s, pod, phase) && OnlyBindings(s, s')
    ensures PodAt(s', pod, phase)
  {
  }

  /** The next step is a binding write, or an application of the Job, on reads f. */
  lemma WritesOn(r: Story, f: Sources) returns (r': Story)
    requires r.Holds() && SourcesIn(f, r.ss)
    ensures r'.Holds() && r' == Story(r.ss + [Next(r.Last(), BindingWrite(K, f))], r.acts + [BindingWrite(K, f)])
  {
    r' := Extend(r, BindingWrite(K, f));
  }

  lemma SendsJob(r: Story, f: Sources) returns (r': Story)
    requires r.Holds() && SourcesIn(f, r.ss)
    ensures r'.Holds() && r' == Story(r.ss + [Next(r.Last(), JobWrite(K, f))], r.acts + [JobWrite(K, f)])
  {
    r' := Extend(r, JobWrite(K, f));
  }

  /** The next step is a binding write on fresh reads. */
  lemma Writes(r: Story) returns (r': Story)
    requires r.Holds()
    ensures r'.Holds() && r' == Story(r.ss + [Next(r.Last(), BindingWrite(K, Now(r.Last())))], r.acts + [BindingWrite(K, Now(r.Last()))])
  {
    assert r.Last() in r.ss;
    r' := Extend(r, BindingWrite(K, Now(r.Last())));
  }

  /** More than an hour goes by without a pod. */
  lemma Waits(r: Story) returns (r': Story)
    requires r.Holds() && Scene(r.Last(), Identity("p", NO_UID), {}) && r.Last().Pods() == map[] && r.Last().store.objs.now == 0
    ensures r'.Holds() && r.ss <= r'.ss && Scene(r'.Last(), Identity("p", NO_UID), {PodMissing})
    ensures var s, s' := r.Last(), r'.Last();
            s'.Pods() == map[] && s'.Jobs() == s.Jobs() && s'.log == s.log && s'.store.nextUid == s.store.nextUid
  {
    hide Scene, IsRun, Next;
    r' := Ticks(r);
    TimesOut(r'.Last());
    r' := Writes(r');
  }

  lemma Ticks(r: Story) returns (r': Story)
    requires r.Holds() && Scene(r.Last(), Identity("p", NO_UID), {}) && r.Last().store.objs.now == 0
    ensures r'.Holds() && r.ss <= r'.ss && Scene(r'.Last(), Identity("p", NO_UID), {})
    ensures var s, s' := r.Last(), r'.Last();
            s'.Pods() == s.Pods() && s'.Jobs() == s.Jobs() && s'.log == s.log && s'.store.nextUid == s.store.nextUid &&
            s'.store.objs.now > ONE_HOUR
  {
    hide IsRun;
    r' := Extend(r, Tick(ONE_HOUR + 1));
  }

  lemma Releases(r: Story, pod: Identity) returns (r': Story)
    requires r.Holds() && Scene(r.Last(), pod, {PodMissing, Ready}) && PodAt(r.Last(), pod, PodRunning)
    ensures r'.Holds() && r'.ss != []
    ensures var s, s' := r.Last(), r'.Last();
            && K in s'.Bindings() && s'.Bindings() == s.Bindings() && Is(s'.Bindings()[K], Ready) && Is(s'.Bindings()[K], PodMissing)
            && P in s'.Pods() && s'.Pods()[P].meta.uid == s'.Bindings()[K].body.pod.uid && s'.Pods()[P].body.phase.PodRunning?
            && s'.Jobs() == s.Jobs() && s'.log.completed == s.log.completed
            && !Protected(s'.PVCs(), K, s'.Bindings()[K].body.pvc.uid) && s'.Bindings()[K].body.pvc.uid in s'.log.released
  {
    var s := r.Last();
    assert s in r.ss;
    assert PC.MayRelease(View(Now(s)), K);
    r' := Extend(r, ReleaseWrite(K, Now(s)));
  }

  // ---------------------------------------------------------------- an old list of PVCs

  /** A list of PVCs from before the PVC was made shows the pod running and no PVC. */
  lemma GetsUnknown(s: State, f: Sources, pod: Identity)
    requires Scene(s, pod, {}) && PodAt(s, pod, PodRunning) && pod.uid > 0 && f == Now(s).(pvcs := f.pvcs) && K !in f.pvcs.PVCs()
    ensures var s' := Next(s, BindingWrite(K, f));
            && Scene(s', pod, {Unknown}) && OnlyBindings(s, s')
            && Is(s'.Bindings()[K], Unknown)
            && ReasonOf(s'.Bindings()[K].body.conditions, Unknown) == PodRunningButPVCNotFound
  {
    var v, b := View(f), s.Bindings()[K];
    assert BC.PlanOf(v, K) == BC.Save(BC.With(b, Unknown, true, PodRunningButPVCNotFound, v.now), Finished);
    StatusLands(s.store, K, BC.PlanOf(v, K).b);
    Recorded(s, f, pod, {}, {Unknown});
  }

  /** The binding becomes Unknown for want of a PVC that nobody has touched: MissingPVCHasACause needs
      its second cause. */
  lemma UnknownBesideItsPVC() returns (r: Story)
    ensures r.Holds() && r.ss != []
    ensures var s := r.Last();
            && K in s.Bindings() && Is(s.Bindings()[K], Unknown)
            && ReasonOf(s.Bindings()[K].body.conditions, Unknown) == PodRunningButPVCNotFound
            && Protected(s.PVCs(), K, s.Bindings()[K].body.pvc.uid) && s.log.stripped == {} && s.log.released == {}
  {
    hide Scene, PodAt, Next, Enabled;
    r := Opening();
    var s3 := r.Last();
    CreatesPod(s3, {});
    r := Extend(r, CreatePod(P, PodIn(PodRunning)));
    var s4, pod := r.Last(), Identity("p", s3.store.nextUid);
    Fills(s4, pod.uid, PodRunning, {});
    r := Writes(r);
    var s5 := r.Last();
    SamePod(s4, s5, pod, PodRunning);
    var f := Now(s5).(pvcs := r.ss[0]);
    assert s5 in r.ss && r.ss[0] in r.ss;
    GetsUnknown(s5, f, pod);
    r := WritesOn(r, f);
    SceneProtects(r.Last(), pod, {Unknown});
  }

  lemma SceneProtects(s: State, pod: Identity, on: set<ConditionType>)
    requires Scene(s, pod, on)
    ensures K in s.Bindings() && Protected(s.PVCs(), K, s.Bindings()[K].body.pvc.uid)
  {
  }

  // ---------------------------------------------------------------- Jobs

  /** The Job at K is the only one, owned by the binding, with these conditions. */
  ghost predicate JobAt(s: State, cs: seq<JobCondition>) {
    && K in s.Jobs() && s.Jobs() == map[K := s.Jobs()[K]] && K in s.Bindings()
    && s.Jobs()[K].meta.owner == Some(PC.FinalizerJobOwner(K, s.Bindings()[K])) && s.Jobs()[K].meta.finalizers == {}
    && !s.Jobs()[K].meta.deleting && s.Jobs()[K].body.conditions == cs
  }

  /** A Job is applied on the strength of a binding read in state p, which may be long past. */
  lemma Applies(s: State, p: State, pod: Identity, on: set<ConditionType>)
    requires Scene(p, pod, {Ready, OutOfUse}) && Scene(s, pod, on) && s.Jobs() == map[]
    requires p.Bindings()[K].meta.uid == s.Bindings()[K].meta.uid && p.Bindings()[K].body.pvc == s.Bindings()[K].body.pvc
    ensures var s' := Next(s, JobWrite(K, Now(s).(bindings := p)));
            Scene(s', pod, on) && JobAt(s', []) && s'.Pods() == s.Pods() && s'.log == s.log && s'.Bindings() == s.Bindings()
  {
    var v, b := View(Now(s).(bindings := p)), p.Bindings()[K];
    assert JobsOwnedBy(v.jobs, "n") == {};
    assert PC.MayApply(v, K);
    assert PC.JobRequestOf(v, s.Jobs(), K, b) ==
           PC.CreateIt(NewMeta({}, Some(PC.FinalizerJobOwner(K, b))), JobBody(FinalizerJobSpec(SPEC, "n"), NO_UID, []));
  }

  lemma Finishes(s: State, pod: Identity, on: set<ConditionType>, c: JobCondition)
    requires Scene(s, pod, on) && JobAt(s, []) && IsFinish(c)
    ensures Enabled(s, SetJobStatus(K, [c]))
    ensures var s' := Next(s, SetJobStatus(K, [c]));
            Scene(s', pod, on) && JobAt(s', [c]) && s'.Pods() == s.Pods() && s'.Bindings() == s.Bindings()
  {
  }

  lemma Deleted(s: State, pod: Identity, on: set<ConditionType>, cs: seq<JobCondition>)
    requires Scene(s, pod, on) && JobAt(s, cs)
    ensures Enabled(s, DeleteJob(K))
    ensures var s' := Next(s, DeleteJob(K));
            Scene(s', pod, on) && s'.Jobs() == map[] && s'.Pods() == s.Pods() && s'.Bindings() == s.Bindings()
  {
  }

  function Outcome(c: JobCondition): ConditionType {
    if c.kind.JobComplete? then FinalizerJobSucceeded else FinalizerJobFailed
  }

  lemma RecordsJob(s: State, pod: Identity, on: set<ConditionType>, c: JobCondition)
    requires Scene(s, pod, on) && PodAt(s, pod, PodSucceeded) && pod.uid > 0 && JobAt(s, [c]) && IsFinish(c)
    requires {Ready, OutOfUse} <= on && Unknown !in on && FinalizerJobSucceeded !in on && PodMissing !in on
    ensures var s' := Next(s, BindingWrite(K, Now(s)));
            Scene(s', pod, on + {FinalizerJobApplied, Outcome(c)}) && OnlyBindings(s, s') && JobAt(s', [c])
  {
    hide PodAt, Next, BC.PlanOf, BC.JobStatusVerdict;
    var v, b, j := View(Now(s)), s.Bindings()[K], s.Jobs()[K];
    PlanIsToRecord(s, pod, on, c);
    JobStatusVerdictKeeps(v.now, b, j);
    RecordedConditions(s, pod, on, c);
    Recorded(s, Now(s), pod, on, on + {FinalizerJobApplied, Outcome(c)});
    SameJob(s, Next(s, BindingWrite(K, Now(s))), [c]);
  }

  lemma SameJob(s: State, s': State, cs: seq<JobCondition>)
    requires JobAt(s, cs) && OnlyBindings(s, s') && K in s'.Bindings() && s'.Bindings()[K].meta.uid == s.Bindings()[K].meta.uid
    ensures JobAt(s', cs)
  {
  }

  lemma PlanIsToRecord(s: State, pod: Identity, on: set<ConditionType>, c: JobCondition)
    requires Scene(s, pod, on) && PodAt(s, pod, PodSucceeded) && pod.uid > 0 && JobAt(s, [c]) && IsFinish(c)
    requires {Ready, OutOfUse} <= on && Unknown !in on && FinalizerJobSucceeded !in on && PodMissing !in on
    ensures var v, plan := View(Now(s)), BC.PlanOf(View(Now(s)), K);
            plan.Save? && plan == BC.JobStatusVerdict(v.now, s.Bindings()[K], s.Jobs()[K])
  {
    hide SetStatusCondition, IsTrue;
    hide BC.JobVerdict;
    OnlyJob(View(Now(s)), s.Bindings()[K]);
  }

  lemma RecordedConditions(s: State, pod: Identity, on: set<ConditionType>, c: JobCondition)
    requires Scene(s, pod, on) && JobAt(s, [c]) && IsFinish(c)
    requires BC.JobStatusVerdict(s.store.objs.now, s.Bindings()[K], s.Jobs()[K]).Save?
    ensures var b1 := BC.JobStatusVerdict(s.store.objs.now, s.Bindings()[K], s.Jobs()[K]).b;
            forall t :: Is(b1, t) <==> t in on + {FinalizerJobApplied, Outcome(c)}
  {
    hide BC.JobStatusVerdict;
    JobStatusVerdictKeeps(s.store.objs.now, s.Bindings()[K], s.Jobs()[K]);
  }

  lemma OnlyJob(v: Objects, b: Binding)
    requires K in v.jobs && v.jobs == map[K := v.jobs[K]] && JobIndex(v.jobs[K]) == Some("n")
    ensures BC.JobVerdict(v, K, b) == BC.JobStatusVerdict(v.now, b, v.jobs[K])
  {
    assert JobsOwnedBy(v.jobs, "n") == {K};
  }

  /** The pod runs and has been recorded. */
  lemma Running() returns (r: Story, pod: Identity)
    ensures r.Holds() && |r.ss| == 7 && pod.uid > 0
    ensures Scene(r.Last(), pod, {Ready}) && PodAt(r.Last(), pod, PodRunning) && r.Last().Jobs() == map[]
    ensures r.ss[3].Pods() == map[]
  {
    hide Scene, PodAt, Next, Enabled;
    r := Opening();
    var s3 := r.Last();
    CreatesPod(s3, {});
    pod := Identity("p", s3.store.nextUid);
    r := Extend(r, CreatePod(P, PodIn(PodRunning)));
    var s4 := r.Last();
    Fills(s4, pod.uid, PodRunning, {});
    r := Writes(r);
    var s5 := r.Last();
    SamePod(s4, s5, pod, PodRunning);
    GetsReady(s5, pod, {});
    r := Writes(r);
    SamePod(s5, r.Last(), pod, PodRunning);
    assert {} + {Ready} == {Ready};
  }

  /** With a list of pods from before the pod existed, a Job is applied beside the running pod:
      MutualExclusion needs fresh reads. */
  lemma JobBesideARunningPod() returns (r: Story)
    ensures r.Holds() && r.ss != []
    ensures var s := r.Last();
            && K in s.Bindings() && K in JobsOwnedBy(s.Jobs(), "n")
            && P in s.Pods() && s.Pods()[P].meta.uid == s.Bindings()[K].body.pod.uid && s.Pods()[P].body.phase.PodRunning?
  {
    hide Next, Enabled;
    var pod;
    r, pod := Running();
    var s, early := r.Last(), r.ss[3];
    var f := Now(s).(pods := early);
    GetsOutOfUse(s, f, pod);
    assert s in r.ss && early in r.ss;
    r := WritesOn(r, f);
    var s' := r.Last();
    Applies(s', s', pod, {Ready, OutOfUse});
    assert s' in r.ss;
    r := SendsJob(r, Now(s').(bindings := s'));
  }

  lemma PodEnds(s: State, pod: Identity, on: set<ConditionType>)
    requires Scene(s, pod, on) && PodAt(s, pod, PodRunning)
    ensures Enabled(s, EditPod(P, PodIn(PodSucceeded)))
    ensures var s' := Next(s, EditPod(P, PodIn(PodSucceeded)));
            Scene(s', pod, on) && PodAt(s', pod, PodSucceeded) && s'.Jobs() == s.Jobs()
  {
  }

  lemma PodWasSeenToEnd(s: State, pod: Identity)
    requires Scene(s, pod, {Ready}) && PodAt(s, pod, PodSucceeded) && pod.uid > 0
    ensures var s' := Next(s, BindingWrite(K, Now(s))); Scene(s', pod, {Ready, OutOfUse}) && OnlyBindings(s, s')
  {
    var v, b := View(Now(s)), s.Bindings()[K];
    assert BC.PlanOf(v, K) == BC.Save(BC.With(b, OutOfUse, true, PodCompletedPVCFound, v.now), Finished);
    Recorded(s, Now(s), pod, {Ready}, {Ready, OutOfUse});
  }

  const FAILED := JobCondition(JobFailed, true)
  const COMPLETE := JobCondition(JobComplete, true)

  /** The pod has ended; the Job has been applied and has finished with c, and both have been recorded. */
  lemma FinishedJob(c: JobCondition) returns (r: Story, pod: Identity, n: nat)
    requires IsFinish(c)
    ensures r.Holds() && n < |r.ss| && pod.uid > 0
    ensures Scene(r.Last(), pod, {Ready, OutOfUse, FinalizerJobApplied, Outcome(c)}) && PodAt(r.Last(), pod, PodSucceeded)
    ensures JobAt(r.Last(), [c])
    ensures Scene(r.ss[n], pod, {Ready, OutOfUse})
  {
    hide Scene, PodAt, JobAt, Next, Enabled;
    r, pod, n := AppliedJob();
    var s1 := r.Last();
    Finishes(s1, pod, {Ready, OutOfUse}, c);
    r := Extend(r, SetJobStatus(K, [c]));
    SamePods(s1, r.Last(), pod, PodSucceeded);
    var s2 := r.Last();
    RecordsJob(s2, pod, {Ready, OutOfUse}, c);
    r := Writes(r);
    SamePod(s2, r.Last(), pod, PodSucceeded);
    assert {Ready, OutOfUse} + {FinalizerJobApplied, Outcome(c)} == {Ready, OutOfUse, FinalizerJobApplied, Outcome(c)};
  }

  lemma AppliedJob() returns (r: Story, pod: Identity, n: nat)
    ensures r.Holds() && n < |r.ss| && pod.uid > 0
    ensures Scene(r.Last(), pod, {Ready, OutOfUse}) && PodAt(r.Last(), pod, PodSucceeded) && JobAt(r.Last(), [])
    ensures Scene(r.ss[n], pod, {Ready, OutOfUse})
  {
    hide Scene, PodAt, JobAt, Next, Enabled;
    r, pod := Running();
    PodEnds(r.Last(), pod, {Ready});
    r := Extend(r, EditPod(P, PodIn(PodSucceeded)));
    var s0 := r.Last();
    PodWasSeenToEnd(s0, pod);
    r := Writes(r);
    var s := r.Last();
    SamePod(s0, s, pod, PodSucceeded);
    n := |r.ss| - 1;
    Applies(s, s, pod, {Ready, OutOfUse});
    assert s in r.ss;
    r := SendsJob(r, Now(s).(bindings := s));
    SamePods(s, r.Last(), pod, PodSucceeded);
  }

  lemma SamePods(s: State, s': State, pod: Identity, phase: PodPhase)
    requires PodAt(s, pod, phase) && s'.Pods() == s.Pods()
    ensures PodAt(s', pod, phase)
  {
  }

  /** Someone deletes the failed Job; a PVC reconcile that still sees the binding as it was before the
      first Job applies a second one, which completes: Succeeded and Failed are both set. */
  lemma SucceededAndFailed() returns (r: Story)
    ensures r.Holds() && r.ss != []
    ensures var s := r.Last();
            && K in s.Bindings() && Is(s.Bindings()[K], FinalizerJobSucceeded) && Is(s.Bindings()[K], FinalizerJobFailed)
            && !Is(s.Bindings()[K], PodMissing) && !Is(s.Bindings()[K], Unknown)
            && Protected(s.PVCs(), K, s.Bindings()[K].body.pvc.uid) && !s.PVCs()[K].body.phase.ClaimLost?
            && s.Bindings()[K].meta.finalizers == {BindingProtection}
  {
    hide Scene, PodAt, JobAt, Next, Enabled, IsRun;
    var pod, n;
    r, pod, n := FinishedJob(FAILED);
    var on := {Ready, OutOfUse, FinalizerJobApplied, FinalizerJobFailed};
    r := SecondJob(r, pod, n, on);
    var s := r.Last();
    Finishes(s, pod, on, COMPLETE);
    r := Extend(r, SetJobStatus(K, [COMPLETE]));
    SamePods(s, r.Last(), pod, PodSucceeded);
    RecordsJob(r.Last(), pod, on, COMPLETE);
    r := Writes(r);
    BothSet(r.Last(), pod, on + {FinalizerJobApplied, Outcome(COMPLETE)});
  }

  lemma SecondJob(r: Story, pod: Identity, n: nat, on: set<ConditionType>) returns (r': Story)
    requires r.Holds() && n < |r.ss| && Scene(r.ss[n], pod, {Ready, OutOfUse}) && Scene(r.Last(), pod, on)
    requires JobAt(r.Last(), [FAILED]) && PodAt(r.Last(), pod, PodSucceeded)
    ensures r'.Holds() && r'.ss != [] && Scene(r'.Last(), pod, on) && JobAt(r'.Last(), []) && PodAt(r'.Last(), pod, PodSucceeded)
  {
    hide Scene, PodAt, JobAt, Next, Enabled, IsRun;
    var p, s := r.ss[n], r.Last();
    SameBindingInRun(r, n, pod, on);
    Deleted(s, pod, on, [FAILED]);
    r' := Extend(r, DeleteJob(K));
    var s1 := r'.Last();
    SamePods(s, s1, pod, PodSucceeded);
    Applies(s1, p, pod, on);
    assert r'.ss[n] == p;
    r' := SendsJob(r', Now(s1).(bindings := p));
    SamePods(s1, r'.Last(), pod, PodSucceeded);
  }

  lemma SameBindingInRun(r: Story, n: nat, pod: Identity, on: set<ConditionType>)
    requires r.Holds() && n < |r.ss| && Scene(r.ss[n], pod, {Ready, OutOfUse}) && Scene(r.Last(), pod, on)
    ensures r.ss[n].Bindings()[K].meta.uid == r.Last().Bindings()[K].meta.uid
    ensures r.ss[n].Bindings()[K].body.pvc == r.Last().Bindings()[K].body.pvc
  {
    BindingsOnlyAdvance(r.ss, r.acts, n, |r.ss| - 1, K);
  }

  lemma BothSet(s: State, pod: Identity, on: set<ConditionType>)
    requires Scene(s, pod, on) && FinalizerJobSucceeded in on && FinalizerJobFailed in on && PodMissing !in on && Unknown !in on
    ensures K in s.Bindings() && Is(s.Bindings()[K], FinalizerJobSucceeded) && Is(s.Bindings()[K], FinalizerJobFailed)
    ensures !Is(s.Bindings()[K], PodMissing) && !Is(s.Bindings()[K], Unknown)
    ensures Protected(s.PVCs(), K, s.Bindings()[K].body.pvc.uid) && !s.PVCs()[K].body.phase.ClaimLost?
    ensures s.Bindings()[K].meta.finalizers == {BindingProtection}
  {
  }
}
