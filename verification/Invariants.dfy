/** What every run keeps, whatever the staleness of the controllers' reads. */
module Invariants {
  import opened Conditions
  import opened Kube
  import opened Utils
  import opened Protocol
  import BC = BindingController
  import PC = PVCController
  import FC = FluentPVCController
  import DC = PodController
  import WH = PodWebhook

  // ---------------------------------------------------------------- what a binding reconcile may change

  /** Conditions are reached in order. */
  predicate Ordered(cs: seq<Condition>) {
    && (IsTrue(cs, FinalizerJobSucceeded) ==> IsTrue(cs, FinalizerJobApplied))
    && (IsTrue(cs, FinalizerJobFailed) ==> IsTrue(cs, FinalizerJobApplied))
    && (IsTrue(cs, FinalizerJobApplied) ==> IsTrue(cs, OutOfUse))
    && (IsTrue(cs, OutOfUse) ==> IsTrue(cs, Ready))
  }

  /** Conditions that are never withdrawn; PodMissing comes before Ready or not at all; Unknown freezes all. */
  predicate StatusLe(cs: seq<Condition>, cs': seq<Condition>) {
    && (IsTrue(cs, Ready) ==> IsTrue(cs', Ready))
    && (IsTrue(cs, PodMissing) ==> IsTrue(cs', PodMissing))
    && (IsTrue(cs, OutOfUse) ==> IsTrue(cs', OutOfUse))
    && (IsTrue(cs, FinalizerJobSucceeded) ==> IsTrue(cs', FinalizerJobSucceeded))
    && (IsTrue(cs, Unknown) ==> cs' == cs)
    && (IsTrue(cs, Ready) && IsTrue(cs', PodMissing) ==> IsTrue(cs, PodMissing))
  }

  /** A later version of the same binding: status as above, identities settled once and for all. */
  predicate BindingLe(b: Binding, b': Binding) {
    && b'.meta.uid == b.meta.uid && b'.meta.created == b.meta.created
    && (BindingProtection in b'.meta.finalizers ==> BindingProtection in b.meta.finalizers)
    && b'.body.pvc == b.body.pvc
    && b'.body.fluentPVC.name == b.body.fluentPVC.name
    && (b.body.pod.name != "" ==> b'.body.pod.name == b.body.pod.name)
    && (!BC.Unfilled(b) ==> b'.body.pod == b.body.pod)
    && StatusLe(b.body.conditions, b'.body.conditions)
  }

  predicate SameButStatus(b: Binding, b1: Binding) {
    b1 == b.(body := b.body.(conditions := b1.body.conditions))
  }

  predicate BlamesPVC(r: Reason) {
    r.PodAndPVCNotFound? || r.PodRunningButPVCNotFound? || r.PodCompletedPVCNotFound?
  }

  /** Unknown was never set for a PVC that the operator may have given up, nor for too many Jobs. */
  predicate BlameOK(cs: seq<Condition>) {
    IsTrue(cs, Unknown) ==>
      && !ReasonOf(cs, Unknown).MultipleFinalizerJobsFound?
      && (BlamesPVC(ReasonOf(cs, Unknown)) ==> !IsTrue(cs, PodMissing) && !IsTrue(cs, FinalizerJobSucceeded))
  }

  /** The kinds of status update, with what a reconcile saw (pod, PVC, Jobs) and knew when it made one. */
  datatype Change = ToUnknown(reason: Reason) | ToPodMissing | ToOutOfUse(reason: Reason) | ToReady | JobsGone | JobSeen(jk: Key)

  ghost predicate Fits(v: Objects, k: Key, b: Binding, pod: Option<Pod>, c: Change, b1: Binding) {
    match c
    case ToUnknown(reason) =>
      && b1 == BC.With(b, Unknown, true, reason, v.now)
      && (reason.PVCLost? || BlamesPVC(reason) || reason.MultipleFinalizerJobsFound?)
      && (reason.PVCLost? ==> BC.FindPVC(v, k, b).Some? && BC.FindPVC(v, k, b).value.body.phase.ClaimLost?)
      && (BlamesPVC(reason) ==> BC.FindPVC(v, k, b).None? && !Is(b, PodMissing) && !Is(b, FinalizerJobSucceeded))
      && (reason.MultipleFinalizerJobsFound? ==> |JobsOwnedBy(v.jobs, k.name)| > 1 && !Is(b, FinalizerJobSucceeded))
    case ToPodMissing => b1 == BC.With(b, PodMissing, true, BindingPodTimeout, v.now) && pod.None? && !Is(b, Ready) &&
                         b.meta.created + 3600 < v.now
    case ToOutOfUse(reason) =>
      b1 == BC.With(b, OutOfUse, true, reason, v.now) && !Is(b, OutOfUse) && Is(b, Ready) && (pod.None? || Terminal(pod.value.body.phase))
    case ToReady => b1 == BC.With(b, Ready, true, PodFoundPVCFound, v.now) && !Is(b, Ready) && pod.Some? && BC.FindPVC(v, k, b).Some?
    case JobsGone =>
      && JobsOwnedBy(v.jobs, k.name) == {} && !Is(b, FinalizerJobSucceeded) && Is(b, OutOfUse)
      && BC.NoJobVerdict(v.now, b).Save? && b1 == BC.NoJobVerdict(v.now, b).b
    case JobSeen(jk) =>
      && JobsOwnedBy(v.jobs, k.name) == {jk} && !Is(b, FinalizerJobSucceeded) && Is(b, OutOfUse)
      && BC.JobStatusVerdict(v.now, b, v.jobs[jk]).Save? && b1 == BC.JobStatusVerdict(v.now, b, v.jobs[jk]).b
  }

  lemma Classify(v: Objects, k: Key, b: Binding, pod: Option<Pod>) returns (c: Change)
    requires BC.Verdict(v, k, b, pod).Save?
    ensures Fits(v, k, b, pod, c, BC.Verdict(v, k, b, pod).b)
  {
    var pvc := BC.FindPVC(v, k, b);
    if pvc.Some? && pvc.value.body.phase.ClaimLost? {
      c := ToUnknown(PVCLost);
    } else if pod.None? && !Is(b, Ready) {
      c := ToPodMissing;
    } else if pvc.None? {
      c := ToUnknown(if pod.None? then PodAndPVCNotFound else if pod.value.body.phase.PodRunning? then PodRunningButPVCNotFound
                     else PodCompletedPVCNotFound);
    } else if !Is(b, Ready) {
      c := ToReady;
    } else if !Is(b, OutOfUse) {
      c := ToOutOfUse(if pod.None? then PodDeletedPVCFound else PodCompletedPVCFound);
    } else {
      c := ClassifyJobs(v, k, b, pod);
    }
  }

  lemma ClassifyJobs(v: Objects, k: Key, b: Binding, pod: Option<Pod>) returns (c: Change)
    requires BC.JobVerdict(v, k, b).Save? && Is(b, OutOfUse) && !Is(b, FinalizerJobSucceeded)
    ensures Fits(v, k, b, pod, c, BC.JobVerdict(v, k, b).b)
  {
    var js := JobsOwnedBy(v.jobs, k.name);
    if |js| == 0 {
      c := JobsGone;
    } else if |js| != 1 {
      c := ToUnknown(MultipleFinalizerJobsFound);
    } else {
      var jk :| jk in js && BC.JobVerdict(v, k, b) == BC.JobStatusVerdict(v.now, b, v.jobs[jk]);
      forall x | x in js ensures x == jk { SingletonChoice(js, x, jk); }
      c := JobSeen(jk);
    }
  }

  /** Every status update keeps the order of the conditions and withdraws only what may be withdrawn. */
  lemma ChangeKeeps(v: Objects, k: Key, b: Binding, pod: Option<Pod>, c: Change, b1: Binding)
    requires Fits(v, k, b, pod, c, b1)
    requires Ordered(b.body.conditions) && !Is(b, Unknown)
    ensures SameButStatus(b, b1)
    ensures StatusLe(b.body.conditions, b1.body.conditions)
    ensures Ordered(b1.body.conditions)
    ensures |JobsOwnedBy(v.jobs, k.name)| <= 1 ==> BlameOK(b1.body.conditions)
  {
    hide SetStatusCondition, IsTrue, ReasonOf;
    match c
    case JobsGone => NoJobVerdictKeeps(v.now, b);
    case JobSeen(jk) => JobStatusVerdictKeeps(v.now, b, v.jobs[jk]);
    case _ =>
  }

  lemma NoJobVerdictKeeps(now: int, b: Binding)
    requires BC.NoJobVerdict(now, b).Save?
    requires Ordered(b.body.conditions)
    ensures var b1 := BC.NoJobVerdict(now, b).b;
            && SameButStatus(b, b1)
            && (forall t :: Is(b1, t) <==> Is(b, t) && t != FinalizerJobApplied && t != FinalizerJobFailed)
  {
    hide SetStatusCondition, IsTrue, ReasonOf;
  }

  lemma JobStatusVerdictKeeps(now: int, b: Binding, j: Job)
    requires BC.JobStatusVerdict(now, b, j).Save?
    ensures var b1 := BC.JobStatusVerdict(now, b, j).b;
            && SameButStatus(b, b1)
            && (forall t :: Is(b1, t) <==> Is(b, t) || t == FinalizerJobApplied || (t == FinalizerJobSucceeded && IsJobSucceeded(j)) ||
                                           (t == FinalizerJobFailed && IsJobFailed(j)))
  {
    hide SetStatusCondition, IsTrue, ReasonOf;
  }

  // ---------------------------------------------------------------- the invariant

  ghost predicate NamesOK(s: State) {
    && (forall n :: n in s.log.minted ==> 0 < s.log.minted[n].uid < s.store.nextUid)
    && (forall n, m :: n in s.log.minted && m in s.log.minted && s.log.minted[n].uid == s.log.minted[m].uid ==> n == m)
    && (forall n :: n in s.log.bound ==> n in s.log.minted && 0 < s.log.bound[n] < s.store.nextUid)
    && (forall n, m :: n in s.log.bound && m in s.log.bound && s.log.bound[n] == s.log.bound[m] ==> n == m)
    && (forall u :: u in s.log.released ==> u < s.store.nextUid)
    && (forall n :: n in s.log.minted && s.log.minted[n].uid in s.log.released ==> n in s.log.bound)
  }

  /** Each binding is the one made under its name, bound to the PVC made under that name. */
  ghost predicate BindingOK(s: State, k: Key, b: Binding) {
    && k.name in s.log.bound && s.log.bound[k.name] == b.meta.uid
    && k.name in s.log.minted && s.log.minted[k.name].ns == k.ns
    && b.body.pvc == Identity(k.name, s.log.minted[k.name].uid)
    && b.meta.owner.Some? && b.meta.owner.value.kind == FluentPVCKind && b.meta.owner.value.name == b.body.fluentPVC.name
    && b.body.pod.uid < s.store.nextUid
    && Ordered(b.body.conditions) && BlameOK(b.body.conditions)
    && (Is(b, Ready) ==> !BC.Unfilled(b))
    && (Is(b, FinalizerJobSucceeded) ==> b.meta.uid in s.log.completed)
    && (s.log.minted[k.name].uid in s.log.released ==> Is(b, PodMissing) || Is(b, FinalizerJobSucceeded))
  }

  ghost predicate BindingsOK(s: State) {
    forall k :: k in s.Bindings() ==> BindingOK(s, k, s.Bindings()[k])
  }

  /** pvc-protection is only on PVCs made by webhook calls; such a PVC stays at its key. */
  ghost predicate PVCOK(s: State, k: Key, p: PVC) {
    && (PVCProtection in p.meta.finalizers ==> k.name in s.log.minted && s.log.minted[k.name] == Minted(k.ns, p.meta.uid))
    && (forall n :: n in s.log.minted && s.log.minted[n].uid == p.meta.uid ==> k == Key(s.log.minted[n].ns, n))
  }

  ghost predicate PVCsOK(s: State) {
    && (forall k :: k in s.PVCs() ==> PVCOK(s, k, s.PVCs()[k]))
    && (forall n :: n in s.log.minted ==> var m := s.log.minted[n];
          Protected(s.PVCs(), Key(m.ns, n), m.uid) || m.uid in s.log.released || m.uid in s.log.stripped)
  }

  /** A Job indexed under a binding's name is that binding's: same name, same namespace, owner by UID. */
  ghost predicate JobOK(s: State, k: Key, j: Job) {
    && j.body.selector > 0
    && (JobIndex(j).Some? ==>
          && JobIndex(j).value == k.name && k.name in s.log.bound && k.name in s.log.minted
          && s.log.minted[k.name].ns == k.ns
          && j.meta.owner.value.uid == s.log.bound[k.name]
          && (IsJobSucceeded(j) ==> j.meta.owner.value.uid in s.log.completed)
          && (k in s.Bindings() ==> Is(s.Bindings()[k], OutOfUse)))
  }

  ghost predicate JobsOK(s: State) {
    forall k :: k in s.Jobs() ==> JobOK(s, k, s.Jobs()[k])
  }

  /** The bound pod, as long as it exists, is where the binding looks for it. */
  ghost predicate PodsOK(s: State) {
    && (forall pk :: pk in s.Pods() ==> pk.name != "")
    && (forall pk, qk :: pk in s.Pods() && qk in s.Pods() && s.Pods()[pk].meta.uid == s.Pods()[qk].meta.uid ==> pk == qk)
    && (forall k, pk :: k in s.Bindings() && pk in s.Pods() && !BC.Unfilled(s.Bindings()[k]) &&
                        s.Pods()[pk].meta.uid == s.Bindings()[k].body.pod.uid ==>
          pk == Key(k.ns, s.Bindings()[k].body.pod.name))
  }

  ghost predicate Inv(s: State) {
    Counted(s) && NamesOK(s) && BindingsOK(s) && PVCsOK(s) && JobsOK(s) && PodsOK(s)
  }

  ghost predicate LogGrows(l: Log, l': Log) {
    && (forall n :: n in l.minted ==> n in l'.minted && l'.minted[n] == l.minted[n])
    && (forall n :: n in l.bound ==> n in l'.bound && l'.bound[n] == l.bound[n])
    && l.completed <= l'.completed && l.released <= l'.released && l.stripped <= l'.stripped
  }

  /** A binding that s still or no longer has was there in p if its name was taken in p. */
  ghost predicate BindingsEvolve(p: State, s: State) {
    forall k :: k in s.Bindings() && k.name in p.log.bound ==>
      k in p.Bindings() && BindingLe(p.Bindings()[k], s.Bindings()[k])
  }

  /** What holds between any state of a run and any later one. */
  ghost predicate Evolves(p: State, s: State) {
    TablesGrow(p, s) && LogGrows(p.log, s.log) && BindingsEvolve(p, s)
  }

  lemma EvolvesRefl(s: State)
    ensures Evolves(s, s)
  {
  }

  lemma EvolvesTrans(p: State, s: State, s': State)
    requires Evolves(p, s) && Evolves(s, s') && Inv(p)
    ensures Evolves(p, s')
  {
    TablesGrowTrans(p, s, s');
    forall k | k in s'.Bindings() && k.name in p.log.bound
      ensures k in p.Bindings() && BindingLe(p.Bindings()[k], s'.Bindings()[k])
    {
      assert k.name in s.log.bound;
      assert k in s.Bindings();
    }
  }

  /** A state the reads of a step at s may come from. */
  ghost predicate Past(p: State, s: State) {
    Inv(p) && Evolves(p, s)
  }

  ghost predicate ReadsPast(a: Action, s: State) {
    match a
    case WebhookBinding(_, _, _, f) => SourcesPast(f, s)
    case BindingWrite(_, f) => SourcesPast(f, s)
    case JobWrite(_, f) => SourcesPast(f, s)
    case ReleaseWrite(_, f) => SourcesPast(f, s)
    case FluentPVCWrite(_, f) => SourcesPast(f, s)
    case PodWrite(_, f) => SourcesPast(f, s)
    case _ => true
  }

  ghost predicate SourcesPast(f: Sources, s: State) {
    Past(f.fluentPVCs, s) && Past(f.bindings, s) && Past(f.pvcs, s) && Past(f.pods, s) && Past(f.jobs, s) && Past(f.got, s) && Past(f.clock, s)
  }

  // ---------------------------------------------------------------- the binding controller's writes

  function Stamped(b: Binding, rv: nat): Binding {
    b.(meta := b.meta.(rv := rv))
  }

  /** What a write of the binding controller leaves at k when it is accepted. */
  ghost predicate Outcome(plan: BC.Plan, b: Binding, b': Binding, rv: nat) {
    match plan
    case Stop(_) => b' == b
    case Adopt(b1) => b' == b || b' == Stamped(b1, rv)
    case Fill(b1, _) => b' == b || b' == Stamped(b1, rv)
    case Save(b1, _) => b' == b || b' == Stamped(b1, rv)
    case Drop => b' == b || b' == Stamped(BC.Unprotected(b), rv) ||
                 (BindingProtection !in b.meta.finalizers && b' == b.(meta := b.meta.(deleting := true, rv := rv)))
  }

  /** A write of the binding controller is refused, or finds the binding it read and changes that only. */
  ghost predicate BindingEffect(s: Store, s': Store, v: Objects, k: Key) {
    var t, t' := s.objs.bindings, s'.objs.bindings;
    && s' == WithBindings(s, t')
    && (t' == t ||
        (&& k in t && k in v.bindings && t[k] == v.bindings[k]
         && ((t' == t - {k} && t[k].meta.finalizers <= {BindingProtection} && (BC.PlanOf(v, k).Drop? || BindingProtection !in t[k].meta.finalizers)) ||
             (k in t' && t' == t[k := t'[k]] && Outcome(BC.PlanOf(v, k), t[k], t'[k], s.nextRv)))))
  }

  lemma PlanIsAboutTheBinding(v: Objects, k: Key)
    requires k in v.bindings
    ensures match BC.PlanOf(v, k)
            case Adopt(b1) => b1.meta == v.bindings[k].meta.(owner := b1.meta.owner) &&
                              b1.body.conditions == v.bindings[k].body.conditions
            case Fill(b1, _) => b1.meta == v.bindings[k].meta && b1.body.conditions == v.bindings[k].body.conditions
            case Save(b1, _) => Ordered(v.bindings[k].body.conditions) ==> SameButStatus(v.bindings[k], b1)
            case _ => true
  {
    var b := v.bindings[k];
    if BC.PlanOf(v, k).Save? && Ordered(b.body.conditions) {
      var pod := PodOfVerdict(v, k);
      var c := Classify(v, k, b, pod);
      ChangeKeeps(v, k, b, pod, c, BC.PlanOf(v, k).b);
    }
  }

  /** The pod a reconcile that gets as far as a verdict has found, if any. */
  ghost function PodOfVerdict(v: Objects, k: Key): (pod: Option<Pod>)
    requires k in v.bindings
  {
    match BC.SearchPod(v, k, v.bindings[k])
    case PodAt(_, p) => if p.meta.uid == v.bindings[k].body.pod.uid then Some(p) else None
    case _ => None
  }

  lemma SaveIsAVerdict(v: Objects, k: Key)
    requires BC.PlanOf(v, k).Save?
    ensures k in v.bindings && !Is(v.bindings[k], Unknown)
    ensures BC.PlanOf(v, k) == BC.Verdict(v, k, v.bindings[k], PodOfVerdict(v, k))
    ensures PodOfVerdict(v, k).Some? ==> !BC.Unfilled(v.bindings[k])
  {
  }

  /** Optimistic concurrency at k: a stored version equal to that of the copy o is the copy. */
  predicate Cas<T(==)>(t: Table<T>, k: Key, o: Obj<T>) {
    k in t && t[k].meta.rv == o.meta.rv ==> t[k] == o
  }

  lemma UpdateEffect(s: Store, k: Key, b: Binding, b1: Binding)
    requires Cas(s.objs.bindings, k, b)
    requires b1.meta == b.meta.(owner := b1.meta.owner, finalizers := b1.meta.finalizers)
    requires b1.body.conditions == b.body.conditions
    ensures var st, t := UpdateBinding(s, k, b1).0, s.objs.bindings;
            var t' := st.objs.bindings;
            && st == WithBindings(s, t')
            && (t' == t ||
                (k in t && t[k] == b &&
                 ((t' == t - {k} && b1.meta.finalizers == {}) ||
                  (k in t' && t' == t[k := t'[k]] && (t'[k] == b || t'[k] == Stamped(b1, s.nextRv))))))
  {
  }

  lemma UpdateStatusEffect(s: Store, k: Key, b: Binding, b1: Binding)
    requires Cas(s.objs.bindings, k, b) && SameButStatus(b, b1)
    ensures var st, t := UpdateBindingStatus(s, k, b1).0, s.objs.bindings;
            var t' := st.objs.bindings;
            && st == WithBindings(s, t')
            && (t' == t ||
                (k in t && t[k] == b &&
                 ((t' == t - {k} && b.meta.finalizers == {}) ||
                  (k in t' && t' == t[k := t'[k]] && (t'[k] == b || t'[k] == Stamped(b1, s.nextRv))))))
  {
  }

  lemma DeleteEffect(s: Store, k: Key, b: Binding)
    requires Cas(s.objs.bindings, k, b)
    ensures var st, t := Kube.DeleteBinding(s, k, b.meta).0, s.objs.bindings;
            var t' := st.objs.bindings;
            && st == WithBindings(s, t')
            && (t' == t ||
                (k in t && t[k] == b &&
                 ((t' == t - {k} && b.meta.finalizers == {}) ||
                  (k in t' && t' == t[k := t'[k]] && t'[k] == b.(meta := b.meta.(deleting := true, rv := s.nextRv))))))
  {
  }

  lemma NoBindingNoPlan(v: Objects, k: Key)
    ensures !BC.PlanOf(v, k).Stop? ==> k in v.bindings
  {
  }

  lemma BindingWriteEffect(s: Store, v: Objects, k: Key)
    requires k in v.bindings ==> Cas(s.objs.bindings, k, v.bindings[k]) && Ordered(v.bindings[k].body.conditions)
    ensures BindingEffect(s, BindingPlanWrite(s, v, k), v, k)
  {
    hide BC.PlanOf, UpdateBinding, UpdateBindingStatus, Kube.DeleteBinding, IsTrue;
    NoBindingNoPlan(v, k);
    if k in v.bindings {
      var b, plan := v.bindings[k], BC.PlanOf(v, k);
      PlanIsAboutTheBinding(v, k);
      match plan
      case Stop(_) =>
      case Adopt(b1) => UpdateEffect(s, k, b, b1);
      case Fill(b1, _) => UpdateEffect(s, k, b, b1);
      case Save(b1, _) => UpdateStatusEffect(s, k, b, b1);
      case Drop =>
        if BindingProtection in b.meta.finalizers {
          UpdateEffect(s, k, b, BC.Unprotected(b));
        } else {
          DeleteEffect(s, k, b);
        }
    }
  }

  ghost predicate PodsKnown(v: Objects, nextUid: Uid) {
    forall pk :: pk in v.pods ==> pk.name != "" && 0 < v.pods[pk].meta.uid < nextUid
  }

  /** A list of Jobs, old or new, has at most one for the binding at k, and if that is complete the
      binding is recorded as having completed. */
  ghost predicate JobsKnown(v: Objects, k: Key, completed: set<Uid>, uid: Uid) {
    && |JobsOwnedBy(v.jobs, k.name)| <= 1
    && forall jk :: jk in v.jobs && JobIndex(v.jobs[jk]) == Some(k.name) && IsJobSucceeded(v.jobs[jk]) ==> uid in completed
  }

  lemma FillKeeps(v: Objects, k: Key, nextUid: Uid)
    requires k in v.bindings && BC.PlanOf(v, k).Fill? && PodsKnown(v, nextUid)
    ensures var b, b1 := v.bindings[k], BC.PlanOf(v, k).b;
            && b1 == b.(body := b.body.(pod := b1.body.pod))
            && (b.body.pod.name != "" ==> b1.body.pod.name == b.body.pod.name)
            && BC.Unfilled(b) && !BC.Unfilled(b1)
            && Key(k.ns, b1.body.pod.name) in v.pods
            && v.pods[Key(k.ns, b1.body.pod.name)].meta.uid == b1.body.pod.uid < nextUid
  {
    var at := BC.SearchPod(v, k, v.bindings[k]);
    assert at.PodAt? && at.key in v.pods;
    if v.bindings[k].body.pod.name == "" {
      assert at.key in BC.LabelledPods(v.pods, k.ns, k.name);
    }
  }

  /** Succeeded rests on a Job of this binding that was seen complete, however old the list was. */
  lemma SaveKeeps(v: Objects, k: Key, completed: set<Uid>)
    requires BC.PlanOf(v, k).Save? && Ordered(v.bindings[k].body.conditions)
    requires Is(v.bindings[k], Ready) ==> !BC.Unfilled(v.bindings[k])
    requires Is(v.bindings[k], FinalizerJobSucceeded) ==> v.bindings[k].meta.uid in completed
    requires JobsKnown(v, k, completed, v.bindings[k].meta.uid)
    ensures var b, b1 := v.bindings[k], BC.PlanOf(v, k).b;
            && SameButStatus(b, b1)
            && StatusLe(b.body.conditions, b1.body.conditions)
            && Ordered(b1.body.conditions) && BlameOK(b1.body.conditions)
            && (Is(b1, Ready) ==> !BC.Unfilled(b1))
            && (Is(b1, FinalizerJobSucceeded) ==> b1.meta.uid in completed)
  {
    SaveIsAVerdict(v, k);
    var b, pod := v.bindings[k], PodOfVerdict(v, k);
    var c := Classify(v, k, b, pod);
    ChangeKeeps(v, k, b, pod, c, BC.PlanOf(v, k).b);
    if c.JobSeen? {
      JobStatusVerdictKeeps(v.now, b, v.jobs[c.jk]);
      assert c.jk in JobsOwnedBy(v.jobs, k.name);
    } else if c.JobsGone? {
      NoJobVerdictKeeps(v.now, b);
    }
  }

  /** What the reconcile leaves is a later version of the same, sound binding. */
  lemma OutcomeKeeps(s: State, v: Objects, k: Key, b': Binding)
    requires k in v.bindings && BindingOK(s, k, v.bindings[k])
    requires PodsKnown(v, s.store.nextUid) && JobsKnown(v, k, s.log.completed, v.bindings[k].meta.uid)
    requires Outcome(BC.PlanOf(v, k), v.bindings[k], b', s.store.nextRv)
    ensures BindingLe(v.bindings[k], b')
    ensures BindingOK(s, k, b')
  {
    hide BC.PlanOf, IsTrue, JobsKnown, PodsKnown;
    PlanIsAboutTheBinding(v, k);
    match BC.PlanOf(v, k)
    case Fill(_, _) => FillKeeps(v, k, s.store.nextUid);
    case Save(_, _) => SaveKeeps(v, k, s.log.completed);
    case Adopt(_) => AdoptKeeps(v, k);
    case Drop =>
    case Stop(_) =>
  }

  lemma AdoptKeeps(v: Objects, k: Key)
    requires k in v.bindings && BC.PlanOf(v, k).Adopt?
    ensures var b, b1 := v.bindings[k], BC.PlanOf(v, k).b;
            && b1.body == b.body.(fluentPVC := b1.body.fluentPVC) && b1.body.fluentPVC.name == b.body.fluentPVC.name
            && b1.meta.owner == Some(Owner(FluentPVCKind, b.body.fluentPVC.name, b1.body.fluentPVC.uid))
  {
  }
}
