/** States that no amount of reconciling leaves, and runs that reach them: what the hypotheses of
    convergence keep out. */
module DeadEnds {
  import opened Conditions
  import opened Kube
  import opened Utils
  import opened Protocol
  import opened Invariants
  import opened Reconciles
  import opened Convergence
  import opened Runs
  import opened FinalizerChains
  import opened Schedules
  import BC = BindingController
  import PC = PVCController
  import FC = FluentPVCController

  /** The ways to be stuck at k. */
  datatype DeadEnd = BothOutcomes | NoBinding | NoFluentPVC

  ghost predicate At(v: Objects, k: Key, d: DeadEnd) {
    match d
    case BothOutcomes =>
      // the Job failed once and succeeded once: each controller waits for the other
      && k in v.bindings && Held(v.bindings[k])
      && var b := v.bindings[k];
         && Ordered(b.body.conditions) && b.body.pvc.name == k.name
         && Is(b, FinalizerJobSucceeded) && Is(b, FinalizerJobFailed) && !Is(b, PodMissing)
         && Protected(v.pvcs, k, b.body.pvc.uid) && !v.pvcs[k].body.phase.ClaimLost?
    case NoBinding =>
      // the PVC, which nobody deletes, outlived its binding
      k !in v.bindings && k in v.pvcs && !v.pvcs[k].meta.deleting
    case NoFluentPVC =>
      // the FluentPVC went before its finalizer was set
      k in v.bindings && BC.FluentPVCKey(v.bindings[k]) !in v.fluentPVCs
  }

  lemma BindingMoveStays(s: Store, k: Key, d: DeadEnd)
    requires At(s.objs, k, d)
    ensures At(Do(s, BindingMove(k)).objs, k, d)
  {
    if d.BothOutcomes? { BothOutcomesWait(s, k); }
  }

  lemma BothOutcomesWait(s: Store, k: Key)
    requires At(s.objs, k, BothOutcomes)
    ensures At(Do(s, BindingMove(k)).objs, k, BothOutcomes)
  {
    hide BC.PlanOf, UpdateBinding, BC.Verdict;
    var v, b := s.objs, s.objs.bindings[k];
    WaitingPlan(v, k);
    match BC.PlanOf(v, k)
    case Adopt(b1) => UpdateLands(s, k, b1);
    case Fill(b1, pod) =>
      UpdateLands(s, k, b1);
      WaitingVerdict(v, k, UpdateBinding(s, k, b1).0.objs.bindings[k], Some(pod));
    case _ =>
  }

  lemma WaitingPlan(v: Objects, k: Key)
    requires At(v, k, BothOutcomes)
    ensures match BC.PlanOf(v, k)
            case Stop(_) => true
            case Adopt(b1) => b1.meta == v.bindings[k].meta.(owner := b1.meta.owner) &&
                              b1.body == v.bindings[k].body.(fluentPVC := b1.body.fluentPVC)
            case Fill(b1, _) => b1 == v.bindings[k].(body := v.bindings[k].body.(pod := b1.body.pod))
            case _ => false
  {
    hide BC.Verdict;
    WaitingVerdict(v, k, v.bindings[k], None);
    WaitingVerdict(v, k, v.bindings[k], PodOfVerdict(v, k));
  }

  lemma WaitingVerdict(v: Objects, k: Key, b: Binding, pod: Option<Pod>)
    requires Is(b, FinalizerJobSucceeded) && !Is(b, PodMissing) && b.body.pvc.name == k.name
    requires Protected(v.pvcs, k, b.body.pvc.uid) && !v.pvcs[k].body.phase.ClaimLost?
    ensures BC.Verdict(v, k, b, pod) == BC.Stop(Finished)
  {
  }

  lemma PVCMoveStays(s: Store, k: Key, d: DeadEnd)
    requires At(s.objs, k, d)
    ensures At(Do(s, PVCMove(k)).objs, k, d)
  {
    hide PC.Release, PC.SendJob;
    PVCReconcileFrame(s, s.objs, s.objs.jobs, k);
    if d.BothOutcomes? { assert Do(s, PVCMove(k)) == s; }
  }

  lemma ForeignMoveStays(s: Store, k: Key, d: DeadEnd)
    requires At(s.objs, k, d)
    ensures At(Do(s, ForeignMove(k)).objs, k, d)
  {
    hide Lifted, IsTrue;
    if k in s.objs.pvcs && s.objs.pvcs[k].meta.deleting {
      LiftedPVC(s, k);
    } else {
      NothingToLift(s, k);
    }
  }

  /** A dead end is one for every move of every controller, wherever it is made. */
  lemma MoveStays(s: Store, m: Move, k: Key, d: DeadEnd)
    requires At(s.objs, k, d) && !m.World?
    ensures At(Do(s, m).objs, k, d)
  {
    hide At, BC.Reconciled, PC.Reconciled, Lifted;
    if m.k == k && m.BindingMove? {
      BindingMoveStays(s, k, d);
    } else if m.k == k && m.PVCMove? {
      PVCMoveStays(s, k, d);
    } else if m.k == k && m.ForeignMove? {
      ForeignMoveStays(s, k, d);
    } else {
      match m {
        case BindingMove(k2) => BindingReconcileFrame(s, s.objs, k2);
        case PVCMove(k2) => PVCReconcileFrame(s, s.objs, s.objs.jobs, k2);
        case JobMove(k2) => CompletedFrame(s, k2);
        case ForeignMove(k2) => LiftedFrame(s, k2);
      }
      StaysByFrame(s.objs, Do(s, m).objs, k, d);
    }
  }

  /** Moves of the controllers only. */
  predicate OnlyControllers(ms: seq<Move>) {
    forall m :: m in ms ==> !m.World?
  }

  lemma StaysByFrame(v: Objects, v': Objects, k: Key, d: DeadEnd)
    requires At(v, k, d) && v'.fluentPVCs == v.fluentPVCs && AgreeAt(v.bindings, v'.bindings, k) && AgreeAt(v.pvcs, v'.pvcs, k)
    ensures At(v', k, d)
  {
  }

  lemma {:induction false} DeadEndsStay(s: Store, ms: seq<Move>, k: Key, d: DeadEnd)
    requires At(s.objs, k, d) && OnlyControllers(ms)
    ensures At(Perform(s, ms).objs, k, d)
    decreases |ms|
  {
    hide At, Do;
    if ms != [] {
      MoveStays(s, ms[0], k, d);
      DeadEndsStay(Do(s, ms[0]), ms[1..], k, d);
    }
  }

  // ---------------------------------------------------------------- reaching them

  /** A run to the end where Succeeded and Failed are both set, and no schedule leads on from it. */
  lemma BothOutcomesForever(ms: seq<Move>) returns (r: Story)
    requires OnlyControllers(ms)
    ensures r.Holds() && r.ss != [] && At(r.Last().store.objs, K, BothOutcomes)
    ensures At(Perform(r.Last().store, ms).objs, K, BothOutcomes)
  {
    hide Perform;
    r := SucceededAndFailed();
    var b := r.Last().Bindings()[K];
    ConditionsInOrder(r.ss, r.acts, |r.ss| - 1, K);
    BindingKeepsItsPVCName(r);
    DeadEndsStay(r.Last().store, ms, K, BothOutcomes);
  }

  lemma BindingKeepsItsPVCName(r: Story)
    requires r.Holds() && r.ss != [] && K in r.Last().Bindings()
    ensures r.Last().Bindings()[K].body.pvc.name == "n"
  {
    RunKeepsInv(r.ss, r.acts, |r.ss| - 1);
    BindingIsOK(r.Last(), K);
  }

  /** A FluentPVC deleted right after the webhook call leaves a binding that no schedule moves. */
  lemma OrphanedForever(ms: seq<Move>) returns (r: Story)
    requires OnlyControllers(ms)
    ensures r.Holds() && r.ss != []
    ensures var s := r.Last();
            && At(s.store.objs, K, NoFluentPVC) && BindingProtection in s.Bindings()[K].meta.finalizers
            && Protected(s.PVCs(), K, s.Bindings()[K].body.pvc.uid)
    ensures At(Perform(r.Last().store, ms).objs, K, NoFluentPVC)
  {
    hide Perform;
    r := Opening();
    r := FluentPVCGoes(r);
    DeadEndsStay(r.Last().store, ms, K, NoFluentPVC);
  }

  lemma FluentPVCGoes(r: Story) returns (r': Story)
    requires r.Holds() && Scene(r.Last(), Identity("p", NO_UID), {}) && r.Last().FluentPVCs()[F].meta.finalizers == {}
    ensures r'.Holds() && r'.ss != []
    ensures var s, s' := r.Last(), r'.Last();
            s'.Bindings() == s.Bindings() && s'.PVCs() == s.PVCs() && F !in s'.FluentPVCs()
  {
    r' := Extend(r, DeleteFluentPVC(F));
  }

  /** The release takes pvc-protection away but its Delete does not get through; the binding controller
      finishes first, and the PVC is left behind for good. */
  lemma LeftBehindForever(ms: seq<Move>) returns (r: Story)
    requires OnlyControllers(ms)
    ensures r.Holds() && r.ss != []
    ensures At(r.Last().store.objs, K, NoBinding) && !r.Last().PVCs()[K].meta.deleting
    ensures At(Perform(r.Last().store, ms).objs, K, NoBinding)
  {
    hide Perform, Scene, Next, Enabled, IsRun;
    var pod, n;
    r, pod, n := FinishedJob(COMPLETE);
    Relinquishes(r.Last(), pod);
    r := Frees(r);
    LosesItsBinding(r.Last());
    r := Writes(r);
    r := Writes(r);
    DeadEndsStay(r.Last().store, ms, K, NoBinding);
  }

  lemma Frees(r: Story) returns (r': Story)
    requires r.Holds()
    ensures r'.Holds() && r' == Story(r.ss + [Next(r.Last(), ReleaseWrite(K, Now(r.Last())))], r.acts + [ReleaseWrite(K, Now(r.Last()))])
  {
    assert r.Last() in r.ss;
    r' := Extend(r, ReleaseWrite(K, Now(r.Last())));
  }

  /** The binding is done and its PVC free of protection, though still there. */
  ghost predicate Freed(s: State) {
    && K in s.Bindings() && K in s.PVCs() && BC.FluentPVCKey(s.Bindings()[K]) in s.FluentPVCs()
    && var b, pvc := s.Bindings()[K], s.PVCs()[K];
       && BC.IsControlledBy(b, s.FluentPVCs()[BC.FluentPVCKey(b)])
       && b.meta.finalizers <= {BindingProtection} && b.body.pvc == Identity("n", pvc.meta.uid)
       && Is(b, FinalizerJobSucceeded) && !Is(b, PodMissing) && !Is(b, Unknown)
       && !BC.Unfilled(b)
       && pvc.meta.finalizers == {} && !pvc.meta.deleting && pvc.body.phase == ClaimPending
  }

  lemma Relinquishes(s: State, pod: Identity)
    requires Scene(s, pod, {Ready, OutOfUse, FinalizerJobApplied, FinalizerJobSucceeded}) && pod.uid > 0 && pod.name == "p"
    ensures Freed(Next(s, ReleaseWrite(K, Now(s))))
  {
    hide IsTrue;
    assert PC.MayRelease(View(Now(s)), K);
  }

  lemma FreedPlan(s: State)
    requires Freed(s)
    ensures BC.PlanOf(View(Now(s)), K) == BC.Drop
  {
  }

  /** The first of the two writes of deleteFluentPVCBinding, or the only one. */
  lemma LetsGo(s: State, s1: State)
    requires Freed(s) && s1 == s.(store := DropWrite(s.store, K, s.Bindings()[K]))
    ensures s1.PVCs() == s.PVCs()
    ensures K in s1.Bindings() ==> Freed(s1) && s1.Bindings()[K].meta.finalizers == {}
  {
  }

  lemma IsDeleted(s: State, s1: State)
    requires Freed(s) && s.Bindings()[K].meta.finalizers == {} && s1 == s.(store := DropWrite(s.store, K, s.Bindings()[K]))
    ensures s1.PVCs() == s.PVCs() && K !in s1.Bindings()
  {
  }

  lemma LosesItsBinding(s: State)
    requires Freed(s)
    ensures var s1 := Next(s, BindingWrite(K, Now(s)));
            var s2 := Next(s1, BindingWrite(K, Now(s1)));
            K !in s2.Bindings() && s2.PVCs() == s.PVCs()
  {
    hide BC.PlanOf;
    FreedPlan(s);
    var s1 := Next(s, BindingWrite(K, Now(s)));
    LetsGo(s, s1);
    if K in s1.Bindings() {
      FreedPlan(s1);
      IsDeleted(s1, Next(s1, BindingWrite(K, Now(s1))));
    } else {
      NoBindingNoPlan(View(Now(s1)), K);
    }
  }

  // ---------------------------------------------------------------- the chain broken by old lists

  /** A list of PVCs from before the PVC was made lets a binding go that was given up, while its PVC is
      protected; the PVC is left behind for good. BindingOutlivesPVC needs its provision. */
  lemma DroppedBeforeItsPVC(ms: seq<Move>) returns (r: Story, uid: Uid)
    requires OnlyControllers(ms)
    ensures r.Holds() && r.ss != []
    ensures At(r.Last().store.objs, K, NoBinding) && Protected(r.Last().PVCs(), K, uid)
    ensures At(Perform(r.Last().store, ms).objs, K, NoBinding)
  {
    hide Perform, Scene, Next, Enabled, IsRun;
    r := Opening();
    r := Waits(r);
    var s := r.Last();
    var f := Now(s).(pvcs := r.ss[0]);
    assert s in r.ss && r.ss[0] in r.ss;
    LetsGoTooEarly(s, f);
    r := WritesOn(r, f);
    SecondHalf(r.Last());
    r := Extend(r, Action.DeleteBinding(K));
    uid := s.PVCs()[K].meta.uid;
    SceneProtects(s, Identity("p", NO_UID), {PodMissing});
    DeadEndsStay(r.Last().store, ms, K, NoBinding);
  }

  lemma LetsGoTooEarly(s: State, f: Sources)
    requires Scene(s, Identity("p", NO_UID), {PodMissing}) && s.Pods() == map[] && f == Now(s).(pvcs := f.pvcs) && K !in f.pvcs.PVCs()
    ensures K in s.PVCs() && !s.PVCs()[K].meta.deleting && Protected(s.PVCs(), K, s.PVCs()[K].meta.uid)
    ensures var s1 := Next(s, BindingWrite(K, f));
            s1.PVCs() == s.PVCs() && K in s1.Bindings() && s1.Bindings()[K].meta.finalizers == {}
  {
    var v := View(f);
    assert BC.PlanOf(v, K) == BC.Drop by { hide SetStatusCondition, IsTrue; }
    assert BC.Unprotected(s.Bindings()[K]).meta.finalizers == {};
  }

  lemma SecondHalf(s: State)
    requires K in s.Bindings() && s.Bindings()[K].meta.finalizers == {}
    ensures Enabled(s, Action.DeleteBinding(K))
    ensures var s' := Next(s, Action.DeleteBinding(K)); K !in s'.Bindings() && s'.PVCs() == s.PVCs()
  {
  }

  /** A list of bindings from before the binding was made takes the finalizer off its FluentPVC, while the
      binding holds its own. FinalizerChain needs its provision. */
  lemma UnguardedTooEarly() returns (r: Story, n: nat, uid: Uid)
    ensures r.Holds() && n + 1 < |r.ss|
    ensures Guards(r.ss[n].FluentPVCs(), F, uid) && !Guards(r.ss[n + 1].FluentPVCs(), F, uid)
    ensures K in r.ss[n].Bindings() && BindingIndex(r.ss[n].Bindings()[K]) == Some(F.name)
    ensures BindingProtection in r.ss[n].Bindings()[K].meta.finalizers
  {
    hide Scene, Next, Enabled, IsRun, Guards;
    r := Opening();
    var s := r.Last();
    GetsGuarded(s);
    assert s in r.ss;
    r := Guarding(r, Now(s));
    var s1, f := r.Last(), Now(r.Last()).(bindings := r.ss[0]);
    n := |r.ss| - 1;
    uid := s.FluentPVCs()[F].meta.uid;
    GetsUnguarded(s1, f, uid);
    assert s1 in r.ss && r.ss[0] in r.ss;
    r := Guarding(r, f);
  }

  lemma Guarding(r: Story, f: Sources) returns (r': Story)
    requires r.Holds() && SourcesIn(f, r.ss)
    ensures r'.Holds() && r' == Story(r.ss + [Next(r.Last(), FluentPVCWrite(F, f))], r.acts + [FluentPVCWrite(F, f)])
  {
    r' := Extend(r, FluentPVCWrite(F, f));
  }

  lemma GetsGuarded(s: State)
    requires Scene(s, Identity("p", NO_UID), {}) && s.FluentPVCs()[F].meta.finalizers == {} && !s.FluentPVCs()[F].meta.deleting
    ensures F in s.FluentPVCs()
    ensures var s1 := Next(s, FluentPVCWrite(F, Now(s)));
            && Guards(s1.FluentPVCs(), F, s.FluentPVCs()[F].meta.uid) && s1.Bindings() == s.Bindings()
            && K in s1.Bindings() && BindingIndex(s1.Bindings()[K]) == Some(F.name)
            && BindingProtection in s1.Bindings()[K].meta.finalizers
  {
    assert FC.Held(s.Bindings(), "f");
  }

  lemma GetsUnguarded(s: State, f: Sources, uid: Uid)
    requires Guards(s.FluentPVCs(), F, uid) && f == Now(s).(bindings := f.bindings) && f.bindings.Bindings() == map[]
    ensures !Guards(Next(s, FluentPVCWrite(F, f)).FluentPVCs(), F, uid)
  {
  }

  // ---------------------------------------------------------------- Jobs that are not the binding's

  /** Jobs are looked up by the name of their owner alone: where a namesake of the binding lives in another
      namespace and its Job is complete, the next two reconciles record that success and release the PVC
      of this binding, which never had a Job. */
  lemma NamesakesJobReleasesThePVC(s: Store, k: Key, jk: Key, u: Uid)
    requires k in s.objs.bindings && Adopted(s.objs, s.objs.bindings[k]) && Held(s.objs.bindings[k])
    requires var b := s.objs.bindings[k];
             && b.body.pvc == Identity(k.name, u) && !BC.Unfilled(b) && PodOver(s.objs, k, b)
             && Ordered(b.body.conditions) && Is(b, OutOfUse)
             && !Is(b, PodMissing) && !Is(b, Unknown) && !Is(b, FinalizerJobFailed) && !Is(b, FinalizerJobSucceeded)
    requires Protected(s.objs.pvcs, k, u) && !s.objs.pvcs[k].body.phase.ClaimLost?
    requires JobsOwnedBy(s.objs.jobs, k.name) == {jk} && jk.ns != k.ns && IsJobSucceeded(s.objs.jobs[jk]) && k !in s.objs.jobs
    ensures var s' := Do(Do(s, BindingMove(k)), PVCMove(k));
            !Protected(s'.objs.pvcs, k, u) && k !in s'.objs.jobs
  {
    hide BC.PlanOf, UpdateBindingStatus, PC.Release, IsTrue, PodOver, Adopted;
    var v, b := s.objs, s.objs.bindings[k];
    var plan := BC.JobStatusVerdict(v.now, b, v.jobs[jk]);
    CountsAsItsOwn(v, k, jk, u);
    JobStatusVerdictKeeps(v.now, b, v.jobs[jk]);
    StatusLands(s, k, plan.b);
    var s1 := UpdateBindingStatus(s, k, plan.b).0;
    assert Do(s, BindingMove(k)) == s1;
    ReleaseLetsGo(s1, k, Requeue);
  }

  lemma CountsAsItsOwn(v: Objects, k: Key, jk: Key, u: Uid)
    requires k in v.bindings && Adopted(v, v.bindings[k])
    requires var b := v.bindings[k];
             && b.body.pvc == Identity(k.name, u) && !BC.Unfilled(b) && PodOver(v, k, b)
             && Ordered(b.body.conditions) && Is(b, OutOfUse) && !Is(b, PodMissing) && !Is(b, Unknown) && !Is(b, FinalizerJobSucceeded)
    requires Protected(v.pvcs, k, u) && !v.pvcs[k].body.phase.ClaimLost?
    requires JobsOwnedBy(v.jobs, k.name) == {jk} && IsJobSucceeded(v.jobs[jk])
    ensures BC.PlanOf(v, k) == BC.JobStatusVerdict(v.now, v.bindings[k], v.jobs[jk]) && BC.PlanOf(v, k).Save?
  {
    hide BC.JobStatusVerdict, IsTrue;
    var b := v.bindings[k];
    assert jk in JobsOwnedBy(v.jobs, k.name);
    assert BC.JobVerdict(v, k, b) == BC.JobStatusVerdict(v.now, b, v.jobs[jk]);
    RecordsSomething(v.now, b, v.jobs[jk]);
  }

  lemma RecordsSomething(now: int, b: Binding, j: Job)
    requires IsJobSucceeded(j)
    ensures BC.JobStatusVerdict(now, b, j).Save?
  {
  }

  /** A stranger's Job under the binding's name is neither adopted nor replaced: as long as it is there the
      PVC reconcile fails and changes nothing. */
  lemma StrangersJobBlocks(s: Store, k: Key)
    requires k in s.objs.bindings && k in s.objs.jobs && s.objs.jobs[k].meta.owner.None?
    requires s.objs.jobs[k].body.selector != NO_UID && PC.MayApply(s.objs, k)
    requires JobsOwnedBy(s.objs.jobs, k.name) == {} && Ordered(s.objs.bindings[k].body.conditions)
    ensures PC.Reconciled(s, s.objs, s.objs.jobs, k) == (s, Errored)
  {
  }
}
