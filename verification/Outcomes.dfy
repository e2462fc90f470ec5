/** Exactly which bindings come to their end: the blocked ones never do, and what a reachable state
    must look like for the others to. */
module Outcomes {
  import opened Conditions
  import opened Kube
  import opened Utils
  import opened Protocol
  import opened Invariants
  import opened Preservation
  import opened Reconciles
  import opened Runs
  import opened StaleReads
  import opened FreshRuns
  import opened Atomic
  import opened Convergence
  import BC = BindingController
  import PC = PVCController

  // ---------------------------------------------------------------- Unknown is final

  predicate Frozen(v: Objects, k: Key) {
    k in v.bindings && Is(v.bindings[k], Unknown) && Held(v.bindings[k])
  }

  /** No move takes a binding out of Unknown. */
  lemma UnknownStays(s: Store, m: Move, k: Key)
    requires Frozen(s.objs, k) && Allowed(m, k)
    ensures Frozen(Do(s, m).objs, k)
  {
    hide PC.Reconciled;
    match m
    case BindingMove(k2) =>
      BindingReconcileFrame(s, s.objs, k2);
      if k2 == k { FrozenReconcile(s, k); }
    case PVCMove(k2) => PVCReconcileFrame(s, s.objs, s.objs.jobs, k2);
    case JobMove(k2) => CompletedFrame(s, k2);
    case ForeignMove(k2) => LiftedFrame(s, k2);
    case World(_, _) =>
  }

  lemma FrozenReconcile(s: Store, k: Key)
    requires Frozen(s.objs, k)
    ensures Frozen(BC.Reconciled(s, s.objs, k).0.objs, k)
  {
    hide BC.SearchPod, BC.Verdict;
    var v, b := s.objs, s.objs.bindings[k];
    var fk := BC.FluentPVCKey(b);
    if fk in v.fluentPVCs && !BC.IsControlledBy(b, v.fluentPVCs[fk]) && CanControl(b.meta.owner, FluentPVCKind, fk.name) {
      UpdateLands(s, k, BC.OwnedBy(b, fk, v.fluentPVCs[fk]));
    }
  }

  // ---------------------------------------------------------------- a failed Job is final

  /** The finalizer Job failed and is still there, and the binding has not been given up. */
  ghost predicate Failing(v: Objects, k: Key, u: Uid) {
    Steady(v, k, u) && k in v.bindings && !Is(v.bindings[k], Unknown) && !NotFailed(v, k, v.bindings[k])
  }

  lemma FailingStays(s: Store, m: Move, k: Key, u: Uid)
    requires Failing(s.objs, k, u) && Allowed(m, k)
    ensures Failing(Do(s, m).objs, k, u)
  {
    hide Steady, TodoOf;
    if m.k.name != k.name || m.World? {
      MoveElsewhere(s, m, k, u);
      AliveElsewhere(s, m, k);
    } else {
      match m
      case BindingMove(_) => FailingReconcile(s, k, u);
      case PVCMove(_) => FailingPVC(s, k, u);
      case JobMove(_) => FailingJob(s, k, u);
      case ForeignMove(_) => FailingForeign(s, k, u);
    }
  }

  lemma AliveElsewhere(s: Store, m: Move, k: Key)
    requires if m.World? then m.k == k else m.k.name != k.name
    ensures AgreeAt(s.objs.bindings, Do(s, m).objs.bindings, k) && AgreeAt(s.objs.jobs, Do(s, m).objs.jobs, k)
  {
    hide PC.Reconciled, BC.Reconciled;
    match m
    case BindingMove(k2) => BindingReconcileFrame(s, s.objs, k2);
    case PVCMove(k2) => PVCReconcileFrame(s, s.objs, s.objs.jobs, k2);
    case JobMove(k2) => CompletedFrame(s, k2);
    case ForeignMove(k2) => LiftedFrame(s, k2);
    case World(k2, _) =>
  }

  lemma FailingForeign(s: Store, k: Key, u: Uid)
    requires Failing(s.objs, k, u)
    ensures Failing(Do(s, ForeignMove(k)).objs, k, u)
  {
    hide Lifted;
    if s.objs.pvcs[k].meta.deleting {
      LiftedPVC(s, k);
      PodOverFrame(s.objs, Do(s, ForeignMove(k)).objs, k, s.objs.bindings[k], s.objs.bindings[k]);
    } else {
      NothingToLift(s, k);
    }
  }

  lemma FailingJob(s: Store, k: Key, u: Uid)
    requires Failing(s.objs, k, u)
    ensures Do(s, JobMove(k)) == s
  {
  }

  lemma FailingPVC(s: Store, k: Key, u: Uid)
    requires Failing(s.objs, k, u)
    ensures Do(s, PVCMove(k)) == s
  {
    PVCMoveCases(s, k, u);
  }

  lemma FailingReconcile(s: Store, k: Key, u: Uid)
    requires Failing(s.objs, k, u)
    ensures Failing(Do(s, BindingMove(k)).objs, k, u)
  {
    hide BC.PlanOf, BC.Execute, UpdateBinding, UpdateBindingStatus, Sound, Left, Quiet;
    var v, b := s.objs, s.objs.bindings[k];
    FailingPlan(v, k, u);
    Holdings(s, k, u);
    match BC.PlanOf(v, k)
    case Adopt(b1) =>
      UpdateLands(s, k, b1);
      ExecutesAdopt(s, k, b1);
      FailingAdopted(s, UpdateBinding(s, k, b1).0, k, u);
    case Save(b1, _) =>
      JobStatusVerdictKeeps(v.now, b, v.jobs[k]);
      StatusLands(s, k, b1);
      ExecutesSave(s, k);
      FailingRecorded(s, UpdateBindingStatus(s, k, b1).0, k, u, b1);
  }

  lemma ExecutesSave(s: Store, k: Key)
    requires k in s.objs.bindings && BC.PlanOf(s.objs, k).Save?
    ensures Do(s, BindingMove(k)) == UpdateBindingStatus(s, k, BC.PlanOf(s.objs, k).b).0
  {
  }

  /** All a reconcile has left to do is to adopt the binding or to record that the Job has failed. */
  lemma FailingPlan(v: Objects, k: Key, u: Uid)
    requires Failing(v, k, u)
    ensures var b, plan := v.bindings[k], BC.PlanOf(v, k);
            && BC.FluentPVCKey(b) in v.fluentPVCs && k in v.jobs
            && ((plan == BC.JobStatusVerdict(v.now, b, v.jobs[k]) && plan.Save?) ||
                plan == BC.Adopt(BC.OwnedBy(b, BC.FluentPVCKey(b), v.fluentPVCs[BC.FluentPVCKey(b)])))
  {
    hide BC.JobVerdict;
    TheOneJob(v, k, v.bindings[k]);
  }

  lemma FailingAdopted(s: Store, s': Store, k: Key, u: Uid)
    requires Failing(s.objs, k, u)
    requires var b := s.objs.bindings[k];
             BC.FluentPVCKey(b) in s.objs.fluentPVCs &&
             Lands(s, s', k, BC.OwnedBy(b, BC.FluentPVCKey(b), s.objs.fluentPVCs[BC.FluentPVCKey(b)]))
    ensures Failing(s'.objs, k, u)
  {
    PodOverFrame(s.objs, s'.objs, k, s.objs.bindings[k], s'.objs.bindings[k]);
  }

  lemma FailingRecorded(s: Store, s': Store, k: Key, u: Uid, b1: Binding)
    requires Failing(s.objs, k, u) && Lands(s, s', k, b1) && SameButStatus(s.objs.bindings[k], b1)
    requires forall t :: Is(b1, t) <==> Is(s.objs.bindings[k], t) || t == FinalizerJobApplied || t == FinalizerJobFailed
    ensures Failing(s'.objs, k, u)
  {
    PodOverFrame(s.objs, s'.objs, k, s.objs.bindings[k], s'.objs.bindings[k]);
    assert Is(b1, FinalizerJobApplied) && Is(b1, OutOfUse) && Is(b1, Ready) && !Is(b1, FinalizerJobSucceeded);
  }

  // ---------------------------------------------------------------- exactly when

  lemma {:induction false} FailingRun(s: Store, ms: seq<Move>, k: Key, u: Uid)
    requires AllAllowed(ms, k)
    ensures Frozen(s.objs, k) ==> Frozen(Perform(s, ms).objs, k)
    ensures Failing(s.objs, k, u) ==> Failing(Perform(s, ms).objs, k, u)
    decreases |ms|
  {
    hide Frozen, Failing, Do;
    if ms != [] {
      if Frozen(s.objs, k) { UnknownStays(s, ms[0], k); }
      if Failing(s.objs, k, u) { FailingStays(s, ms[0], k, u); }
      FailingRun(Do(s, ms[0]), ms[1..], k, u);
    }
  }

  lemma {:induction false} BlockedForGood(s: Store, rounds: seq<seq<Move>>, k: Key, u: Uid)
    requires (Frozen(s.objs, k) || Failing(s.objs, k, u)) && FairRounds(rounds, k)
    ensures k in PerformRounds(s, rounds).objs.bindings
    decreases |rounds|
  {
    hide Do, Perform;
    if rounds != [] {
      assert rounds[0] in rounds;
      FailingRun(s, rounds[0], k, u);
      BlockedForGood(Perform(s, rounds[0]), rounds[1..], k, u);
    }
  }

  /** With the pod over and nobody interfering, thirteen fair rounds settle it: PVC and binding are gone if
      and only if the binding was neither Unknown nor held up by a failed Job. */
  lemma ConvergesIff(s: Store, rounds: seq<seq<Move>>, k: Key, u: Uid)
    requires Steady(s.objs, k, u) && FairRounds(rounds, k) && |rounds| >= 13
    ensures (k !in PerformRounds(s, rounds).objs.bindings && !HasPVC(PerformRounds(s, rounds).objs, k, u)) <==> Unblocked(s.objs, k)
  {
    hide PerformRounds, TodoOf;
    if Unblocked(s.objs, k) {
      AtTheEnd(s.objs, k, u);
      Converges(s, rounds, k, u);
    } else {
      Holdings(s, k, u);
      BlockedForGood(s, rounds, k, u);
    }
  }

  // ---------------------------------------------------------------- from reachable states

  /** Nobody interferes: all that has to be granted about the surroundings of a binding, its own
      history taking care of the rest. */
  ghost predicate Undisturbed(v: Objects, k: Key)
    requires k in v.bindings
  {
    var b := v.bindings[k];
    && Left(v, k, b)
    && Accounted(v, k, b, b.body.pvc.uid)
    && (HasPVC(v, k, b.body.pvc.uid) ==> PVCQuiet(v.pvcs[k]))
    && (k in v.jobs ==> !v.jobs[k].meta.deleting && JobIndex(v.jobs[k]) == Some(k.name))
  }

  lemma ReachableIsSteady(s: State, k: Key)
    requires Inv(s) && FailureIsFinal(s, k) && k in s.Bindings() && Undisturbed(s.store.objs, k)
    ensures Steady(s.store.objs, k, s.Bindings()[k].body.pvc.uid)
  {
    hide Left, BindingOK, Inv, FailureIsFinal;
    BindingIsOK(s, k);
    JobAtHome(s, k);
    PodsAreSound(s);
    SteadyFromFacts(s, k);
  }

  lemma JobAtHome(s: State, k: Key)
    requires Inv(s) && k in s.Bindings() && (k in s.Jobs() ==> JobIndex(s.Jobs()[k]) == Some(k.name))
    ensures k in s.Jobs() ==> k in JobsOwnedBy(s.Jobs(), k.name) && Is(s.Bindings()[k], OutOfUse)
    ensures JobsOwnedBy(s.Jobs(), k.name) <= {k}
  {
    assert BindingOK(s, k, s.Bindings()[k]);
    JobsOfOneName(s, k.name);
    if k in s.Jobs() {
      assert JobOK(s, k, s.Jobs()[k]);
    }
  }

  lemma SteadyFromFacts(s: State, k: Key)
    requires k in s.Bindings() && Undisturbed(s.store.objs, k)
    requires BindingOK(s, k, s.Bindings()[k]) && FailureIsFinal(s, k)
    requires JobsOwnedBy(s.Jobs(), k.name) <= {k} && PodsSound(s.Pods())
    requires k in s.Jobs() ==> k in JobsOwnedBy(s.Jobs(), k.name) && Is(s.Bindings()[k], OutOfUse)
    ensures Steady(s.store.objs, k, s.Bindings()[k].body.pvc.uid)
  {
    hide Left;
    assert k !in s.Jobs() ==> JobsOwnedBy(s.Jobs(), k.name) == {};
  }

  lemma PodsAreSound(s: State)
    requires Inv(s)
    ensures PodsSound(s.Pods())
  {
  }

  /** A PVC that nobody stripped of pvc-protection is accounted for. */
  lemma NotStrippedIsAccounted(s: State, k: Key)
    requires Inv(s) && k in s.Bindings() && s.Bindings()[k].body.pvc.uid !in s.log.stripped
    ensures Accounted(s.store.objs, k, s.Bindings()[k], s.Bindings()[k].body.pvc.uid)
  {
    assert BindingOK(s, k, s.Bindings()[k]);
  }

  lemma SoundStatesConverge(s: State, k: Key, rounds: seq<seq<Move>>)
    requires Inv(s) && FailureIsFinal(s, k) && k in s.Bindings() && Undisturbed(s.store.objs, k)
    requires FairRounds(rounds, k) && |rounds| >= 13
    ensures var u, v := s.Bindings()[k].body.pvc.uid, PerformRounds(s.store, rounds).objs;
            (k !in v.bindings && !HasPVC(v, k, u)) <==> Unblocked(s.store.objs, k)
  {
    hide PerformRounds, Undisturbed, Steady, Unblocked, Inv, FailureIsFinal;
    ReachableIsSteady(s, k);
    ConvergesIff(s.store, rounds, k, s.Bindings()[k].body.pvc.uid);
  }

  /** CONVERGENCE FROM REACHABLE STATES. From any state of any run in which Jobs were judged by present
      reads, all other reads being as stale as may be: if nobody disturbs the binding any more, thirteen
      fair rounds end with binding and PVC gone exactly when the binding is neither Unknown nor held up by
      a failed Job. */
  lemma RunsConverge(ss: seq<State>, acts: seq<Action>, j: nat, k: Key, rounds: seq<seq<Move>>)
    requires IsRun(ss, acts) && j < |ss| && JobReadsPresent(ss, acts, k)
    requires k in ss[j].Bindings() && Undisturbed(ss[j].store.objs, k)
    requires FairRounds(rounds, k) && |rounds| >= 13
    ensures var u, v := ss[j].Bindings()[k].body.pvc.uid, PerformRounds(ss[j].store, rounds).objs;
            (k !in v.bindings && !HasPVC(v, k, u)) <==> Unblocked(ss[j].store.objs, k)
  {
    hide PerformRounds, Undisturbed, Unblocked, Inv, FailureIsFinal;
    RunKeepsInv(ss, acts, j);
    FailureStaysFinal(ss, acts, j, k);
    SoundStatesConverge(ss[j], k, rounds);
  }

  /** The same for runs whose reconciles nothing interrupts. */
  lemma AtomicRunsConverge(ss: seq<State>, ts: seq<Turn>, j: nat, k: Key, rounds: seq<seq<Move>>)
    requires IsAtomicRun(ss, ts) && j < |ss| && k in ss[j].Bindings() && Undisturbed(ss[j].store.objs, k)
    requires FairRounds(rounds, k) && |rounds| >= 13
    ensures var u, v := ss[j].Bindings()[k].body.pvc.uid, PerformRounds(ss[j].store, rounds).objs;
            (k !in v.bindings && !HasPVC(v, k, u)) <==> Unblocked(ss[j].store.objs, k)
  {
    hide PerformRounds, Undisturbed, Unblocked, Inv, FailureIsFinal;
    AtomicStateIsSound(ss, ts, j);
    SoundStatesConverge(ss[j], k, rounds);
  }
}
