/** Runs whose reconciles nothing interrupts: each is a run on fresh reads, so all that holds of those
    holds of them. */
module Atomic {
  import opened Conditions
  import opened Kube
  import opened Utils
  import opened Protocol
  import opened Invariants
  import opened Preservation
  import opened Runs
  import opened Reconciles
  import opened StaleReads
  import opened FinalizerChains
  import opened FreshRuns
  import BC = BindingController
  import PC = PVCController

  // ---------------------------------------------------------------- paths

  /** Fresh steps from s to s'. */
  ghost predicate FreshPath(s: State, acts: seq<Action>, s': State)
    decreases |acts|
  {
    if acts == [] then s' == s
    else Enabled(s, acts[0]) && IsFresh(acts[0], s) && FreshPath(Next(s, acts[0]), acts[1..], s')
  }

  lemma PathCons(s: State, a: Action, acts: seq<Action>, s': State)
    requires Enabled(s, a) && IsFresh(a, s) && FreshPath(Next(s, a), acts, s')
    ensures FreshPath(s, [a] + acts, s')
  {
    hide Enabled, Next, IsFresh;
    assert ([a] + acts)[1..] == acts;
  }

  lemma {:induction false} ExtendRun(fs: seq<State>, acts: seq<Action>, more: seq<Action>, s': State)
    returns (fs': seq<State>, acts': seq<Action>)
    requires IsFreshRun(fs, acts) && FreshPath(fs[|fs| - 1], more, s')
    ensures IsFreshRun(fs', acts') && fs <= fs' && fs'[|fs'| - 1] == s'
    decreases |more|
  {
    hide Enabled, Next, IsFresh;
    if more == [] {
      fs', acts' := fs, acts;
    } else {
      var s, a := fs[|fs| - 1], more[0];
      fs', acts' := fs + [Next(s, a)], acts + [a];
      forall i | 0 <= i < |acts'| ensures FreshStepAt(fs', acts', i) {
        if i < |acts| { assert FreshStepAt(fs, acts, i); }
      }
      fs', acts' := ExtendRun(fs', acts', more[1..], s');
    }
  }

  // ---------------------------------------------------------------- one reconcile

  /** Apart from the bindings, the tables of f are those of s. */
  ghost predicate SameSurroundings(f: Sources, s: State) {
    View(f).(bindings := s.Bindings()) == s.store.objs
  }

  lemma FreshAfterAll(s: State, f: Sources, k: Key)
    requires SameSurroundings(f, s)
    ensures Next(s, BindingWrite(k, f.(bindings := s))) == Next(s, BindingWrite(k, Now(s)))
    ensures SameSurroundings(f, Next(s, BindingWrite(k, Now(s))))
  {
    assert View(f.(bindings := s)) == View(Now(s));
    BindingWritesOnlyBindings(s.store, View(Now(s)), k);
  }

  lemma DeletionStaysClose(s: State, f: Sources, k: Key)
    requires k in s.Bindings() && SameSurroundings(f, s)
    ensures SameSurroundings(f, Next(s, Action.DeleteBinding(k))) && Next(s, Action.DeleteBinding(k)).log == s.log
    ensures Enabled(s, Action.DeleteBinding(k))
  {
  }

  lemma WriteIsFresh(s: State, k: Key)
    ensures Enabled(s, BindingWrite(k, Now(s))) && IsFresh(BindingWrite(k, Now(s)), s)
    ensures Next(s, BindingWrite(k, Now(s))).log == s.log
  {
  }

  lemma WritesAreEnabled(s: State, k: Key, f: Sources)
    ensures Enabled(s, BindingWrite(k, f))
  {
  }

  lemma {:induction false} ContinuedPath(s: State, f: Sources, k: Key, st: Store, n: nat) returns (acts: seq<Action>)
    requires SameSurroundings(f, s) && Continues(s, f, k, st, n)
    ensures FreshPath(s, acts, State(st, s.log))
    decreases n
  {
    hide SameSurroundings, Next, Enabled, IsFresh;
    WritesAreEnabled(s, k, f.(bindings := s));
    if st == s.store {
      acts := [];
    } else if Continues(Next(s, BindingWrite(k, f.(bindings := s))), f, k, st, n - 1) {
      var a := BindingWrite(k, Now(s));
      FreshAfterAll(s, f, k);
      WriteIsFresh(s, k);
      acts := ContinuedPath(Next(s, a), f, k, st, n - 1);
      PathCons(s, a, acts, State(st, s.log));
      acts := [a] + acts;
    } else {
      var a := Action.DeleteBinding(k);
      DeletionStaysClose(s, f, k);
      DeletionIsFresh(s, k);
      acts := ContinuedPath(Next(s, a), f, k, st, n - 1);
      PathCons(s, a, acts, State(st, s.log));
      acts := [a] + acts;
    }
  }

  lemma DeletionIsFresh(s: State, k: Key)
    ensures IsFresh(Action.DeleteBinding(k), s)
  {
  }

  /** A whole reconcile of a binding on the present state is a few fresh steps. */
  lemma BindingReconcileIsFresh(s: State, k: Key) returns (acts: seq<Action>)
    requires Inv(s)
    ensures FreshPath(s, acts, State(BC.Reconciled(s.store, s.store.objs, k).0, s.log))
  {
    hide Next, BC.Reconciled, Continues, Inv, Enabled, IsFresh;
    EvolvesRefl(s);
    assert View(Now(s)) == s.store.objs;
    BindingReconcileIsSteps(s, Now(s), k);
    acts := WriteAndContinue(s, k, BC.Reconciled(s.store, s.store.objs, k).0);
  }

  lemma WriteAndContinue(s: State, k: Key, st: Store) returns (acts: seq<Action>)
    requires Continues(Next(s, BindingWrite(k, Now(s))), Now(s), k, st, 2)
    ensures FreshPath(s, acts, State(st, s.log))
  {
    hide Continues, Next, Enabled, IsFresh;
    var a := BindingWrite(k, Now(s));
    FreshAfterAll(s, Now(s), k);
    WriteIsFresh(s, k);
    acts := ContinuedPath(Next(s, a), Now(s), k, st, 2);
    PathCons(s, a, acts, State(st, s.log));
    acts := [a] + acts;
  }

  /** A whole reconcile of a PVC on the present state is at most two fresh steps; the log tells whether
      it gave the PVC up. */
  lemma PVCReconcileIsFresh(s: State, k: Key, s': State) returns (acts: seq<Action>)
    requires Inv(s) && TurnTakes(s, PVCReconcile(k), s')
    ensures FreshPath(s, acts, s')
  {
    hide Next, PC.Reconciled, Inv, Enabled, IsFresh, PVCSteps;
    EvolvesRefl(s);
    assert View(Now(s)) == s.store.objs;
    PVCReconcileIsSteps(s, Now(s), k);
    acts := PVCPath(s, k, s');
  }

  lemma PVCPath(s: State, k: Key, s': State) returns (acts: seq<Action>)
    requires PVCSteps(s, Now(s), k, s'.store) && s'.log == s.log.(released := s.log.released + Lost(s.PVCs(), s'.PVCs(), k))
    ensures FreshPath(s, acts, s')
  {
    var release := ReleaseWrite(k, Now(s));
    var s1 := Next(s, release);
    if s'.store == s.store {
      acts := [];
      assert s' == s;
    } else if s'.store == Next(s, JobWrite(k, Now(s))).store {
      JobWriteTouchesJobs(s.store, View(Now(s)), s.Jobs(), k);
      OneStep(s, JobWrite(k, Now(s)), s');
      acts := [JobWrite(k, Now(s))];
    } else if s'.store == s1.store {
      OneStep(s, release, s');
      acts := [release];
    } else {
      MarkShape(s1.PVCs(), k, s1.store.nextRv);
      OneStep(s1, Action.DeletePVC(k), s');
      PathCons(s, release, [Action.DeletePVC(k)], s');
      acts := [release] + [Action.DeletePVC(k)];
    }
  }

  lemma OneStep(s: State, a: Action, s': State)
    requires Enabled(s, a) && IsFresh(a, s) && s' == Next(s, a)
    ensures FreshPath(s, [a], s')
  {
    hide Enabled, Next, IsFresh;
    assert [a][1..] == [];
  }

  // ---------------------------------------------------------------- runs

  /** One turn of a run whose reconciles nothing interrupts. */
  datatype Turn = BindingReconcile(k: Key) | PVCReconcile(k: Key) | Step(a: Action)

  ghost predicate TurnTakes(s: State, t: Turn, s': State) {
    match t
    case BindingReconcile(k) => s' == State(BC.Reconciled(s.store, s.store.objs, k).0, s.log)
    case PVCReconcile(k) =>
      s'.store == PC.Reconciled(s.store, s.store.objs, s.Jobs(), k).0 &&
      s'.log == s.log.(released := s.log.released + Lost(s.PVCs(), s'.PVCs(), k))
    case Step(a) => Enabled(s, a) && IsFresh(a, s) && s' == Next(s, a)
  }

  ghost predicate IsAtomicRun(ss: seq<State>, ts: seq<Turn>) {
    |ss| == |ts| + 1 && ss[0] == Init && forall i :: 0 <= i < |ts| ==> TurnTakes(ss[i], ts[i], ss[i + 1])
  }

  lemma TurnIsFresh(s: State, t: Turn, s': State) returns (acts: seq<Action>)
    requires Inv(s) && TurnTakes(s, t, s')
    ensures FreshPath(s, acts, s')
  {
    hide Inv, BC.Reconciled, PC.Reconciled, FreshPath, Enabled, Next, IsFresh;
    match t
    case BindingReconcile(k) => acts := BindingReconcileIsFresh(s, k);
    case PVCReconcile(k) => acts := PVCReconcileIsFresh(s, k, s');
    case Step(a) =>
      OneStep(s, a, s');
      acts := [a];
  }

  /** REFINEMENT. A run of uninterrupted reconciles is, at any two of its moments, a run on fresh reads. */
  lemma {:induction false} AtomicRunIsFresh(ss: seq<State>, ts: seq<Turn>, i: nat, j: nat)
    returns (fs: seq<State>, acts: seq<Action>, n: nat)
    requires IsAtomicRun(ss, ts) && i <= j < |ss|
    ensures IsFreshRun(fs, acts) && n < |fs| && fs[n] == ss[i] && fs[|fs| - 1] == ss[j]
    decreases j
  {
    hide Inv, FreshPath, TurnTakes, FreshStepAt;
    if j == 0 {
      fs, acts, n := [Init], [], 0;
    } else {
      fs, acts, n := AtomicRunIsFresh(ss, ts, if i < j then i else j - 1, j - 1);
      FreshRunIsRun(fs, acts);
      RunKeepsInv(fs, acts, |fs| - 1);
      var more := TurnIsFresh(ss[j - 1], ts[j - 1], ss[j]);
      fs, acts := ExtendRun(fs, acts, more, ss[j]);
      if i == j { n := |fs| - 1; }
    }
  }

  lemma AtomicStateIsSound(ss: seq<State>, ts: seq<Turn>, j: nat)
    requires IsAtomicRun(ss, ts) && j < |ss|
    ensures Inv(ss[j])
    ensures forall k :: FailureIsFinal(ss[j], k)
  {
    hide Inv, FailureIsFinal;
    var fs, acts, n := AtomicRunIsFresh(ss, ts, j, j);
    FreshRunIsRun(fs, acts);
    RunKeepsInv(fs, acts, |fs| - 1);
    forall k ensures FailureIsFinal(ss[j], k) {
      FreshReadsSuffice(fs, acts, k);
      FailureStaysFinal(fs, acts, |fs| - 1, k);
    }
  }

  /** When no reconcile is interrupted: a Job of a binding means that its pod has ended, then and ever after. */
  lemma AtomicMutualExclusion(ss: seq<State>, ts: seq<Turn>, i: nat, j: nat, k: Key, jk: Key)
    requires IsAtomicRun(ss, ts) && i <= j < |ss|
    requires k in ss[i].Bindings() && jk in JobsOwnedBy(ss[i].Jobs(), k.name)
    ensures Is(ss[i].Bindings()[k], OutOfUse)
    ensures PodEnded(ss[j].Pods(), ss[i].Bindings()[k])
  {
    var fs, acts, n := AtomicRunIsFresh(ss, ts, i, j);
    MutualExclusion(fs, acts, n, |fs| - 1, k, jk);
  }

  /** When no reconcile is interrupted, a binding has not both succeeded and failed, and one that has let
      go has let go of a PVC that is gone or unprotected. */
  lemma AtomicRunsAreSafe(ss: seq<State>, ts: seq<Turn>, j: nat, k: Key)
    requires IsAtomicRun(ss, ts) && j < |ss| && k in ss[j].Bindings()
    ensures var s, b := ss[j], ss[j].Bindings()[k];
            && !(Is(b, FinalizerJobSucceeded) && Is(b, FinalizerJobFailed))
            && (BindingProtection !in b.meta.finalizers ==> forall pk :: !Protected(s.PVCs(), pk, b.body.pvc.uid))
  {
    hide Protected;
    var fs, acts, n := AtomicRunIsFresh(ss, ts, j, j);
    FreshReadsSuffice(fs, acts, k);
    OneOutcome(fs, acts, |fs| - 1, k);
    if BindingProtection !in ss[j].Bindings()[k].meta.finalizers {
      BindingOutlivesPVC(fs, acts, |fs| - 1, k);
    }
  }

  /** THE FINALIZER CHAIN with uninterrupted reconciles: a FluentPVC loses its finalizer only in a turn of
      its own controller, when every binding it owns has let go and the PVC of every such binding is gone
      or no longer protected. */
  lemma AtomicFinalizerChain(ss: seq<State>, ts: seq<Turn>, i: nat, fk: Key, uid: Uid, k: Key)
    requires IsAtomicRun(ss, ts) && i < |ts|
    requires Guards(ss[i].FluentPVCs(), fk, uid) && !Guards(ss[i + 1].FluentPVCs(), fk, uid)
    requires k in ss[i].Bindings() && BindingIndex(ss[i].Bindings()[k]) == Some(fk.name)
    ensures ts[i].Step? && ts[i].a.FluentPVCWrite? && ts[i].a.k == fk
    ensures BindingProtection !in ss[i].Bindings()[k].meta.finalizers
    ensures forall pk :: !Protected(ss[i].PVCs(), pk, ss[i].Bindings()[k].body.pvc.uid)
  {
    hide Next, Enabled, Inv, Guards, Protected, BC.Reconciled, PC.Reconciled;
    assert TurnTakes(ss[i], ts[i], ss[i + 1]);
    match ts[i]
    case BindingReconcile(k2) => BindingReconcileFrame(ss[i].store, ss[i].store.objs, k2);
    case PVCReconcile(k2) => PVCReconcileFrame(ss[i].store, ss[i].store.objs, ss[i].Jobs(), k2);
    case Step(a) =>
      var fs, acts, n := AtomicRunIsFresh(ss, ts, i, i);
      OneStep(ss[i], a, ss[i + 1]);
      var fs', acts' := StepRun(fs, acts, a);
      FreshFinalizerChain(fs', acts', |acts|, fk, uid, k);
  }

  lemma StepRun(fs: seq<State>, acts: seq<Action>, a: Action) returns (fs': seq<State>, acts': seq<Action>)
    requires IsFreshRun(fs, acts) && Enabled(fs[|fs| - 1], a) && IsFresh(a, fs[|fs| - 1])
    ensures fs' == fs + [Next(fs[|fs| - 1], a)] && acts' == acts + [a] && IsFreshRun(fs', acts')
  {
    hide Enabled, Next, IsFresh;
    fs', acts' := fs + [Next(fs[|fs| - 1], a)], acts + [a];
    forall i | 0 <= i < |acts'| ensures FreshStepAt(fs', acts', i) {
      if i < |acts| { assert FreshStepAt(fs, acts, i); }
    }
  }
}
