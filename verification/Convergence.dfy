/** Once a binding's pod is over and nobody interferes, fair rounds of the controllers finish the job:
    the PVC is released and the binding goes. */
module Convergence {
  import opened Conditions
  import opened SpecRewriting
  import opened Kube
  import opened Utils
  import opened Protocol
  import opened Invariants
  import opened Reconciles
  import BC = BindingController
  import PC = PVCController

  // ---------------------------------------------------------------- moves

  /** A whole reconcile on the present state; the Job controller completing a Job that has not finished;
      the controllers of other finalizers letting go of a PVC that is being deleted; or whatever else may
      happen that spares k. */
  datatype Move = BindingMove(k: Key) | PVCMove(k: Key) | JobMove(k: Key) | ForeignMove(k: Key) | World(k: Key, after: Store)

  function Completed(s: Store, k: Key): Store {
    var t := s.objs.jobs;
    if k in t && FinishedStatus(t[k].body.conditions) == None then
      WithJobs(s, Edited(t, k, t[k].body.(conditions := t[k].body.conditions + [JobCondition(JobComplete, true)]), s.nextRv))
    else s
  }

  function Lifted(s: Store, k: Key): Store {
    var t := s.objs.pvcs;
    if k in t && t[k].meta.deleting then
      WithPVCs(s, EditedFinalizers(t, k, t[k].meta.finalizers * {PVCProtection}, s.nextRv))
    else s
  }

  ghost function Do(s: Store, m: Move): Store {
    match m
    case BindingMove(k) => BC.Reconciled(s, s.objs, k).0
    case PVCMove(k) => PC.Reconciled(s, s.objs, s.objs.jobs, k).0
    case JobMove(k) => Completed(s, k)
    case ForeignMove(k) => Lifted(s, k)
    case World(k, after) => if Spared(s.objs, after.objs, k) then after else s
  }

  ghost function Perform(s: Store, ms: seq<Move>): Store
    decreases |ms|
  {
    if ms == [] then s else Perform(Do(s, ms[0]), ms[1..])
  }

  /** All controllers take a turn at k. */
  predicate Fair(ms: seq<Move>, k: Key) {
    BindingMove(k) in ms && PVCMove(k) in ms && JobMove(k) in ms && ForeignMove(k) in ms
  }

  /** A move at k, or one of a controller on another name; what else happens spares k. */
  predicate Allowed(m: Move, k: Key) {
    m.k == k || (m.k.name != k.name && !m.World?)
  }

  predicate AllAllowed(ms: seq<Move>, k: Key) {
    forall m :: m in ms ==> Allowed(m, k)
  }

  // ---------------------------------------------------------------- when nothing stands in the way

  predicate HasPVC(v: Objects, k: Key, u: Uid) {
    k in v.pvcs && v.pvcs[k].meta.uid == u
  }

  /** The pod is gone or in a terminal phase; one that has yet to be recorded passes the checks. */
  ghost predicate PodOver(v: Objects, k: Key, b: Binding) {
    match BC.SearchPod(v, k, b)
    case PodError => false
    case PodAbsent => true
    case PodAt(_, p) =>
      && (BC.Unfilled(b) ==> BC.CanFill(b, p))
      && (BC.Unfilled(b) || p.meta.uid == b.body.pod.uid ==> Terminal(p.body.phase))
  }

  predicate PodsSound(pods: Table<PodBody>) {
    forall pk :: pk in pods ==> pk.name != "" && pods[pk].meta.uid > 0
  }

  /** v' differs from v in nothing that concerns k: its binding, its PVC and its Job are the same, its
      FluentPVC is still that one, a pod that is over is not undone, and time does not go back. */
  ghost predicate Spared(v: Objects, v': Objects, k: Key) {
    && AgreeAt(v.bindings, v'.bindings, k) && AgreeAt(v.pvcs, v'.pvcs, k) && AgreeAt(v.jobs, v'.jobs, k)
    && JobsOwnedBy(v'.jobs, k.name) == JobsOwnedBy(v.jobs, k.name)
    && v.now <= v'.now && (PodsSound(v.pods) ==> PodsSound(v'.pods))
    && (k in v.bindings ==>
          && SameFluentPVC(v, v', BC.FluentPVCKey(v.bindings[k]))
          && (PodOver(v, k, v.bindings[k]) ==> PodOver(v', k, v.bindings[k])))
  }

  predicate SameFluentPVC(v: Objects, v': Objects, fk: Key) {
    fk in v.fluentPVCs ==> fk in v'.fluentPVCs && v'.fluentPVCs[fk].meta.uid == v.fluentPVCs[fk].meta.uid
  }

  /** No failed Job stands between the binding and its end. */
  predicate NotFailed(v: Objects, k: Key, b: Binding) {
    Is(b, PodMissing) || Is(b, FinalizerJobSucceeded) || !(k in v.jobs && IsJobFailed(v.jobs[k]))
  }

  /** The binding at k, bound to the PVC u of its own name, is in order (true in every reachable state). */
  predicate Sound(v: Objects, k: Key, b: Binding, u: Uid) {
    && b.body.pvc == Identity(k.name, u)
    && b.meta.owner.Some? && b.meta.owner.value.kind == FluentPVCKind && b.meta.owner.value.name == b.body.fluentPVC.name
    && Ordered(b.body.conditions)
    && (Is(b, FinalizerJobFailed) ==> !Is(b, FinalizerJobSucceeded) && (k in v.jobs ==> IsJobFailed(v.jobs[k])))
    && (k in v.jobs ==> Is(b, OutOfUse))
    && (Is(b, Ready) ==> !BC.Unfilled(b))
  }

  /** The bound PVC is protected, or the operator was entitled to give it up. */
  predicate Accounted(v: Objects, k: Key, b: Binding, u: Uid) {
    Protected(v.pvcs, k, u) || Is(b, PodMissing) || Is(b, FinalizerJobSucceeded)
  }

  /** Nobody interferes with the binding: its FluentPVC is there, it is held by its own finalizer or by
      nothing, it is past the timeout, its pod is over. */
  ghost predicate Left(v: Objects, k: Key, b: Binding) {
    && BC.FluentPVCKey(b) in v.fluentPVCs
    && b.meta.finalizers <= {BindingProtection} && (b.meta.deleting ==> BindingProtection in b.meta.finalizers)
    && IsCreatedBefore(b.meta, ONE_HOUR, v.now)
    && PodOver(v, k, b)
  }

  /** The PVC is not lost; it is held by pvc-protection, whoever else holds it too, or it is being deleted
      and still held by someone else. */
  predicate PVCQuiet(p: PVC) {
    && p.meta.finalizers != {} && (PVCProtection in p.meta.finalizers || p.meta.deleting)
    && !p.body.phase.ClaimLost?
  }

  /** Nobody interferes with PVC and Job: the PVC is as above; the Job at k is the only one indexed under its name and is not being deleted. */
  predicate Quiet(v: Objects, k: Key, u: Uid) {
    && PodsSound(v.pods)
    && JobsOwnedBy(v.jobs, k.name) == (if k in v.jobs then {k} else {})
    && (k in v.jobs ==> !v.jobs[k].meta.deleting)
    && (HasPVC(v, k, u) ==> PVCQuiet(v.pvcs[k]))
  }

  /** What is kept by every move, whether or not the run will end. */
  ghost predicate Steady(v: Objects, k: Key, u: Uid) {
    && Quiet(v, k, u)
    && (k in v.bindings ==> Sound(v, k, v.bindings[k], u) && Accounted(v, k, v.bindings[k], u) && Left(v, k, v.bindings[k]))
    && (k !in v.bindings ==> !Protected(v.pvcs, k, u))
  }

  /** The two things that keep a binding from its end: being Unknown, and a failed Job. */
  predicate Unblocked(v: Objects, k: Key) {
    k in v.bindings ==> !Is(v.bindings[k], Unknown) && NotFailed(v, k, v.bindings[k])
  }

  // ---------------------------------------------------------------- the measure

  /** What is left to do, part by part; every part only shrinks. */
  datatype Todo =
    | Gone(pvc: nat)
    | Alive(pvc: nat, adopt: nat, fill: nat, missing: nat, ready: nat, used: nat, job: nat)

  function PVCTodo(v: Objects, k: Key, u: Uid): nat {
    if !HasPVC(v, k, u) then 0 else if PVCProtection in v.pvcs[k].meta.finalizers then 2 else 1
  }

  function JobTodo(v: Objects, k: Key, b: Binding): nat {
    if Is(b, FinalizerJobSucceeded) then 0
    else if k !in v.jobs then (if Is(b, FinalizerJobApplied) || Is(b, FinalizerJobFailed) then 5 else 4)
    else if FinishedStatus(v.jobs[k].body.conditions) == None then (if Is(b, FinalizerJobApplied) then 2 else 3)
    else 1
  }

  predicate Adopted(v: Objects, b: Binding) {
    BC.FluentPVCKey(b) in v.fluentPVCs && BC.IsControlledBy(b, v.fluentPVCs[BC.FluentPVCKey(b)])
  }

  function TodoOf(v: Objects, k: Key, u: Uid): Todo {
    if k !in v.bindings then Gone(PVCTodo(v, k, u))
    else
      var b := v.bindings[k];
      Alive(PVCTodo(v, k, u), if Adopted(v, b) then 0 else 1, if BC.Unfilled(b) then 1 else 0,
            if Is(b, PodMissing) then 0 else 1, if Is(b, Ready) then 0 else 1, if Is(b, OutOfUse) then 0 else 1, JobTodo(v, k, b))
  }

  predicate Eases(p: Todo, q: Todo) {
    && q.pvc <= p.pvc
    && match (p, q)
       case (_, Gone(_)) => true
       case (Gone(_), Alive(_, _, _, _, _, _, _)) => false
       case (Alive(_, b, c, d, e, f, g), Alive(_, b', c', d', e', f', g')) =>
         b' <= b && c' <= c && d' <= d && e' <= e && f' <= f && g' <= g
  }

  function Rank(p: Todo): nat {
    match p
    case Gone(a) => a
    case Alive(a, b, c, d, e, f, g) => 1 + a + b + c + d + e + f + g
  }

  /** Whose turn it is: the controller whose move shrinks the measure. */
  function Turn(p: Todo, k: Key): Move {
    if p.Gone? then ForeignMove(k)
    else if p.adopt != 0 then BindingMove(k)
    else if p.missing == 0 || p.job == 0 then
      (if p.pvc == 2 then PVCMove(k) else if p.pvc == 1 then ForeignMove(k) else BindingMove(k))
    else if p.ready != 0 || p.used != 0 then BindingMove(k)
    else if p.job == 4 then PVCMove(k)
    else if p.job == 2 then JobMove(k)
    else BindingMove(k)
  }

  /** What a move owes: the invariants stay, nothing grows, and something shrinks when it is its turn. */
  ghost predicate Advances(s: Store, s': Store, k: Key, u: Uid, turn: bool) {
    && Steady(s'.objs, k, u) && Unblocked(s'.objs, k)
    && Eases(TodoOf(s.objs, k, u), TodoOf(s'.objs, k, u))
    && (turn ==> TodoOf(s'.objs, k, u) != TodoOf(s.objs, k, u))
  }

  // ---------------------------------------------------------------- the PVC controller's move

  lemma PodOverFrame(v: Objects, v': Objects, k: Key, b: Binding, b': Binding)
    requires PodOver(v, k, b) && v'.pods == v.pods && b'.body.pod == b.body.pod
    requires b'.body.pvc == b.body.pvc && b'.body.fluentPVC.name == b.body.fluentPVC.name
    ensures PodOver(v', k, b')
  {
    assert BC.SearchPod(v', k, b') == BC.SearchPod(v, k, b);
  }

  /** The PVC at k is gone, or it has lost pvc-protection and is being deleted, held by others only. */
  predicate LetGo(v: Objects, v': Objects, k: Key)
    requires k in v.pvcs
  {
    && v' == v.(pvcs := v'.pvcs)
    && ((v'.pvcs == v.pvcs - {k} && v.pvcs[k].meta.finalizers <= {PVCProtection}) ||
        (k in v'.pvcs && v'.pvcs == v.pvcs[k := v'.pvcs[k]] &&
         var p, p' := v.pvcs[k], v'.pvcs[k];
         && p'.meta.uid == p.meta.uid && p'.body == p.body && p'.meta.deleting
         && p'.meta.finalizers == p.meta.finalizers - {PVCProtection} && p'.meta.finalizers != {}))
  }

  lemma ReleaseLetsGo(s: Store, k: Key, ret: Return)
    requires k in s.objs.pvcs && s.objs.pvcs[k].meta.finalizers != {}
    ensures LetGo(s.objs, PC.Release(s, k, s.objs.pvcs[k], ret).0.objs, k)
  {
    var pvc := s.objs.pvcs[k];
    var (s1, a) := UpdatePVC(s, k, PC.Unprotected(pvc));
    assert a.Ok?;
    if k in s1.objs.pvcs {
      assert s1.objs.pvcs == s.objs.pvcs[k := a.obj];
      DeletionMarks(s1, k, a.obj);
    } else {
      assert s1.objs.pvcs == s.objs.pvcs - {k};
      assert Kube.DeletePVC(s1, k, a.obj.meta).0 == s1;
    }
  }

  lemma DeletionMarks(s: Store, k: Key, p: PVC)
    requires k in s.objs.pvcs && s.objs.pvcs[k] == p
    ensures var t, t' := s.objs.pvcs, Kube.DeletePVC(s, k, p.meta).0.objs.pvcs;
            && Kube.DeletePVC(s, k, p.meta).0.objs == s.objs.(pvcs := t')
            && (if p.meta.finalizers == {} then t' == t - {k}
                else k in t' && t' == t[k := t'[k]] && t'[k] == p.(meta := p.meta.(deleting := true, rv := t'[k].meta.rv)))
  {
    assert s.objs.pvcs[k := p] == s.objs.pvcs;
  }

  lemma JobCreated(s: Store, k: Key, b: Binding)
    requires b.meta.owner.Some? && Key("", b.meta.owner.value.name) in s.objs.fluentPVCs
    requires k !in s.objs.jobs && JobsOwnedBy(s.objs.jobs, k.name) == {}
    ensures var r := PC.JobRequestOf(s.objs, s.objs.jobs, k, b);
            && !r.NoRequest?
            && var (s1, a) := PC.SendJob(s, k, r);
               && a.Ok? && k in s1.objs.jobs && s1.objs == s.objs.(jobs := s.objs.jobs[k := s1.objs.jobs[k]])
               && var j := s1.objs.jobs[k];
                  JobIndex(j) == Some(k.name) && !j.meta.deleting && j.body.conditions == []
  {
  }

  lemma PVCMoveCases(s: Store, k: Key, u: Uid)
    requires Steady(s.objs, k, u) && k in s.objs.bindings && HasPVC(s.objs, k, u) && !Is(s.objs.bindings[k], Unknown)
    ensures var v, b, s' := s.objs, s.objs.bindings[k], Do(s, PVCMove(k));
            if Is(b, PodMissing) || Is(b, FinalizerJobSucceeded) then LetGo(v, s'.objs, k)
            else if Is(b, OutOfUse) && !Is(b, FinalizerJobApplied) && k !in v.jobs then
              && k in s'.objs.jobs && s'.objs == v.(jobs := v.jobs[k := s'.objs.jobs[k]])
              && var j := s'.objs.jobs[k]; JobIndex(j) == Some(k.name) && !j.meta.deleting && j.body.conditions == []
            else s' == s
  {
    hide PC.Release, PC.SendJob, PC.JobRequestOf, LetGo;
    ReleaseLetsGo(s, k, Finished);
    ReleaseLetsGo(s, k, Requeue);
    if k !in s.objs.jobs {
      JobCreated(s, k, s.objs.bindings[k]);
    } else {
      assert PC.JobRequestOf(s.objs, s.objs.jobs, k, s.objs.bindings[k]).NoRequest? by { JobsBlock(s, k); }
    }
  }

  lemma JobsBlock(s: Store, k: Key)
    requires JobsOwnedBy(s.objs.jobs, k.name) != {} && k in s.objs.bindings
    ensures PC.JobRequestOf(s.objs, s.objs.jobs, k, s.objs.bindings[k]) == PC.NoRequest(Requeue)
  {
  }

  lemma PVCMoveAdvances(s: Store, k: Key, u: Uid)
    requires Steady(s.objs, k, u) && Unblocked(s.objs, k) && k in s.objs.bindings
    ensures Advances(s, Do(s, PVCMove(k)), k, u, Turn(TodoOf(s.objs, k, u), k) == PVCMove(k))
  {
    hide Do, Sound, Left, TodoOf;
    if HasPVC(s.objs, k, u) {
      PVCMoveCases(s, k, u);
      var v, b, s' := s.objs, s.objs.bindings[k], Do(s, PVCMove(k));
      if Is(b, PodMissing) || Is(b, FinalizerJobSucceeded) {
        PVCLetGo(s, s', k, u);
      } else if s' != s {
        JobAppeared(s, s', k, u);
      } else {
        NotPVCTurn(s, k, u);
      }
    } else {
      BoundPVC(s, k, u);
      NoPVCNoMove(s, k);
      NotPVCTurn(s, k, u);
    }
  }

  lemma BoundPVC(s: Store, k: Key, u: Uid)
    requires Steady(s.objs, k, u) && k in s.objs.bindings
    ensures s.objs.bindings[k].body.pvc == Identity(k.name, u)
  {
  }

  lemma NotPVCTurn(s: Store, k: Key, u: Uid)
    requires Steady(s.objs, k, u) && Unblocked(s.objs, k) && k in s.objs.bindings
    requires var v, b := s.objs, s.objs.bindings[k];
             !HasPVC(v, k, u) || (!Is(b, PodMissing) && !Is(b, FinalizerJobSucceeded) &&
                                  !(Is(b, OutOfUse) && !Is(b, FinalizerJobApplied) && k !in v.jobs))
    ensures Advances(s, s, k, u, Turn(TodoOf(s.objs, k, u), k) == PVCMove(k))
  {
  }

  lemma PVCLetGo(s: Store, s': Store, k: Key, u: Uid)
    requires Steady(s.objs, k, u) && Unblocked(s.objs, k) && k in s.objs.bindings && HasPVC(s.objs, k, u)
    requires Is(s.objs.bindings[k], PodMissing) || Is(s.objs.bindings[k], FinalizerJobSucceeded)
    requires LetGo(s.objs, s'.objs, k)
    ensures Advances(s, s', k, u, Turn(TodoOf(s.objs, k, u), k) == PVCMove(k))
  {
    PodOverFrame(s.objs, s'.objs, k, s.objs.bindings[k], s.objs.bindings[k]);
  }

  lemma JobAppeared(s: Store, s': Store, k: Key, u: Uid)
    requires Steady(s.objs, k, u) && Unblocked(s.objs, k) && k in s.objs.bindings
    requires var b := s.objs.bindings[k]; Is(b, OutOfUse) && !Is(b, FinalizerJobApplied) && k !in s.objs.jobs
    requires k in s'.objs.jobs && s'.objs == s.objs.(jobs := s.objs.jobs[k := s'.objs.jobs[k]])
    requires var j := s'.objs.jobs[k]; JobIndex(j) == Some(k.name) && !j.meta.deleting && j.body.conditions == []
    ensures Advances(s, s', k, u, true)
  {
    PodOverFrame(s.objs, s'.objs, k, s.objs.bindings[k], s.objs.bindings[k]);
    NewJobIsTheOnlyOne(s.objs, k, s'.objs.jobs[k]);
  }

  lemma NoPVCNoMove(s: Store, k: Key)
    requires k in s.objs.bindings && !HasPVC(s.objs, k, s.objs.bindings[k].body.pvc.uid)
    ensures Do(s, PVCMove(k)) == s
  {
  }

  lemma NewJobIsTheOnlyOne(v: Objects, k: Key, j: Job)
    requires JobsOwnedBy(v.jobs, k.name) == (if k in v.jobs then {k} else {}) && JobIndex(j) == Some(k.name)
    ensures JobsOwnedBy(v.jobs[k := j], k.name) == {k}
  {
    var js, js' := JobsOwnedBy(v.jobs, k.name), JobsOwnedBy(v.jobs[k := j], k.name);
    assert forall x :: x in js' && x != k ==> x in js;
  }

  // ---------------------------------------------------------------- other controllers' moves

  lemma LiftedPVC(s: Store, k: Key)
    requires k in s.objs.pvcs && s.objs.pvcs[k].meta.deleting
    ensures var t, t' := s.objs.pvcs, Lifted(s, k).objs.pvcs;
            && Lifted(s, k).objs == s.objs.(pvcs := t')
            && (t' == t || t' == t - {k} ||
                (k in t' && t' == t[k := t'[k]] && PVCProtection in t[k].meta.finalizers &&
                 t'[k] == t[k].(meta := t[k].meta.(finalizers := {PVCProtection}, rv := t'[k].meta.rv))))
            && (PVCProtection in t[k].meta.finalizers ==> t' != t - {k})
            && (PVCProtection !in t[k].meta.finalizers && t[k].meta.finalizers != {} ==> t' == t - {k})
  {
    var fs := s.objs.pvcs[k].meta.finalizers;
    assert fs * {PVCProtection} == if PVCProtection in fs then {PVCProtection} else {};
    assert k !in s.objs.pvcs - {k};
  }

  lemma ForeignMoveAdvances(s: Store, k: Key, u: Uid)
    requires Steady(s.objs, k, u) && Unblocked(s.objs, k)
    ensures var p := TodoOf(s.objs, k, u); Advances(s, Do(s, ForeignMove(k)), k, u, Rank(p) > 0 && Turn(p, k) == ForeignMove(k))
  {
    hide Lifted, IsTrue, BC.SearchPod, BC.CanFill;
    var v, s' := s.objs, Do(s, ForeignMove(k));
    if k in v.pvcs && v.pvcs[k].meta.deleting {
      LiftedPVC(s, k);
      if k in v.bindings { PodOverFrame(v, s'.objs, k, v.bindings[k], v.bindings[k]); }
    } else {
      NothingToLift(s, k);
    }
  }

  lemma NothingToLift(s: Store, k: Key)
    requires !(k in s.objs.pvcs && s.objs.pvcs[k].meta.deleting)
    ensures Lifted(s, k) == s
  {
  }

  lemma CompletedJob(s: Store, k: Key)
    requires k in s.objs.jobs && FinishedStatus(s.objs.jobs[k].body.conditions) == None && !s.objs.jobs[k].meta.deleting
    ensures var s' := Completed(s, k);
            && k in s'.objs.jobs && s'.objs == s.objs.(jobs := s.objs.jobs[k := s'.objs.jobs[k]])
            && IsJobSucceeded(s'.objs.jobs[k]) && JobIndex(s'.objs.jobs[k]) == JobIndex(s.objs.jobs[k])
            && !s'.objs.jobs[k].meta.deleting
  {
    AppendedFinish(s.objs.jobs[k].body.conditions, JobCondition(JobComplete, true));
  }

  lemma JobMoveAdvances(s: Store, k: Key, u: Uid)
    requires Steady(s.objs, k, u) && Unblocked(s.objs, k) && k in s.objs.bindings
    ensures Advances(s, Do(s, JobMove(k)), k, u, Turn(TodoOf(s.objs, k, u), k) == JobMove(k))
  {
    hide IsTrue, BC.SearchPod, BC.CanFill;
    hide Completed;
    var v, b, s' := s.objs, s.objs.bindings[k], Do(s, JobMove(k));
    if k in v.jobs && FinishedStatus(v.jobs[k].body.conditions) == None {
      CompletedJob(s, k);
      assert k in JobsOwnedBy(v.jobs, k.name);
      NewJobIsTheOnlyOne(v, k, s'.objs.jobs[k]);
      PodOverFrame(v, s'.objs, k, b, b);
    } else {
      NothingToComplete(s, k);
    }
  }

  lemma NothingToComplete(s: Store, k: Key)
    requires !(k in s.objs.jobs && FinishedStatus(s.objs.jobs[k].body.conditions) == None)
    ensures Completed(s, k) == s
  {
  }

  // ---------------------------------------------------------------- the binding controller's move

  /** b' is b1 as stored, whatever its version. */
  predicate StoredAs(b': Binding, b1: Binding) {
    b' == b1.(meta := b1.meta.(rv := b'.meta.rv))
  }

  /** Only the binding at k changed, to (a stored version of) b1. */
  predicate Lands(s: Store, s': Store, k: Key, b1: Binding) {
    k in s'.objs.bindings && s'.objs == s.objs.(bindings := s.objs.bindings[k := s'.objs.bindings[k]]) &&
    StoredAs(s'.objs.bindings[k], b1)
  }

  predicate Held(b: Binding) {
    b.meta.deleting ==> b.meta.finalizers != {}
  }

  lemma UpdateLands(s: Store, k: Key, b1: Binding)
    requires k in s.objs.bindings && Held(s.objs.bindings[k])
    requires var b := s.objs.bindings[k];
             b1.meta == b.meta.(owner := b1.meta.owner) && b1.body.conditions == b.body.conditions
    ensures var (s', a) := UpdateBinding(s, k, b1); a.Ok? && Lands(s, s', k, b1) && a.obj == s'.objs.bindings[k]
  {
    assert s.objs.bindings[k := s.objs.bindings[k]] == s.objs.bindings;
  }

  lemma StatusLands(s: Store, k: Key, b1: Binding)
    requires k in s.objs.bindings && Held(s.objs.bindings[k]) && SameButStatus(s.objs.bindings[k], b1)
    ensures var (s', a) := UpdateBindingStatus(s, k, b1); a.Ok? && Lands(s, s', k, b1)
  {
    assert s.objs.bindings[k := s.objs.bindings[k]] == s.objs.bindings;
  }

  lemma DropRemoves(s: Store, k: Key)
    requires k in s.objs.bindings && s.objs.bindings[k].meta.finalizers <= {BindingProtection}
    ensures BC.DropBinding(s, k, s.objs.bindings[k]).0.objs == s.objs.(bindings := s.objs.bindings - {k})
  {
    var b := s.objs.bindings[k];
    assert BC.Unprotected(b).meta.finalizers == {};
    var (s1, a) := UpdateBinding(s, k, BC.Unprotected(b));
    assert BindingProtection in b.meta.finalizers ==> a.Ok? && s1.objs.bindings - {k} == s.objs.bindings - {k};
    assert k !in s.objs.bindings - {k};
  }

  lemma AdoptAdvances(s: Store, s': Store, k: Key, u: Uid)
    requires Steady(s.objs, k, u) && Unblocked(s.objs, k) && k in s.objs.bindings
    requires var b := s.objs.bindings[k];
             Lands(s, s', k, BC.OwnedBy(b, BC.FluentPVCKey(b), s.objs.fluentPVCs[BC.FluentPVCKey(b)])) && !Adopted(s.objs, b)
    ensures Advances(s, s', k, u, true)
  {
    PodOverFrame(s.objs, s'.objs, k, s.objs.bindings[k], s'.objs.bindings[k]);
  }

  lemma FillAdvances(s: Store, s': Store, k: Key, u: Uid)
    requires Steady(s.objs, k, u) && Unblocked(s.objs, k) && k in s.objs.bindings && BC.PlanOf(s.objs, k).Fill?
    requires Lands(s, s', k, BC.PlanOf(s.objs, k).b)
    ensures Advances(s, s', k, u, true)
    ensures Terminal(BC.PlanOf(s.objs, k).pod.body.phase)
    ensures TodoOf(s.objs, k, u).Alive? && TodoOf(s.objs, k, u).adopt == 0
  {
    FilledIsSound(s.objs, s'.objs, k);
    SearchAfterFill(s.objs, s'.objs, k);
  }

  lemma FilledIsSound(v: Objects, v': Objects, k: Key)
    requires k in v.bindings && BC.PlanOf(v, k).Fill? && PodsSound(v.pods)
    ensures var b, b1 := v.bindings[k], BC.PlanOf(v, k).b;
            && BC.Unfilled(b) && !BC.Unfilled(b1) && b1 == b.(body := b.body.(pod := b1.body.pod)) && Adopted(v, b)
            && BC.SearchPod(v, k, b).PodAt? && BC.SearchPod(v, k, b).pod == BC.PlanOf(v, k).pod
  {
    var at := BC.SearchPod(v, k, v.bindings[k]);
    assert at.PodAt? && at.key in v.pods;
    if v.bindings[k].body.pod.name == "" {
      assert at.key in BC.LabelledPods(v.pods, k.ns, k.name);
    }
  }

  /** The turn of the binding controller, for a binding already adopted. */
  predicate VerdictTurn(p: Todo, k: Key) {
    p.Alive? && p.adopt == 0 && Turn(p, k) == BindingMove(k)
  }

  lemma StopAdvances(s: Store, k: Key, u: Uid, pod: Option<Pod>)
    requires Steady(s.objs, k, u) && Unblocked(s.objs, k) && k in s.objs.bindings
    requires pod.Some? ==> Terminal(pod.value.body.phase)
    requires BC.Verdict(s.objs, k, s.objs.bindings[k], pod).Stop?
    ensures Advances(s, s, k, u, VerdictTurn(TodoOf(s.objs, k, u), k))
  {
    var v, b := s.objs, s.objs.bindings[k];
    if k in v.jobs { TheOneJob(v, k, b); }
  }

  lemma TheOneJob(v: Objects, k: Key, b: Binding)
    requires k in v.jobs && JobsOwnedBy(v.jobs, k.name) == {k}
    ensures BC.JobVerdict(v, k, b) == BC.JobStatusVerdict(v.now, b, v.jobs[k])
  {
  }

  lemma DropAdvances(s: Store, s': Store, k: Key, u: Uid, pod: Option<Pod>)
    requires Steady(s.objs, k, u) && Unblocked(s.objs, k) && k in s.objs.bindings
    requires BC.Verdict(s.objs, k, s.objs.bindings[k], pod).Drop?
    requires s'.objs == s.objs.(bindings := s.objs.bindings - {k})
    ensures Advances(s, s', k, u, true)
  {
    hide BC.JobVerdict;
    NoJobVerdictDrops(s.objs, k, s.objs.bindings[k]);
  }

  lemma NoJobVerdictDrops(v: Objects, k: Key, b: Binding)
    ensures !BC.JobVerdict(v, k, b).Drop?
  {
  }

  /** b1 is b with later conditions that leave no more to do, and less when it is the controller's turn. */
  predicate Eased(v: Objects, k: Key, b: Binding, b1: Binding, turn: bool) {
    && SameButStatus(b, b1) && StatusLe(b.body.conditions, b1.body.conditions) && Ordered(b1.body.conditions)
    && !Is(b1, Unknown) && (Is(b1, Ready) ==> !BC.Unfilled(b1))
    && (Is(b1, FinalizerJobFailed) ==> !Is(b1, FinalizerJobSucceeded) && (k in v.jobs ==> IsJobFailed(v.jobs[k])))
    && JobTodo(v, k, b1) <= JobTodo(v, k, b)
    && (turn ==> Is(b1, PodMissing) != Is(b, PodMissing) || Is(b1, Ready) != Is(b, Ready) || Is(b1, OutOfUse) != Is(b, OutOfUse) ||
                 JobTodo(v, k, b1) < JobTodo(v, k, b))
  }

  lemma EasedAdvances(s: Store, s': Store, k: Key, u: Uid, b1: Binding, turn: bool)
    requires Steady(s.objs, k, u) && Unblocked(s.objs, k) && k in s.objs.bindings
    requires Lands(s, s', k, b1) && Eased(s.objs, k, s.objs.bindings[k], b1, turn)
    ensures Advances(s, s', k, u, turn)
  {
    hide SetStatusCondition, IsTrue, BC.SearchPod, BC.CanFill;
    PodOverFrame(s.objs, s'.objs, k, s.objs.bindings[k], s'.objs.bindings[k]);
  }

  /** A status update leaves no more to do, whichever it is. */
  lemma SaveEases(v: Objects, k: Key, u: Uid, b: Binding, pod: Option<Pod>, c: Change, b1: Binding)
    requires Quiet(v, k, u) && Sound(v, k, b, u) && Accounted(v, k, b, u) && !Is(b, Unknown) && NotFailed(v, k, b)
    requires pod.Some? ==> Terminal(pod.value.body.phase) && !BC.Unfilled(b)
    requires Fits(v, k, b, pod, c, b1)
    ensures Eased(v, k, b, b1, !Is(b, PodMissing))
  {
    hide SetStatusCondition, IsTrue, ReasonOf;
    ChangeKeeps(v, k, b, pod, c, b1);
    match c
    case JobSeen(jk) =>
      assert jk in JobsOwnedBy(v.jobs, k.name);
      JobStatusVerdictKeeps(v.now, b, v.jobs[jk]);
    case JobsGone => NoJobVerdictKeeps(v.now, b);
    case _ =>
  }

  lemma VerdictAdvances(s: Store, v: Objects, k: Key, u: Uid, pod: Option<Pod>)
    requires Steady(s.objs, k, u) && Unblocked(s.objs, k) && k in s.objs.bindings
    requires pod.Some? ==> Terminal(pod.value.body.phase) && !BC.Unfilled(s.objs.bindings[k])
    requires v == s.objs.(bindings := v.bindings)
    ensures var b := s.objs.bindings[k];
            Advances(s, BC.Execute(s, k, b, BC.Verdict(v, k, b, pod)).0, k, u, VerdictTurn(TodoOf(s.objs, k, u), k))
  {
    hide BC.Verdict, BC.DropBinding, UpdateBindingStatus, Steady, Unblocked, Advances, TodoOf, VerdictTurn;
    var b := s.objs.bindings[k];
    SameVerdict(s.objs, v, k, b, pod);
    VerdictKinds(s.objs, k, b, pod);
    match BC.Verdict(s.objs, k, b, pod)
    case Stop(_) => StopAdvances(s, k, u, pod);
    case Drop =>
      Holdings(s, k, u);
      DropRemoves(s, k);
      DropAdvances(s, BC.DropBinding(s, k, b).0, k, u, pod);
      LessIsOwed(s, BC.DropBinding(s, k, b).0, k, u, true, VerdictTurn(TodoOf(s.objs, k, u), k));
    case Save(b1, _) =>
      SaveAdvances(s, k, u, pod, b1);
  }

  lemma LessIsOwed(s: Store, s': Store, k: Key, u: Uid, turn: bool, less: bool)
    requires Advances(s, s', k, u, turn) && (less ==> turn)
    ensures Advances(s, s', k, u, less)
  {
  }

  lemma SaveAdvances(s: Store, k: Key, u: Uid, pod: Option<Pod>, b1: Binding)
    requires Steady(s.objs, k, u) && Unblocked(s.objs, k) && k in s.objs.bindings
    requires pod.Some? ==> Terminal(pod.value.body.phase) && !BC.Unfilled(s.objs.bindings[k])
    requires BC.Verdict(s.objs, k, s.objs.bindings[k], pod).Save? && BC.Verdict(s.objs, k, s.objs.bindings[k], pod).b == b1
    ensures Advances(s, UpdateBindingStatus(s, k, b1).0, k, u, VerdictTurn(TodoOf(s.objs, k, u), k))
  {
    hide BC.Verdict, UpdateBindingStatus, Advances, TodoOf, VerdictTurn, Sound, Left, Quiet, Fits, Eased;
    var b, s' := s.objs.bindings[k], UpdateBindingStatus(s, k, b1).0;
    var c := Classify(s.objs, k, b, pod);
    SaveEases(s.objs, k, u, b, pod, c, b1);
    Holdings(s, k, u);
    SameIdentity(s.objs, k, b, b1, !Is(b, PodMissing));
    StatusLands(s, k, b1);
    EasedAdvances(s, s', k, u, b1, !Is(b, PodMissing));
    BoundPVC(s, k, u);
    if VerdictTurn(TodoOf(s.objs, k, u), k) { TurnOfSave(s.objs, k, u, b, pod); }
    LessIsOwed(s, s', k, u, !Is(b, PodMissing), VerdictTurn(TodoOf(s.objs, k, u), k));
  }

  lemma SameIdentity(v: Objects, k: Key, b: Binding, b1: Binding, turn: bool)
    requires Eased(v, k, b, b1, turn)
    ensures SameButStatus(b, b1)
  {
  }

  lemma VerdictKinds(v: Objects, k: Key, b: Binding, pod: Option<Pod>)
    ensures var plan := BC.Verdict(v, k, b, pod); plan.Stop? || plan.Save? || plan.Drop?
  {
  }

  lemma Holdings(s: Store, k: Key, u: Uid)
    requires Steady(s.objs, k, u) && k in s.objs.bindings
    ensures s.objs.bindings[k].meta.finalizers <= {BindingProtection} && Held(s.objs.bindings[k])
  {
  }

  lemma TurnOfSave(v: Objects, k: Key, u: Uid, b: Binding, pod: Option<Pod>)
    requires k in v.bindings && v.bindings[k] == b && b.body.pvc == Identity(k.name, u)
    requires BC.Verdict(v, k, b, pod).Save? && VerdictTurn(TodoOf(v, k, u), k)
    ensures !Is(b, PodMissing)
  {
  }

  lemma BindingMoveAdvances(s: Store, k: Key, u: Uid)
    requires Steady(s.objs, k, u) && Unblocked(s.objs, k) && k in s.objs.bindings
    ensures Advances(s, Do(s, BindingMove(k)), k, u, Turn(TodoOf(s.objs, k, u), k) == BindingMove(k))
  {
    hide BC.Verdict, BC.PlanOf, UpdateBinding, BC.Execute, Sound, Left, Quiet, TodoOf;
    var v, b := s.objs, s.objs.bindings[k];
    PlanWhenLeft(v, k, u);
    Holdings(s, k, u);
    if !Adopted(v, b) {
      var b1 := BC.OwnedBy(b, BC.FluentPVCKey(b), v.fluentPVCs[BC.FluentPVCKey(b)]);
      UpdateLands(s, k, b1);
      ExecutesAdopt(s, k, b1);
      AdoptAdvances(s, UpdateBinding(s, k, b1).0, k, u);
    } else if BC.PlanOf(v, k).Fill? {
      FillMoveAdvances(s, k, u);
    } else {
      var pod := PodOfVerdict(v, k);
      VerdictAdvances(s, v, k, u, pod);
      AdoptedTurn(v, k, u);
    }
  }

  lemma ExecutesAdopt(s: Store, k: Key, b1: Binding)
    requires k in s.objs.bindings && BC.PlanOf(s.objs, k) == BC.Adopt(b1)
    ensures Do(s, BindingMove(k)) == UpdateBinding(s, k, b1).0
  {
  }

  lemma AdoptedTurn(v: Objects, k: Key, u: Uid)
    requires k in v.bindings && Adopted(v, v.bindings[k])
    ensures Turn(TodoOf(v, k, u), k) == BindingMove(k) ==> VerdictTurn(TodoOf(v, k, u), k)
  {
  }

  /** With nothing in the way a reconcile adopts, fills, or comes to a verdict. */
  lemma PlanWhenLeft(v: Objects, k: Key, u: Uid)
    requires Steady(v, k, u) && Unblocked(v, k) && k in v.bindings
    ensures var b, plan := v.bindings[k], BC.PlanOf(v, k);
            && BC.FluentPVCKey(b) in v.fluentPVCs
            && (if !Adopted(v, b) then plan == BC.Adopt(BC.OwnedBy(b, BC.FluentPVCKey(b), v.fluentPVCs[BC.FluentPVCKey(b)]))
                else plan.Fill? || (plan == BC.Verdict(v, k, b, PodOfVerdict(v, k)) && !plan.Fill?))
            && (Adopted(v, b) && PodOfVerdict(v, k).Some? && !plan.Fill? ==>
                  Terminal(PodOfVerdict(v, k).value.body.phase) && !BC.Unfilled(b))
  {
    hide BC.Verdict;
    VerdictKinds(v, k, v.bindings[k], PodOfVerdict(v, k));
  }

  lemma FillMoveAdvances(s: Store, k: Key, u: Uid)
    requires Steady(s.objs, k, u) && Unblocked(s.objs, k) && k in s.objs.bindings && BC.PlanOf(s.objs, k).Fill?
    ensures Advances(s, Do(s, BindingMove(k)), k, u, true)
  {
    hide BC.Verdict, BC.PlanOf, UpdateBinding, BC.Execute, Sound, Left, Quiet, TodoOf;
    var b1, pod := BC.PlanOf(s.objs, k).b, BC.PlanOf(s.objs, k).pod;
    var (s1, a) := UpdateBinding(s, k, b1);
    Holdings(s, k, u);
    SoundPods(s, k, u);
    FilledIsSound(s.objs, s.objs, k);
    UpdateLands(s, k, b1);
    FillAdvances(s, s1, k, u);
    VerdictAdvances(s1, s.objs, k, u, Some(pod));
  }

  lemma SoundPods(s: Store, k: Key, u: Uid)
    requires Steady(s.objs, k, u)
    ensures PodsSound(s.objs.pods)
  {
  }

  // ---------------------------------------------------------------- moves on other names

  lemma SparedStates(v: Objects, v': Objects, k: Key, u: Uid)
    requires Steady(v, k, u) && Spared(v, v', k)
    ensures Steady(v', k, u) && TodoOf(v', k, u) == TodoOf(v, k, u) && (Unblocked(v', k) <==> Unblocked(v, k))
  {
    hide PodOver, Ordered, IsTrue;
  }

  lemma AgreeingIsSparing(v: Objects, v': Objects, k: Key)
    requires Agree(v, v', k)
    ensures Spared(v, v', k)
  {
    if k in v.bindings && PodOver(v, k, v.bindings[k]) {
      PodOverFrame(v, v', k, v.bindings[k], v.bindings[k]);
    }
  }

  lemma MoveElsewhere(s: Store, m: Move, k: Key, u: Uid)
    requires Steady(s.objs, k, u) && Allowed(m, k) && (m.k.name != k.name || m.World?)
    ensures var v, v' := s.objs, Do(s, m).objs;
            Steady(v', k, u) && TodoOf(v', k, u) == TodoOf(v, k, u) && (Unblocked(v', k) <==> Unblocked(v, k))
  {
    hide Steady, TodoOf, Unblocked, Spared;
    var v, v' := s.objs, Do(s, m).objs;
    match m {
      case BindingMove(k2) =>
        BindingReconcileElsewhere(s, s.objs, k, k2);
        AgreeingIsSparing(v, v', k);
      case PVCMove(k2) =>
        JobsAtHome(s.objs, k, u);
        PVCReconcileElsewhere(s, s.objs, s.objs.jobs, k, k2);
        AgreeingIsSparing(v, v', k);
      case JobMove(k2) =>
        JobsAtHome(s.objs, k, u);
        CompletedFrame(s, k2);
        AgreeButOne(s.objs, Completed(s, k2).objs, k, k2);
        AgreeingIsSparing(v, v', k);
      case ForeignMove(k2) =>
        LiftedFrame(s, k2);
        AgreeingIsSparing(v, v', k);
      case World(_, _) =>
    }
    if Spared(v, v', k) {
      SparedStates(v, v', k, u);
    }
  }

  lemma LiftedFrame(s: Store, k: Key)
    ensures var v, v' := s.objs, Lifted(s, k).objs;
            v' == v.(pvcs := v'.pvcs) && SameBut(v.pvcs, v'.pvcs, k)
  {
  }

  lemma JobsAtHome(v: Objects, k: Key, u: Uid)
    requires Steady(v, k, u)
    ensures forall j :: j in JobsOwnedBy(v.jobs, k.name) ==> j == k
  {
  }

  lemma CompletedFrame(s: Store, k: Key)
    ensures var v, v' := s.objs, Completed(s, k).objs;
            && v' == v.(jobs := v'.jobs) && SameBut(v.jobs, v'.jobs, k)
            && (k in v'.jobs ==> k in v.jobs && JobIndex(v'.jobs[k]) == JobIndex(v.jobs[k]))
  {
  }

  // ---------------------------------------------------------------- schedules

  /** One move, anywhere: nothing grows, and if it is the move whose turn it is something shrinks. */
  lemma MoveAdvances(s: Store, m: Move, k: Key, u: Uid)
    requires Steady(s.objs, k, u) && Unblocked(s.objs, k) && Allowed(m, k)
    ensures var p := TodoOf(s.objs, k, u);
            Advances(s, Do(s, m), k, u, Rank(p) > 0 && m == Turn(p, k))
  {
    hide Steady, Unblocked, TodoOf, Do;
    if m.k.name != k.name || m.World? {
      MoveElsewhere(s, m, k, u);
      SameTodo(s, Do(s, m), k, u);
    } else if m.ForeignMove? {
      ForeignMoveAdvances(s, k, u);
    } else if k !in s.objs.bindings {
      MoveAfterTheEnd(s, m, u);
    } else {
      AliveBinding(s.objs, k, u);
      match m
      case BindingMove(_) => BindingMoveAdvances(s, k, u);
      case PVCMove(_) => PVCMoveAdvances(s, k, u);
      case JobMove(_) => JobMoveAdvances(s, k, u);
    }
  }

  lemma AliveBinding(v: Objects, k: Key, u: Uid)
    ensures TodoOf(v, k, u).Alive? <==> k in v.bindings
  {
  }

  lemma SameTodo(s: Store, s': Store, k: Key, u: Uid)
    requires Steady(s'.objs, k, u) && Unblocked(s'.objs, k) && TodoOf(s'.objs, k, u) == TodoOf(s.objs, k, u)
    ensures Advances(s, s', k, u, false)
  {
  }

  lemma MoveAfterTheEnd(s: Store, m: Move, u: Uid)
    requires Steady(s.objs, m.k, u) && m.k !in s.objs.bindings && (m.BindingMove? || m.PVCMove? || m.JobMove?)
    ensures Advances(s, Do(s, m), m.k, u, false) && TodoOf(s.objs, m.k, u).Gone?
  {
    hide Completed;
    var k, s' := m.k, Do(s, m);
    match m
    case BindingMove(_) => assert s' == s;
    case PVCMove(_) => assert s' == s;
    case JobMove(_) =>
      if k in s.objs.jobs && FinishedStatus(s.objs.jobs[k].body.conditions) == None {
        CompletedJob(s, k);
        NewCompletedJob(s.objs, k, s'.objs.jobs[k]);
      } else {
        NothingToComplete(s, k);
      }
  }

  lemma NewCompletedJob(v: Objects, k: Key, j: Job)
    requires k in v.jobs && JobsOwnedBy(v.jobs, k.name) == {k} && JobIndex(j) == JobIndex(v.jobs[k])
    ensures JobsOwnedBy(v.jobs[k := j], k.name) == {k}
  {
    assert k in JobsOwnedBy(v.jobs, k.name);
    NewJobIsTheOnlyOne(v, k, j);
  }

  lemma {:induction false} PerformAdvances(s: Store, ms: seq<Move>, k: Key, u: Uid)
    requires Steady(s.objs, k, u) && Unblocked(s.objs, k) && AllAllowed(ms, k)
    ensures Advances(s, Perform(s, ms), k, u, false)
    decreases |ms|
  {
    hide Steady, Unblocked, TodoOf, Do, Eases;
    if ms != [] {
      var s1 := Do(s, ms[0]);
      MoveAdvances(s, ms[0], k, u);
      PerformAdvances(s1, ms[1..], k, u);
      EasesTrans(TodoOf(s.objs, k, u), TodoOf(s1.objs, k, u), TodoOf(Perform(s, ms).objs, k, u));
    } else {
      EasesRefl(TodoOf(s.objs, k, u));
    }
  }

  lemma EasesTrans(p: Todo, q: Todo, r: Todo)
    requires Eases(p, q) && Eases(q, r)
    ensures Eases(p, r) && (p != q ==> p != r)
  {
  }

  lemma EasesRefl(p: Todo)
    ensures Eases(p, p)
  {
  }

  lemma NothingLeft(p: Todo, q: Todo)
    requires Eases(p, q) && Rank(p) == 0
    ensures Rank(q) == 0
  {
  }

  lemma EasesRank(p: Todo, q: Todo)
    requires Eases(p, q) && p != q
    ensures Rank(q) < Rank(p)
  {
  }

  /** Whoever's turn it is, the move makes a difference whenever it comes, unless another one did before. */
  lemma {:induction false} TurnComes(s: Store, ms: seq<Move>, k: Key, u: Uid)
    requires Steady(s.objs, k, u) && Unblocked(s.objs, k) && AllAllowed(ms, k)
    requires Rank(TodoOf(s.objs, k, u)) > 0 && Turn(TodoOf(s.objs, k, u), k) in ms
    ensures TodoOf(Perform(s, ms).objs, k, u) != TodoOf(s.objs, k, u)
    decreases |ms|
  {
    hide Steady, Unblocked, TodoOf, Do, Eases, Turn;
    var s1 := Do(s, ms[0]);
    MoveAdvances(s, ms[0], k, u);
    PerformAdvances(s1, ms[1..], k, u);
    if TodoOf(s1.objs, k, u) == TodoOf(s.objs, k, u) {
      TurnComes(s1, ms[1..], k, u);
    } else {
      EasesTrans(TodoOf(s.objs, k, u), TodoOf(s1.objs, k, u), TodoOf(Perform(s, ms).objs, k, u));
    }
  }

  /** A fair round strictly shrinks the measure until there is nothing left to do. */
  lemma RoundAdvances(s: Store, ms: seq<Move>, k: Key, u: Uid)
    requires Steady(s.objs, k, u) && Unblocked(s.objs, k) && AllAllowed(ms, k) && Fair(ms, k)
    ensures Steady(Perform(s, ms).objs, k, u) && Unblocked(Perform(s, ms).objs, k)
    ensures var r := Rank(TodoOf(s.objs, k, u)); Rank(TodoOf(Perform(s, ms).objs, k, u)) <= if r > 0 then r - 1 else 0
  {
    hide Steady, Unblocked, TodoOf, Do, Perform;
    PerformAdvances(s, ms, k, u);
    if Rank(TodoOf(s.objs, k, u)) > 0 {
      assert Turn(TodoOf(s.objs, k, u), k) in ms;
      TurnComes(s, ms, k, u);
      EasesRank(TodoOf(s.objs, k, u), TodoOf(Perform(s, ms).objs, k, u));
    } else {
      NothingLeft(TodoOf(s.objs, k, u), TodoOf(Perform(s, ms).objs, k, u));
    }
  }

  ghost function PerformRounds(s: Store, rounds: seq<seq<Move>>): Store
    decreases |rounds|
  {
    if rounds == [] then s else PerformRounds(Perform(s, rounds[0]), rounds[1..])
  }

  predicate FairRounds(rounds: seq<seq<Move>>, k: Key) {
    forall ms :: ms in rounds ==> Fair(ms, k) && AllAllowed(ms, k)
  }

  /** CONVERGENCE. As many fair rounds as the measure says end with binding and PVC gone, whatever the
      order of moves within a round and whatever else happens that spares k. */
  lemma {:induction false} Converges(s: Store, rounds: seq<seq<Move>>, k: Key, u: Uid)
    requires Steady(s.objs, k, u) && Unblocked(s.objs, k) && FairRounds(rounds, k)
    requires Rank(TodoOf(s.objs, k, u)) <= |rounds|
    ensures k !in PerformRounds(s, rounds).objs.bindings && !HasPVC(PerformRounds(s, rounds).objs, k, u)
    decreases |rounds|
  {
    hide Steady, Unblocked, TodoOf, Do, Perform;
    if rounds == [] {
      AtTheEnd(s.objs, k, u);
    } else {
      assert rounds[0] in rounds;
      RoundAdvances(s, rounds[0], k, u);
      AtTheEnd(s.objs, k, u);
      Converges(Perform(s, rounds[0]), rounds[1..], k, u);
    }
  }

  lemma AtTheEnd(v: Objects, k: Key, u: Uid)
    requires Steady(v, k, u)
    ensures Rank(TodoOf(v, k, u)) == 0 ==> k !in v.bindings && !HasPVC(v, k, u)
    ensures Rank(TodoOf(v, k, u)) <= 13
  {
  }
}
