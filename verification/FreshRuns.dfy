/** Runs in which every write rests on reads of the present state: nothing is left to provide for. */
module FreshRuns {
  import opened Conditions
  import opened Kube
  import opened Utils
  import opened Protocol
  import opened Invariants
  import opened Runs
  import opened StaleReads
  import opened FinalizerChains

  ghost predicate IsFresh(a: Action, s: State) {
    match a
    case WebhookBinding(_, _, _, f) => f == Now(s)
    case BindingWrite(_, f) => f == Now(s)
    case JobWrite(_, f) => f == Now(s)
    case ReleaseWrite(_, f) => f == Now(s)
    case FluentPVCWrite(_, f) => f == Now(s)
    case PodWrite(_, f) => f == Now(s)
    case _ => true
  }

  ghost predicate FreshStepAt(ss: seq<State>, acts: seq<Action>, i: nat)
    requires i < |acts| && |ss| == |acts| + 1
  {
    Enabled(ss[i], acts[i]) && IsFresh(acts[i], ss[i]) && ss[i + 1] == Next(ss[i], acts[i])
  }

  ghost predicate IsFreshRun(ss: seq<State>, acts: seq<Action>) {
    && |ss| == |acts| + 1 && ss[0] == Init
    && forall i :: 0 <= i < |acts| ==> FreshStepAt(ss, acts, i)
  }

  /** A run on fresh reads is a run. */
  lemma FreshRunIsRun(ss: seq<State>, acts: seq<Action>)
    requires IsFreshRun(ss, acts)
    ensures IsRun(ss, acts)
  {
    hide Next, Enabled;
    forall i | 0 <= i < |acts| ensures StepAt(ss, acts, i) {
      assert FreshStepAt(ss, acts, i);
      assert ss[..i + 1][i] == ss[i];
    }
  }

  /** Fresh reads are recent enough for every guarantee. */
  lemma FreshReadsSuffice(ss: seq<State>, acts: seq<Action>, k: Key)
    requires IsFreshRun(ss, acts)
    ensures IsRun(ss, acts)
    ensures PodListsKnowThePod(ss, acts, k) && JobReadsPresent(ss, acts, k) && PVCListsKnowThePVC(acts, k)
  {
    hide Next, Enabled, Inv;
    FreshRunIsRun(ss, acts);
    forall i | 0 <= i < |acts|
      ensures PodListKnowsThePod(acts[i], k) && JobReadPresent(ss[i], acts[i], k) && !PVCListTooOld(acts[i], k)
    {
      assert FreshStepAt(ss, acts, i);
      if k in ss[i].Bindings() {
        RunKeepsInv(ss, acts, i);
        BindingIsOK(ss[i], k);
      }
    }
  }

  /** With fresh reads, once a finalizer Job of a binding exists, no pod with the bound UID exists in a
      phase other than a terminal one, then and ever after. */
  lemma MutualExclusion(ss: seq<State>, acts: seq<Action>, i: nat, j: nat, k: Key, jk: Key)
    requires IsFreshRun(ss, acts) && i <= j < |ss|
    requires k in ss[i].Bindings() && jk in JobsOwnedBy(ss[i].Jobs(), k.name)
    ensures Is(ss[i].Bindings()[k], OutOfUse)
    ensures PodEnded(ss[j].Pods(), ss[i].Bindings()[k])
  {
    FreshReadsSuffice(ss, acts, k);
    StaleMutualExclusion(ss, acts, i, j, k, jk);
  }

  /** With fresh reads, a binding is Unknown for want of its PVC only if someone other than the operator
      took pvc-protection from that PVC. */
  lemma MissingPVCWasStripped(ss: seq<State>, acts: seq<Action>, j: nat, k: Key)
    requires IsFreshRun(ss, acts) && j < |ss| && k in ss[j].Bindings() && UnknownForWantOfPVC(ss[j].Bindings()[k])
    ensures ss[j].Bindings()[k].body.pvc.uid in ss[j].log.stripped
  {
    FreshReadsSuffice(ss, acts, k);
    MissingPVCHasACause(ss, acts, j, k);
  }

  /** With fresh reads, Succeeded and Failed exclude each other. */
  lemma SucceededExcludesFailed(ss: seq<State>, acts: seq<Action>, j: nat, k: Key)
    requires IsFreshRun(ss, acts) && j < |ss| && k in ss[j].Bindings()
    ensures var b := ss[j].Bindings()[k];
            && !(Is(b, FinalizerJobSucceeded) && Is(b, FinalizerJobFailed))
            && (Is(b, FinalizerJobFailed) ==>
                  forall jk :: jk in JobsOwnedBy(ss[j].Jobs(), k.name) ==> IsJobFailed(ss[j].Jobs()[jk]))
  {
    FreshReadsSuffice(ss, acts, k);
    OneOutcome(ss, acts, j, k);
  }

  /** With fresh reads, a FluentPVC loses its finalizer only when every binding it owns has let go and the
      PVC of every such binding is gone or no longer protected. */
  lemma FreshFinalizerChain(ss: seq<State>, acts: seq<Action>, i: nat, fk: Key, uid: Uid, k: Key)
    requires IsFreshRun(ss, acts) && i < |acts|
    requires Guards(ss[i].FluentPVCs(), fk, uid) && !Guards(ss[i + 1].FluentPVCs(), fk, uid)
    requires k in ss[i].Bindings() && BindingIndex(ss[i].Bindings()[k]) == Some(fk.name)
    ensures acts[i].FluentPVCWrite? && acts[i].k == fk
    ensures BindingProtection !in ss[i].Bindings()[k].meta.finalizers
    ensures forall pk :: !Protected(ss[i].PVCs(), pk, ss[i].Bindings()[k].body.pvc.uid)
  {
    hide Next, Enabled, Inv, Guards;
    FreshReadsSuffice(ss, acts, k);
    assert FreshStepAt(ss, acts, i);
    RunKeepsInv(ss, acts, i);
    BindingIsOK(ss[i], k);
    FinalizerChain(ss, acts, i, fk, uid, k);
  }
}
