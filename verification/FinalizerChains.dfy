/** The chain of finalizers: FluentPVC, binding, PVC; over runs with arbitrarily stale reads. */
module FinalizerChains {
  import opened Conditions
  import SpecRewriting
  import opened Kube
  import opened Utils
  import opened Protocol
  import opened Invariants
  import opened Preservation
  import opened Runs
  import opened StaleReads
  import BC = BindingController
  import PC = PVCController
  import FC = FluentPVCController

  // ---------------------------------------------------------------- protection of PVCs

  /** Protection is given to a PVC when it is made and never again. */
  lemma NoNewProtection(s: State, a: Action, k: Key, u: Uid)
    requires Inv(s) && Enabled(s, a) && ReadsPast(a, s) && u < s.store.nextUid && Protected(Next(s, a).PVCs(), k, u)
    ensures Protected(s.PVCs(), k, u)
  {
    hide Inv, ReadsPast, Evolves;
    if a.UserPVC? || a.SetClaimPhase? || a.SetForeignFinalizers? || a.DeletePVC? {
      PVCEventKeepsProtection(s, a);
    } else if a.ReleaseWrite? {
      ReleaseProtectsNothing(s, a, k, u);
    } else {
      OthersProtectNothing(s, a, k, u);
    }
  }

  lemma ReleaseProtectsNothing(s: State, a: Action, k: Key, u: Uid)
    requires Inv(s) && a.ReleaseWrite? && ReadsPast(a, s) && Protected(Next(s, a).PVCs(), k, u)
    ensures Protected(s.PVCs(), k, u)
  {
    hide Inv, Evolves;
    var v := View(a.from);
    if PC.MayRelease(v, a.k) {
      StalePVC(a.from.pvcs, s, a.k);
      ReleaseEffect(s.store, a.k, v.pvcs[a.k]);
    }
  }

  lemma OthersProtectNothing(s: State, a: Action, k: Key, u: Uid)
    requires Enabled(s, a) && u < s.store.nextUid && Protected(Next(s, a).PVCs(), k, u)
    requires !a.UserPVC? && !a.SetClaimPhase? && !a.SetForeignFinalizers? && !a.DeletePVC? && !a.ReleaseWrite?
    ensures Protected(s.PVCs(), k, u)
  {
    match a
    case BindingWrite(k2, f) => BindingWritesOnlyBindings(s.store, View(f), k2);
    case JobWrite(k2, f) => JobWriteTouchesJobs(s.store, View(f), f.got.Jobs(), k2);
    case _ =>
  }

  lemma {:induction false} RunProtectsNothing(ss: seq<State>, acts: seq<Action>, i: nat, j: nat, k: Key, u: Uid)
    requires IsRun(ss, acts) && i <= j < |ss| && u < ss[i].store.nextUid && Protected(ss[j].PVCs(), k, u)
    ensures Protected(ss[i].PVCs(), k, u)
  {
    hide Inv, Evolves, Next, Enabled, StepAt;
    if i < j {
      RunPodsFade(ss, acts, i, j - 1);
      RunStep(ss, acts, j - 1);
      NoNewProtection(ss[j - 1], acts[j - 1], k, u);
      RunProtectsNothing(ss, acts, i, j - 1, k, u);
    }
  }

  // ---------------------------------------------------------------- binding and PVC

  predicate PVCListsKnowThePVC(acts: seq<Action>, k: Key) {
    forall i :: 0 <= i < |acts| ==> !PVCListTooOld(acts[i], k)
  }

  /** The middle link of the chain: a protected PVC of a bound name has a protected binding. */
  predicate LinkHolds(s: State, k: Key) {
    k.name in s.log.bound && k.name in s.log.minted && s.log.minted[k.name].ns == k.ns &&
    Protected(s.PVCs(), k, s.log.minted[k.name].uid) ==>
      k in s.Bindings() && BindingProtection in s.Bindings()[k].meta.finalizers
  }

  /** A drop went by a list in which the PVC was gone or unprotected. */
  lemma DropSawNoProtection(v: Objects, k: Key)
    requires k in v.bindings && BC.PlanOf(v, k).Drop? && v.bindings[k].body.pvc.name == k.name
    ensures !Protected(v.pvcs, k, v.bindings[k].body.pvc.uid)
  {
  }

  /** Only a drop takes the finalizer off a binding, or the binding away from its finalizer. */
  lemma OnlyDropsUnprotect(s: State, v: Objects, k: Key)
    requires k in v.bindings ==> Ordered(v.bindings[k].body.conditions)
    requires k in s.Bindings() && BindingProtection in s.Bindings()[k].meta.finalizers
    requires var t' := BindingPlanWrite(s.store, v, k).objs.bindings;
             BindingEffect(s.store, BindingPlanWrite(s.store, v, k), v, k) &&
             !(k in t' && BindingProtection in t'[k].meta.finalizers)
    ensures k in v.bindings && v.bindings[k] == s.Bindings()[k] && BC.PlanOf(v, k).Drop?
  {
    hide BC.PlanOf, BindingPlanWrite, Ordered;
    PlanAboutBinding(v, k);
  }

  lemma PlanAboutBinding(v: Objects, k: Key)
    requires k in v.bindings ==> Ordered(v.bindings[k].body.conditions)
    ensures k in v.bindings ==> match BC.PlanOf(v, k)
                                case Adopt(b1) => b1.meta.finalizers == v.bindings[k].meta.finalizers
                                case Fill(b1, _) => b1.meta.finalizers == v.bindings[k].meta.finalizers
                                case Save(b1, _) => b1.meta.finalizers == v.bindings[k].meta.finalizers
                                case _ => true
  {
    hide BC.PlanOf;
    if k in v.bindings { PlanIsAboutTheBinding(v, k); }
  }

  lemma OthersKeepFinalizers(s: State, a: Action, k: Key)
    requires Enabled(s, a) && !(a.BindingWrite? && a.k == k) && k in s.Bindings() && BindingProtection in s.Bindings()[k].meta.finalizers
    ensures k in Next(s, a).Bindings() && BindingProtection in Next(s, a).Bindings()[k].meta.finalizers
  {
    match a
    case BindingWrite(k2, f) => StepIsOneWrite(s, a);
    case JobWrite(k2, f) => JobWriteTouchesJobs(s.store, View(f), f.got.Jobs(), k2);
    case _ =>
  }

  lemma {:induction false} LinkStaysWhole(ss: seq<State>, acts: seq<Action>, j: nat, k: Key)
    requires IsRun(ss, acts) && j < |ss| && PVCListsKnowThePVC(acts, k)
    ensures LinkHolds(ss[j], k)
  {
    hide Inv, Evolves, Next, Enabled, LinkHolds, PVCListTooOld, StepAt;
    if j == 0 {
      NoLinkAtFirst(k);
    } else {
      LinkStaysWhole(ss, acts, j - 1, k);
      LinkStep(ss, acts, j - 1, k);
    }
  }

  lemma NoLinkAtFirst(k: Key)
    ensures LinkHolds(Init, k)
  {
  }

  lemma NewLink(s: State, a: Action, k: Key)
    requires NamesOK(s) && Enabled(s, a) && k.name !in s.log.bound && k.name in Next(s, a).log.bound
    requires k.name in Next(s, a).log.minted && Next(s, a).log.minted[k.name].ns == k.ns
    ensures k in Next(s, a).Bindings() && BindingProtection in Next(s, a).Bindings()[k].meta.finalizers
  {
    assert a.WebhookBinding?;
  }

  lemma LinkStep(ss: seq<State>, acts: seq<Action>, j: nat, k: Key)
    requires IsRun(ss, acts) && j < |acts| && !PVCListTooOld(acts[j], k) && LinkHolds(ss[j], k)
    ensures LinkHolds(ss[j + 1], k)
  {
    hide Inv, Evolves, Next, Enabled, PVCListTooOld, StepAt, Protected;
    var s, s', a := ss[j], ss[j + 1], acts[j];
    RunStep(ss, acts, j);
    LinkNames(s, s', k);
    if k.name in s'.log.bound && k.name in s'.log.minted && s'.log.minted[k.name].ns == k.ns &&
       Protected(s'.PVCs(), k, s'.log.minted[k.name].uid) {
      if k.name !in s.log.bound {
        NewLink(s, a, k);
      } else {
        NoNewProtection(s, a, k, s.log.minted[k.name].uid);
        if a.BindingWrite? && a.k == k {
          DropIsTimely(ss, acts, j, k);
        } else {
          OthersKeepFinalizers(s, a, k);
        }
      }
    }
  }

  lemma LinkNames(s: State, s': State, k: Key)
    requires Inv(s) && Evolves(s, s')
    ensures NamesOK(s)
    ensures k.name in s.log.bound ==> k.name in s.log.minted && s.log.minted[k.name].uid < s.store.nextUid &&
                                      k.name in s'.log.minted && s'.log.minted[k.name] == s.log.minted[k.name]
  {
  }

  lemma DropIsTimely(ss: seq<State>, acts: seq<Action>, j: nat, k: Key)
    requires IsRun(ss, acts) && j < |acts| && acts[j].BindingWrite? && acts[j].k == k && !PVCListTooOld(acts[j], k)
    requires k in ss[j].Bindings() && BindingProtection in ss[j].Bindings()[k].meta.finalizers
    requires k.name in ss[j].log.minted && Protected(ss[j].PVCs(), k, ss[j].log.minted[k.name].uid)
    ensures k in ss[j + 1].Bindings() && BindingProtection in ss[j + 1].Bindings()[k].meta.finalizers
  {
    hide Inv, Evolves, Enabled, BindingPlanWrite, Protected, SourcesPast, Past;
    var s, f := ss[j], acts[j].from;
    var h := PVCsReadIn(ss, acts, j);
    if !(k in ss[j + 1].Bindings() && BindingProtection in ss[j + 1].Bindings()[k].meta.finalizers) {
      TheDrop(s, ss[j + 1], k, f);
      MintedEarlier(f.pvcs, s, k);
      RunProtectsNothing(ss, acts, h, j, k, s.log.minted[k.name].uid);
    }
  }

  lemma TheDrop(s: State, s': State, k: Key, f: Sources)
    requires Inv(s) && SourcesPast(f, s) && s'.store == BindingPlanWrite(s.store, View(f), k)
    requires k in s.Bindings() && BindingProtection in s.Bindings()[k].meta.finalizers
    requires !(k in s'.Bindings() && BindingProtection in s'.Bindings()[k].meta.finalizers)
    ensures k.name in s.log.minted && k in f.bindings.Bindings() && !Protected(f.pvcs.PVCs(), k, s.log.minted[k.name].uid)
  {
    hide Inv, Evolves, BindingPlanWrite, Protected, SourcesPast, BC.PlanOf;
    var v := BindingWriteStep(s, k, f);
    OrderedView(f, s, k);
    OnlyDropsUnprotect(s, v, k);
    BindingIsOK(s, k);
    DropSawNoProtection(v, k);
  }

  lemma PVCsReadIn(ss: seq<State>, acts: seq<Action>, j: nat) returns (h: nat)
    requires IsRun(ss, acts) && j < |acts| && acts[j].BindingWrite?
    ensures h <= j && ss[h] == acts[j].from.pvcs && Past(ss[h], ss[j]) && Inv(ss[j]) && SourcesPast(acts[j].from, ss[j])
    ensures ss[j + 1].store == BindingPlanWrite(ss[j].store, View(acts[j].from), acts[j].k)
  {
    hide Inv, Evolves, Enabled, BindingPlanWrite;
    RunStep(ss, acts, j);
    assert StepAt(ss, acts, j);
    h :| 0 <= h <= j && ss[h] == acts[j].from.pvcs;
  }

  lemma MintedEarlier(p: State, s: State, k: Key)
    requires Past(p, s) && k.name in p.log.minted
    ensures k.name in s.log.minted && s.log.minted[k.name] == p.log.minted[k.name] && p.log.minted[k.name].uid < p.store.nextUid
  {
  }

  /** No binding lets go before its PVC: unless the binding at k still holds its own finalizer, the PVC
      bound to it is gone or no longer protected; with reads as stale as may be, provided no binding
      write at k went by a list of PVCs from before the PVC was made. */
  lemma BindingOutlivesPVC(ss: seq<State>, acts: seq<Action>, j: nat, k: Key)
    requires IsRun(ss, acts) && j < |ss| && PVCListsKnowThePVC(acts, k) && k in ss[j].Bindings()
    requires BindingProtection !in ss[j].Bindings()[k].meta.finalizers
    ensures forall pk :: !Protected(ss[j].PVCs(), pk, ss[j].Bindings()[k].body.pvc.uid)
  {
    LinkStaysWhole(ss, acts, j, k);
    RunKeepsInv(ss, acts, j);
    UnprotectedEverywhere(ss[j], k);
  }

  lemma UnprotectedEverywhere(s: State, k: Key)
    requires Inv(s) && LinkHolds(s, k) && k in s.Bindings() && BindingProtection !in s.Bindings()[k].meta.finalizers
    ensures forall pk :: !Protected(s.PVCs(), pk, s.Bindings()[k].body.pvc.uid)
  {
    assert BindingOK(s, k, s.Bindings()[k]);
    forall pk | pk in s.PVCs() && s.PVCs()[pk].meta.uid == s.Bindings()[k].body.pvc.uid ensures pk == k {
      assert PVCOK(s, pk, s.PVCs()[pk]);
    }
  }

  /** A protected PVC that was ever bound has its binding, which is protected too. */
  lemma ProtectedPVCHasItsBinding(ss: seq<State>, acts: seq<Action>, i: nat, j: nat, k: Key)
    requires IsRun(ss, acts) && i <= j < |ss| && PVCListsKnowThePVC(acts, k) && k in ss[i].Bindings()
    requires Protected(ss[j].PVCs(), k, ss[i].Bindings()[k].body.pvc.uid)
    ensures k in ss[j].Bindings() && BindingProtection in ss[j].Bindings()[k].meta.finalizers
    ensures ss[j].Bindings()[k].body.pvc == ss[i].Bindings()[k].body.pvc
  {
    LinkStaysWhole(ss, acts, j, k);
    RunKeeps(ss, acts, i, j);
    NamesStay(ss[i], ss[j], k);
  }

  lemma NamesStay(p: State, s: State, k: Key)
    requires Inv(p) && Inv(s) && LinkHolds(s, k) && Evolves(p, s) && k in p.Bindings()
    requires Protected(s.PVCs(), k, p.Bindings()[k].body.pvc.uid)
    ensures k in s.Bindings() && BindingProtection in s.Bindings()[k].meta.finalizers
    ensures s.Bindings()[k].body.pvc == p.Bindings()[k].body.pvc
  {
    assert BindingOK(p, k, p.Bindings()[k]);
    assert k in s.Bindings() ==> BindingOK(s, k, s.Bindings()[k]);
  }

  // ---------------------------------------------------------------- FluentPVC and binding

  predicate Guards(t: Table<SpecRewriting.FluentPVCSpec>, fk: Key, uid: Uid) {
    fk in t && t[fk].meta.uid == uid && FluentPVCProtection in t[fk].meta.finalizers
  }

  /** THE FINALIZER CHAIN, with reads as stale as may be but for two. A protected FluentPVC loses its
      finalizer only to a step of its own controller. A binding it owns has let go by then, and its PVC
      is gone or no longer protected, provided that step went by a list of bindings from after that one
      was made, and binding writes at k by lists of PVCs from after the PVC was made. */
  lemma FinalizerChain(ss: seq<State>, acts: seq<Action>, i: nat, fk: Key, uid: Uid, k: Key)
    requires IsRun(ss, acts) && i < |acts|
    requires Guards(ss[i].FluentPVCs(), fk, uid) && !Guards(ss[i + 1].FluentPVCs(), fk, uid)
    requires k in ss[i].Bindings() && BindingIndex(ss[i].Bindings()[k]) == Some(fk.name)
    requires acts[i].FluentPVCWrite? ==> k.name in acts[i].from.bindings.log.bound
    ensures acts[i].FluentPVCWrite? && acts[i].k == fk
    ensures BindingProtection !in ss[i].Bindings()[k].meta.finalizers
    ensures PVCListsKnowThePVC(acts, k) ==> forall pk :: !Protected(ss[i].PVCs(), pk, ss[i].Bindings()[k].body.pvc.uid)
  {
    hide Next, Enabled, Evolves, Inv, Guards;
    RunStep(ss, acts, i);
    OnlyItsControllerUnguards(ss[i], acts[i], fk, uid);
    ListedAndNotHeld(acts[i].from.bindings, ss[i], k, fk.name);
    if PVCListsKnowThePVC(acts, k) {
      BindingOutlivesPVC(ss, acts, i, k);
    }
  }

  lemma ListedAndNotHeld(p: State, s: State, k: Key, name: string)
    requires Past(p, s) && Inv(s) && k in s.Bindings() && BindingIndex(s.Bindings()[k]) == Some(name) && k.name in p.log.bound
    requires !FC.Held(p.Bindings(), name)
    ensures BindingProtection !in s.Bindings()[k].meta.finalizers
  {
    assert BindingOK(s, k, s.Bindings()[k]) && BindingOK(p, k, p.Bindings()[k]);
  }

  lemma OnlyItsControllerUnguards(s: State, a: Action, fk: Key, uid: Uid)
    requires Enabled(s, a) && ReadsPast(a, s) && Inv(s)
    requires Guards(s.FluentPVCs(), fk, uid) && !Guards(Next(s, a).FluentPVCs(), fk, uid)
    ensures a.FluentPVCWrite? && a.k == fk && !FC.Held(a.from.bindings.Bindings(), fk.name) && SourcesPast(a.from, s)
  {
    hide Inv, Evolves;
    if a.FluentPVCWrite? {
      UnguardedByItsController(s, a, fk, uid);
    } else if a.CreateFluentPVC? || a.EditFluentPVC? || a.DeleteFluentPVC? {
      UsersLeaveGuards(s, a, fk, uid);
    } else {
      OthersLeaveFluentPVCs(s, a);
    }
  }

  lemma UnguardedByItsController(s: State, a: Action, fk: Key, uid: Uid)
    requires a.FluentPVCWrite? && Guards(s.FluentPVCs(), fk, uid) && !Guards(Next(s, a).FluentPVCs(), fk, uid)
    ensures a.k == fk && !FC.Held(a.from.bindings.Bindings(), fk.name)
  {
    hide FC.Held;
  }

  lemma UsersLeaveGuards(s: State, a: Action, fk: Key, uid: Uid)
    requires Enabled(s, a) && (a.CreateFluentPVC? || a.EditFluentPVC? || a.DeleteFluentPVC?) && Guards(s.FluentPVCs(), fk, uid)
    ensures Guards(Next(s, a).FluentPVCs(), fk, uid)
  {
  }

  lemma OthersLeaveFluentPVCs(s: State, a: Action)
    requires Enabled(s, a) && !a.FluentPVCWrite? && !a.CreateFluentPVC? && !a.EditFluentPVC? && !a.DeleteFluentPVC?
    ensures Next(s, a).FluentPVCs() == s.FluentPVCs()
  {
    match a
    case BindingWrite(k, f) => BindingWritesOnlyBindings(s.store, View(f), k);
    case JobWrite(k, f) => JobWriteTouchesJobs(s.store, View(f), f.got.Jobs(), k);
    case _ =>
  }
}
