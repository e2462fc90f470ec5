/** Every step, with reads from any past states, keeps the invariant and leads to a later state. */
module Preservation {
  import opened Conditions
  import opened Kube
  import opened Utils
  import opened Protocol
  import opened Invariants
  import BC = BindingController
  import PC = PVCController
  import WH = PodWebhook

  // ---------------------------------------------------------------- what stale reads still tell

  lemma StaleBinding(p: State, s: State, k: Key)
    requires Past(p, s) && k in p.Bindings()
    ensures Cas(s.Bindings(), k, p.Bindings()[k])
    ensures BindingOK(p, k, p.Bindings()[k])
    ensures k in s.Bindings() ==> BindingLe(p.Bindings()[k], s.Bindings()[k])
    ensures k.name in s.log.bound && s.log.bound[k.name] == p.Bindings()[k].meta.uid
    ensures k.name in s.log.minted && s.log.minted[k.name] == Minted(k.ns, p.Bindings()[k].body.pvc.uid)
  {
    if k in s.Bindings() && s.Bindings()[k].meta.rv == p.Bindings()[k].meta.rv {
      SameVersion(p.Bindings(), s.Bindings(), p.store.nextUid, p.store.nextRv, k);
    }
  }

  lemma StalePods(p: State, s: State, v: Objects)
    requires Past(p, s) && v.pods == p.Pods()
    ensures PodsKnown(v, s.store.nextUid)
  {
  }

  /** Generated names being unique in the cluster, a name indexes at most one Job. */
  lemma JobsOfOneName(p: State, name: string)
    requires JobsOK(p)
    ensures |JobsOwnedBy(p.Jobs(), name)| <= 1
    ensures name in p.log.minted ==> JobsOwnedBy(p.Jobs(), name) <= {Key(p.log.minted[name].ns, name)}
  {
    var js := JobsOwnedBy(p.Jobs(), name);
    if js != {} {
      var x :| x in js;
      forall y | y in js ensures y == x {
        assert JobOK(p, x, p.Jobs()[x]) && JobOK(p, y, p.Jobs()[y]);
      }
      assert js == {x};
    }
    forall y | y in js ensures name in p.log.minted ==> y == Key(p.log.minted[name].ns, name) {
      assert JobOK(p, y, p.Jobs()[y]);
    }
  }

  lemma StaleJobs(p: State, s: State, v: Objects, k: Key, uid: Uid)
    requires Past(p, s) && v.jobs == p.Jobs()
    requires k.name in s.log.bound && s.log.bound[k.name] == uid
    ensures JobsKnown(v, k, s.log.completed, uid)
  {
    forall jk | jk in v.jobs && JobIndex(v.jobs[jk]) == Some(k.name) && IsJobSucceeded(v.jobs[jk])
      ensures uid in s.log.completed
    {
      assert JobOK(p, jk, p.Jobs()[jk]);
    }
    JobsOfOneName(p, k.name);
  }

  /** A UID in t is, in t', at the same key or nowhere. */
  ghost predicate SameHomes(t: Table<PodBody>, t': Table<PodBody>) {
    forall pk, qk :: pk in t && qk in t' && t[pk].meta.uid == t'[qk].meta.uid ==> pk == qk
  }

  lemma StalePodUids(p: State, s: State)
    requires Past(p, s)
    ensures SameHomes(p.Pods(), s.Pods())
  {
    forall pk, qk | pk in p.Pods() && qk in s.Pods() && p.Pods()[pk].meta.uid == s.Pods()[qk].meta.uid
      ensures pk == qk
    {
      assert qk in p.Pods() && p.Pods()[qk].meta.uid == p.Pods()[pk].meta.uid;
    }
  }

  lemma StalePVC(p: State, s: State, k: Key)
    requires Past(p, s) && k in p.PVCs()
    ensures Cas(s.PVCs(), k, p.PVCs()[k])
  {
    if k in s.PVCs() && s.PVCs()[k].meta.rv == p.PVCs()[k].meta.rv {
      SameVersion(p.PVCs(), s.PVCs(), p.store.nextUid, p.store.nextRv, k);
    }
  }

  // ---------------------------------------------------------------- frames

  lemma FrameBindings(s: State, s': State)
    requires BindingsOK(s) && LogGrows(s.log, s'.log) && s'.Bindings() == s.Bindings() && s.store.nextUid <= s'.store.nextUid
    requires s'.log.released == s.log.released
    ensures BindingsOK(s')
  {
    forall b | b in s'.Bindings() ensures BindingOK(s', b, s'.Bindings()[b]) {
      assert BindingOK(s, b, s.Bindings()[b]);
    }
  }

  lemma FrameJobs(s: State, s': State)
    requires JobsOK(s) && LogGrows(s.log, s'.log) && s'.log.minted == s.log.minted && s'.Jobs() == s.Jobs()
    requires forall k :: k in s'.Bindings() && k.name in s.log.bound ==>
               k in s.Bindings() && (Is(s.Bindings()[k], OutOfUse) ==> Is(s'.Bindings()[k], OutOfUse))
    ensures JobsOK(s')
  {
    forall j | j in s'.Jobs() ensures JobOK(s', j, s'.Jobs()[j]) {
      assert JobOK(s, j, s.Jobs()[j]);
    }
  }

  lemma FramePVCs(s: State, s': State)
    requires PVCsOK(s) && LogGrows(s.log, s'.log) && s'.log.minted == s.log.minted && s'.PVCs() == s.PVCs()
    ensures PVCsOK(s')
  {
    forall p | p in s'.PVCs() ensures PVCOK(s', p, s'.PVCs()[p]) {
      assert PVCOK(s, p, s.PVCs()[p]);
    }
  }

  lemma SameBindingsEvolve(s: State, s': State)
    requires s'.Bindings() == s.Bindings()
    ensures BindingsEvolve(s, s')
  {
  }

  // ---------------------------------------------------------------- steps of the binding controller

  lemma BindingWriteStep(s: State, k: Key, f: Sources) returns (v: Objects)
    requires Inv(s) && SourcesPast(f, s)
    ensures v == View(f)
    ensures BindingEffect(s.store, BindingPlanWrite(s.store, v, k), v, k)
    ensures var t' := BindingPlanWrite(s.store, v, k).objs.bindings;
            k in s.Bindings() && k in t' ==> BindingLe(s.Bindings()[k], t'[k]) && BindingOK(s, k, t'[k])
  {
    v := View(f);
    var t' := BindingPlanWrite(s.store, v, k).objs.bindings;
    if k in v.bindings {
      StaleBinding(f.bindings, s, k);
      StalePods(f.pods, s, v);
      StaleJobs(f.jobs, s, v, k, v.bindings[k].meta.uid);
    }
    BindingWriteEffect(s.store, v, k);
    if k in s.Bindings() && k in t' {
      assert BindingOK(s, k, s.Bindings()[k]);
      if t' != s.Bindings() {
        OutcomeKeeps(s, v, k, t'[k]);
      }
    }
  }

  /** A filled-in pod identity points at the one pod that can have the UID. */
  lemma WrittenPod(v: Objects, k: Key, b': Binding, nextUid: Uid, rv: nat, pods: Table<PodBody>, pk: Key)
    requires k in v.bindings && Ordered(v.bindings[k].body.conditions)
    requires Outcome(BC.PlanOf(v, k), v.bindings[k], b', rv)
    requires PodsKnown(v, nextUid) && SameHomes(v.pods, pods)
    requires pk in pods && pods[pk].meta.uid == b'.body.pod.uid && !BC.Unfilled(b')
    requires b'.body.pod == v.bindings[k].body.pod ==> pk == Key(k.ns, b'.body.pod.name)
    ensures pk == Key(k.ns, b'.body.pod.name)
  {
    hide BC.PlanOf, Ordered, PodsKnown, SameHomes;
    PlanIsAboutTheBinding(v, k);
    if BC.PlanOf(v, k).Fill? && b'.body.pod != v.bindings[k].body.pod {
      FilledPodIsHome(v, k, nextUid, pods, pk, b');
    } else if BC.PlanOf(v, k).Adopt? {
      AdoptKeeps(v, k);
    }
  }

  lemma FilledPodIsHome(v: Objects, k: Key, nextUid: Uid, pods: Table<PodBody>, pk: Key, b': Binding)
    requires k in v.bindings && BC.PlanOf(v, k).Fill? && PodsKnown(v, nextUid) && SameHomes(v.pods, pods)
    requires pk in pods && pods[pk].meta.uid == b'.body.pod.uid && b'.body == BC.PlanOf(v, k).b.body
    ensures pk == Key(k.ns, b'.body.pod.name)
  {
    hide BC.PlanOf;
    FillKeeps(v, k, nextUid);
  }

  ghost predicate PodHome(k: Key, b: Binding, pods: Table<PodBody>) {
    forall pk :: pk in pods && !BC.Unfilled(b) && pods[pk].meta.uid == b.body.pod.uid ==> pk == Key(k.ns, b.body.pod.name)
  }

  lemma BindingWriteKeepsPod(s: State, k: Key, f: Sources)
    requires Inv(s) && SourcesPast(f, s)
    requires BindingEffect(s.store, BindingPlanWrite(s.store, View(f), k), View(f), k)
    ensures var t' := BindingPlanWrite(s.store, View(f), k).objs.bindings;
            k in t' ==> k in s.Bindings() && PodHome(k, t'[k], s.Pods())
  {
    var v, t' := View(f), BindingPlanWrite(s.store, View(f), k).objs.bindings;
    if k in t' && t' != s.Bindings() {
      StalePods(f.pods, s, v);
      StalePodUids(f.pods, s);
      StaleBinding(f.bindings, s, k);
      WrittenPods(v, k, t'[k], s.store.nextUid, s.store.nextRv, s.Pods());
    }
  }

  lemma WrittenPods(v: Objects, k: Key, b': Binding, nextUid: Uid, rv: nat, pods: Table<PodBody>)
    requires k in v.bindings && Ordered(v.bindings[k].body.conditions)
    requires Outcome(BC.PlanOf(v, k), v.bindings[k], b', rv)
    requires PodsKnown(v, nextUid) && SameHomes(v.pods, pods) && PodHome(k, v.bindings[k], pods)
    ensures PodHome(k, b', pods)
  {
    forall pk | pk in pods && !BC.Unfilled(b') && pods[pk].meta.uid == b'.body.pod.uid
      ensures pk == Key(k.ns, b'.body.pod.name)
    {
      WrittenPod(v, k, b', nextUid, rv, pods, pk);
    }
  }

  /** Only the binding at k changes, to a later sound version, or goes. */
  ghost predicate BindingLocal(s: State, t': Table<BindingBody>, k: Key) {
    && (forall b :: b in t' && b != k ==> b in s.Bindings() && t'[b] == s.Bindings()[b])
    && (k in t' ==> k in s.Bindings() && BindingLe(s.Bindings()[k], t'[k]) && BindingOK(s, k, t'[k]) && PodHome(k, t'[k], s.Pods()))
  }

  lemma BindingWriteLocal(s: State, k: Key, f: Sources)
    requires Inv(s) && SourcesPast(f, s)
    ensures var st := BindingPlanWrite(s.store, View(f), k);
            BindingLocal(s, st.objs.bindings, k) && st == WithBindings(s.store, st.objs.bindings)
  {
    var v := BindingWriteStep(s, k, f);
    BindingWriteKeepsPod(s, k, f);
    EffectIsLocal(s, BindingPlanWrite(s.store, v, k), v, k);
  }

  lemma EffectIsLocal(s: State, st: Store, v: Objects, k: Key)
    requires BindingEffect(s.store, st, v, k)
    requires var t' := st.objs.bindings;
             k in t' && k in s.Bindings() ==>
               BindingLe(s.Bindings()[k], t'[k]) && BindingOK(s, k, t'[k]) && PodHome(k, t'[k], s.Pods())
    ensures BindingLocal(s, st.objs.bindings, k) && st == WithBindings(s.store, st.objs.bindings)
  {
  }

  lemma BindingTableKeeps(s: State, s': State, k: Key)
    requires Inv(s) && Counted(s') && TablesGrow(s, s') && BindingLocal(s, s'.Bindings(), k)
    requires s'.log == s.log && s'.PVCs() == s.PVCs() && s'.Jobs() == s.Jobs() && s'.Pods() == s.Pods()
    ensures Inv(s') && Evolves(s, s')
  {
    LocalBindings(s, s', k);
    FrameJobs(s, s');
    FramePVCs(s, s');
    LocalPods(s, s', k);
  }

  lemma LocalBindings(s: State, s': State, k: Key)
    requires BindingsOK(s) && BindingLocal(s, s'.Bindings(), k) && s'.log == s.log && s.store.nextUid <= s'.store.nextUid
    ensures BindingsOK(s') && BindingsEvolve(s, s')
  {
    forall b | b in s'.Bindings() ensures BindingOK(s', b, s'.Bindings()[b]) && BindingLe(s.Bindings()[b], s'.Bindings()[b]) {
      assert BindingOK(s, b, s'.Bindings()[b]);
    }
  }

  lemma LocalPods(s: State, s': State, k: Key)
    requires PodsOK(s) && BindingLocal(s, s'.Bindings(), k) && s'.Pods() == s.Pods()
    ensures PodsOK(s')
  {
    forall b | b in s'.Bindings() ensures PodHome(b, s'.Bindings()[b], s.Pods()) {
      if b != k { assert s'.Bindings()[b] == s.Bindings()[b]; }
    }
  }

  // ---------------------------------------------------------------- steps on PVCs

  /** Only the PVC at k changes; a loss of pvc-protection is recorded, and when the operator caused
      it the binding of that name had been given up or finalized. */
  ghost predicate PVCLocal(s: State, s': State, k: Key) {
    && (forall p :: p in s'.PVCs() && p != k ==> p in s.PVCs() && s'.PVCs()[p] == s.PVCs()[p])
    && (forall p :: p in s.PVCs() && p != k ==> p in s'.PVCs())
    && s'.log == s.log.(released := s'.log.released, stripped := s'.log.stripped)
    && s.log.released <= s'.log.released && s.log.stripped <= s'.log.stripped
    && (k in s'.PVCs() ==> PVCOK(s, k, s'.PVCs()[k]))
    && (forall u :: Protected(s.PVCs(), k, u) && !Protected(s'.PVCs(), k, u) ==> u in s'.log.released || u in s'.log.stripped)
    && (forall u :: u in s'.log.released && u !in s.log.released ==>
          && k.name in s.log.minted && s.log.minted[k.name] == Minted(k.ns, u) && k.name in s.log.bound
          && (k in s.Bindings() ==> Is(s.Bindings()[k], PodMissing) || Is(s.Bindings()[k], FinalizerJobSucceeded)))
  }

  lemma PVCTableKeeps(s: State, s': State, k: Key)
    requires Inv(s) && Counted(s') && TablesGrow(s, s') && PVCLocal(s, s', k)
    requires s'.Bindings() == s.Bindings() && s'.Jobs() == s.Jobs() && s'.Pods() == s.Pods()
    ensures Inv(s') && Evolves(s, s')
  {
    GivenUpBindings(s, s', k);
    FrameJobs(s, s');
    PVCsStayOK(s, s', k);
    SameBindingsEvolve(s, s');
  }

  lemma GivenUpBindings(s: State, s': State, k: Key)
    requires NamesOK(s) && BindingsOK(s) && PVCLocal(s, s', k) && s'.Bindings() == s.Bindings()
    requires s.store.nextUid <= s'.store.nextUid
    ensures NamesOK(s') && BindingsOK(s')
  {
    forall b | b in s'.Bindings() ensures BindingOK(s', b, s'.Bindings()[b]) {
      assert BindingOK(s, b, s.Bindings()[b]);
    }
  }

  lemma PVCsStayOK(s: State, s': State, k: Key)
    requires PVCsOK(s) && PVCLocal(s, s', k)
    ensures PVCsOK(s')
  {
    forall p | p in s'.PVCs() ensures PVCOK(s', p, s'.PVCs()[p]) {
      assert p != k ==> PVCOK(s, p, s.PVCs()[p]);
    }
    forall n | n in s'.log.minted
      ensures var m := s'.log.minted[n];
              Protected(s'.PVCs(), Key(m.ns, n), m.uid) || m.uid in s'.log.released || m.uid in s'.log.stripped
    {
      var m := s.log.minted[n];
      if Protected(s.PVCs(), Key(m.ns, n), m.uid) && Key(m.ns, n) != k {
        assert s'.PVCs()[Key(m.ns, n)] == s.PVCs()[Key(m.ns, n)];
      }
    }
  }

  /** The release: the PVC given up is the bound one, in the version that was read. */
  lemma ReleaseLocal(s: State, s': State, k: Key, f: Sources)
    requires Inv(s) && SourcesPast(f, s)
    requires s'.store == ReleasePlanWrite(s.store, View(f), k)
    requires s'.log == s.log.(released := s.log.released + Lost(s.PVCs(), s'.PVCs(), k))
    ensures PVCLocal(s, s', k)
  {
    var v := View(f);
    if PC.MayRelease(v, k) {
      StaleBinding(f.bindings, s, k);
      StalePVC(f.pvcs, s, k);
      if k in s.PVCs() {
        assert PVCOK(s, k, s.PVCs()[k]);
      }
      ReleaseEffect(s.store, k, v.pvcs[k]);
      ReleaseIsLocal(s, s', v, k);
    } else {
      if k in s.PVCs() {
        assert PVCOK(s, k, s.PVCs()[k]);
      }
    }
  }

  lemma ReleaseEffect(s: Store, k: Key, pvc: PVC)
    requires Cas(s.objs.pvcs, k, pvc)
    ensures var st, t := UpdatePVC(s, k, PC.Unprotected(pvc)).0, s.objs.pvcs;
            var t' := st.objs.pvcs;
            && st == WithPVCs(s, t')
            && (t' == t ||
                (k in t && t[k] == pvc &&
                 (t' == t - {k} ||
                  (k in t' && t' == t[k := t'[k]] && t'[k].meta.uid == pvc.meta.uid && PVCProtection !in t'[k].meta.finalizers))))
  {
  }

  lemma ReleaseIsLocal(s: State, s': State, v: Objects, k: Key)
    requires PC.MayRelease(v, k)
    requires BindingStale(s, v, k)
    requires k in s.PVCs() ==> PVCOK(s, k, s.PVCs()[k])
    requires s'.log == s.log.(released := s.log.released + Lost(s.PVCs(), s'.PVCs(), k))
    requires var t, t' := s.PVCs(), s'.PVCs();
             t' == t ||
             (k in t && t[k] == v.pvcs[k] &&
              (t' == t - {k} ||
               (k in t' && t' == t[k := t'[k]] && t'[k].meta.uid == v.pvcs[k].meta.uid && PVCProtection !in t'[k].meta.finalizers)))
    ensures PVCLocal(s, s', k)
  {
  }

  /** What a binding read in the past, at k, says about the present. */
  ghost predicate BindingStale(s: State, v: Objects, k: Key) {
    && k in v.bindings
    && (k in s.Bindings() ==> BindingLe(v.bindings[k], s.Bindings()[k]))
    && k.name in s.log.bound && s.log.bound[k.name] == v.bindings[k].meta.uid
    && k.name in s.log.minted && s.log.minted[k.name] == Minted(k.ns, v.bindings[k].body.pvc.uid)
  }

  /** Someone else's change to the PVC at k: pvc-protection is neither given nor taken. */
  ghost predicate KeepsProtection(t: Table<PVCBody>, t': Table<PVCBody>, k: Key, nextUid: Uid) {
    && (forall p :: p in t' && p != k ==> p in t && t'[p] == t[p])
    && (forall p :: p in t && p != k ==> p in t')
    && (k in t' && k !in t ==> t'[k].meta.uid == nextUid && PVCProtection !in t'[k].meta.finalizers)
    && (k in t' && k in t ==> t'[k].meta.uid == t[k].meta.uid)
    && (k in t' && k in t ==> (PVCProtection in t'[k].meta.finalizers <==> PVCProtection in t[k].meta.finalizers))
    && (k in t && k !in t' ==> PVCProtection !in t[k].meta.finalizers)
  }

  lemma PVCEvents(t: Table<PVCBody>, k: Key, phase: ClaimPhase, foreign: set<Finalizer>, u: Uid, rv: nat)
    requires k in t && PVCProtection !in foreign
    ensures KeepsProtection(t, Edited(t, k, PVCBody(phase), rv), k, u)
    ensures KeepsProtection(t, EditedFinalizers(t, k, t[k].meta.finalizers * {PVCProtection} + foreign, rv), k, u)
    ensures KeepsProtection(t, TableOf(t, Mark(t, k, false, rv)), k, u)
  {
  }

  lemma PVCEventKeepsProtection(s: State, a: Action)
    requires Enabled(s, a) && (a.UserPVC? || a.SetClaimPhase? || a.SetForeignFinalizers? || a.DeletePVC?)
    ensures KeepsProtection(s.PVCs(), Next(s, a).PVCs(), a.k, s.store.nextUid)
    ensures Next(s, a).log == s.log
  {
    match a {
      case UserPVC(_, foreign) =>
      case SetClaimPhase(k, phase) => PVCEvents(s.PVCs(), k, phase, {}, 0, s.store.nextRv);
      case SetForeignFinalizers(k, foreign) => PVCEvents(s.PVCs(), k, ClaimPending, foreign, 0, s.store.nextRv);
      case DeletePVC(k) => PVCEvents(s.PVCs(), k, ClaimPending, {}, 0, s.store.nextRv);
    }
  }

  lemma KeptProtectionIsLocal(s: State, s': State, k: Key)
    requires NamesOK(s) && PVCsOK(s) && s'.log == s.log
    requires KeepsProtection(s.PVCs(), s'.PVCs(), k, s.store.nextUid)
    ensures PVCLocal(s, s', k)
  {
    if k in s.PVCs() {
      assert PVCOK(s, k, s.PVCs()[k]);
    }
  }

  lemma StripIsLocal(s: State, s': State, k: Key)
    requires PVCsOK(s) && k in s.PVCs()
    requires s'.PVCs() == EditedFinalizers(s.PVCs(), k, s.PVCs()[k].meta.finalizers - {PVCProtection}, s.store.nextRv)
    requires s'.log == s.log.(stripped := s.log.stripped + Lost(s.PVCs(), s'.PVCs(), k))
    ensures PVCLocal(s, s', k)
  {
    assert PVCOK(s, k, s.PVCs()[k]);
  }

  // ---------------------------------------------------------------- steps of the webhook

  lemma WebhookPVCKeeps(s: State, s': State, ns: string, name: string)
    requires Inv(s) && Enabled(s, WebhookPVC(ns, name)) && s' == Next(s, WebhookPVC(ns, name))
    requires Counted(s') && TablesGrow(s, s')
    ensures Inv(s') && Evolves(s, s')
  {
    var k, u := Key(ns, name), s.store.nextUid;
    if k !in s.PVCs() {
      MintKeeps(s, s', k);
    } else {
      assert s'.store.objs == s.store.objs && s'.log == s.log;
      NothingKeeps(s, s');
    }
  }

  lemma MintKeeps(s: State, s': State, k: Key)
    requires Inv(s) && Counted(s') && TablesGrow(s, s')
    requires k.name !in s.log.minted && k !in s.PVCs()
    requires s'.log == s.log.(minted := s.log.minted[k.name := Minted(k.ns, s.store.nextUid)])
    requires k in s'.PVCs() && s'.PVCs() == s.PVCs()[k := s'.PVCs()[k]]
    requires s'.PVCs()[k].meta.uid == s.store.nextUid < s'.store.nextUid && PVCProtection in s'.PVCs()[k].meta.finalizers
    requires s'.Bindings() == s.Bindings() && s'.Jobs() == s.Jobs() && s'.Pods() == s.Pods()
    ensures Inv(s') && Evolves(s, s')
  {
    MintedNames(s, s', k);
    MintedPVCs(s, s', k);
    MintedOthers(s, s', k);
    SameBindingsEvolve(s, s');
  }

  lemma MintedOthers(s: State, s': State, k: Key)
    requires BindingsOK(s) && JobsOK(s) && k.name !in s.log.minted
    requires s'.log == s.log.(minted := s.log.minted[k.name := Minted(k.ns, s.store.nextUid)])
    requires s.store.nextUid <= s'.store.nextUid && s'.Bindings() == s.Bindings() && s'.Jobs() == s.Jobs()
    ensures BindingsOK(s') && JobsOK(s')
  {
    FrameBindings(s, s');
    forall j | j in s'.Jobs() ensures JobOK(s', j, s'.Jobs()[j]) {
      assert JobOK(s, j, s.Jobs()[j]);
    }
  }

  lemma MintedNames(s: State, s': State, k: Key)
    requires NamesOK(s) && 0 < s.store.nextUid < s'.store.nextUid && k.name !in s.log.minted
    requires s'.log == s.log.(minted := s.log.minted[k.name := Minted(k.ns, s.store.nextUid)])
    ensures NamesOK(s')
  {
  }

  lemma MintedPVCs(s: State, s': State, k: Key)
    requires PVCsOK(s) && Within(s.PVCs(), s.store.nextUid, s.store.nextRv) && k.name !in s.log.minted && k !in s.PVCs()
    requires forall n :: n in s.log.minted ==> s.log.minted[n].uid < s.store.nextUid
    requires s'.log == s.log.(minted := s.log.minted[k.name := Minted(k.ns, s.store.nextUid)])
    requires k in s'.PVCs() && s'.PVCs() == s.PVCs()[k := s'.PVCs()[k]]
    requires s'.PVCs()[k].meta.uid == s.store.nextUid && PVCProtection in s'.PVCs()[k].meta.finalizers
    ensures PVCsOK(s')
  {
    forall p | p in s'.PVCs() ensures PVCOK(s', p, s'.PVCs()[p]) {
      if p != k { assert PVCOK(s, p, s.PVCs()[p]); }
    }
    forall n | n in s'.log.minted
      ensures var m := s'.log.minted[n];
              Protected(s'.PVCs(), Key(m.ns, n), m.uid) || m.uid in s'.log.released || m.uid in s'.log.stripped
    {
      if n != k.name {
        var h := Key(s.log.minted[n].ns, n);
        assert h in s.PVCs() && h != k ==> s'.PVCs()[h] == s.PVCs()[h];
      }
    }
  }

  lemma NothingKeeps(s: State, s': State)
    requires Inv(s) && Counted(s') && TablesGrow(s, s')
    requires s'.log == s.log && s'.Bindings() == s.Bindings() && s'.PVCs() == s.PVCs() && s'.Jobs() == s.Jobs() && s'.Pods() == s.Pods()
    ensures Inv(s') && Evolves(s, s')
  {
    FrameBindings(s, s');
    FrameJobs(s, s');
    FramePVCs(s, s');
    SameBindingsEvolve(s, s');
  }

  /** The binding the webhook creates: named like its PVC, bound to it by UID, with no condition yet. */
  lemma BindKeeps(s: State, s': State, k: Key, b: Binding)
    requires Inv(s) && Counted(s') && TablesGrow(s, s')
    requires k.name in s.log.minted && s.log.minted[k.name].ns == k.ns && k.name !in s.log.bound
    requires s.store.nextUid < s'.store.nextUid && b.meta.uid == s.store.nextUid
    requires s'.log == s.log.(bound := s.log.bound[k.name := b.meta.uid])
    requires s'.Bindings() == s.Bindings()[k := b]
    requires s'.PVCs() == s.PVCs() && s'.Jobs() == s.Jobs() && s'.Pods() == s.Pods()
    requires b.body.pvc == Identity(k.name, s.log.minted[k.name].uid) && b.body.pod.uid == NO_UID && b.body.conditions == []
    requires b.meta.owner == Some(Owner(FluentPVCKind, b.body.fluentPVC.name, b.body.fluentPVC.uid))
    ensures Inv(s') && Evolves(s, s')
  {
    BoundBindings(s, s', k, b);
    BoundJobs(s, s', k, b);
    FramePVCs(s, s');
    BoundPods(s, s', k, b);
  }

  lemma BoundBindings(s: State, s': State, k: Key, b: Binding)
    requires NamesOK(s) && BindingsOK(s) && k.name in s.log.minted && s.log.minted[k.name].ns == k.ns && k.name !in s.log.bound
    requires 0 < s.store.nextUid < s'.store.nextUid && b.meta.uid == s.store.nextUid
    requires s'.log == s.log.(bound := s.log.bound[k.name := b.meta.uid]) && s'.Bindings() == s.Bindings()[k := b]
    requires b.body.pvc == Identity(k.name, s.log.minted[k.name].uid) && b.body.pod.uid == NO_UID && b.body.conditions == []
    requires b.meta.owner == Some(Owner(FluentPVCKind, b.body.fluentPVC.name, b.body.fluentPVC.uid))
    ensures NamesOK(s') && BindingsOK(s') && BindingsEvolve(s, s')
  {
    BoundNames(s, s', k.name, b.meta.uid);
    assert s.log.minted[k.name].uid !in s.log.released;
    assert BindingOK(s', k, b);
    forall c | c in s'.Bindings() && c != k
      ensures BindingOK(s', c, s'.Bindings()[c])
      ensures c in s.Bindings() && BindingLe(s.Bindings()[c], s'.Bindings()[c])
    {
      BoundOther(s, s', k, b, c);
    }
  }

  lemma BoundOther(s: State, s': State, k: Key, b: Binding, c: Key)
    requires BindingsOK(s) && k.name !in s.log.bound && s.store.nextUid < s'.store.nextUid
    requires s'.log == s.log.(bound := s.log.bound[k.name := b.meta.uid])
    requires c in s.Bindings()
    ensures BindingOK(s', c, s.Bindings()[c])
  {
    assert BindingOK(s, c, s.Bindings()[c]);
  }

  lemma BoundNames(s: State, s': State, name: string, uid: Uid)
    requires NamesOK(s) && name in s.log.minted && name !in s.log.bound
    requires 0 < s.store.nextUid < s'.store.nextUid && uid == s.store.nextUid
    requires s'.log == s.log.(bound := s.log.bound[name := uid])
    ensures NamesOK(s')
  {
  }

  lemma BoundJobs(s: State, s': State, k: Key, b: Binding)
    requires JobsOK(s) && k.name !in s.log.bound && s'.Jobs() == s.Jobs()
    requires s'.log == s.log.(bound := s.log.bound[k.name := b.meta.uid]) && s'.Bindings() == s.Bindings()[k := b]
    ensures JobsOK(s')
  {
    forall j | j in s'.Jobs() ensures JobOK(s', j, s'.Jobs()[j]) {
      assert JobOK(s, j, s.Jobs()[j]);
    }
  }

  lemma BoundPods(s: State, s': State, k: Key, b: Binding)
    requires PodsOK(s) && b.body.pod.uid == NO_UID && s'.Bindings() == s.Bindings()[k := b] && s'.Pods() == s.Pods()
    ensures PodsOK(s')
  {
    forall c | c in s'.Bindings() ensures PodHome(c, s'.Bindings()[c], s.Pods()) {
      if c != k { assert s'.Bindings()[c] == s.Bindings()[c]; }
    }
  }

  lemma WebhookBindingKeeps(s: State, s': State, a: Action)
    requires Inv(s) && a.WebhookBinding? && Enabled(s, a) && s' == Next(s, a)
    requires Counted(s') && TablesGrow(s, s')
    ensures Inv(s') && Evolves(s, s')
  {
    var k := Key(s.log.minted[a.name].ns, a.name);
    assert k in s.Bindings() ==> BindingOK(s, k, s.Bindings()[k]);
    BindKeeps(s, s', k, s'.Bindings()[k]);
  }

  // ---------------------------------------------------------------- steps on Jobs

  /** Only the Job at k changes, to a sound one; completions are only added. */
  ghost predicate JobLocal(s: State, s': State, k: Key) {
    && (forall j :: j in s'.Jobs() && j != k ==> j in s.Jobs() && s'.Jobs()[j] == s.Jobs()[j])
    && s'.log == s.log.(completed := s'.log.completed) && s.log.completed <= s'.log.completed
    && (k in s'.Jobs() ==> JobOK(s', k, s'.Jobs()[k]))
  }

  lemma JobTableKeeps(s: State, s': State, k: Key)
    requires Inv(s) && Counted(s') && TablesGrow(s, s') && JobLocal(s, s', k)
    requires s'.Bindings() == s.Bindings() && s'.PVCs() == s.PVCs() && s'.Pods() == s.Pods()
    ensures Inv(s') && Evolves(s, s')
  {
    FrameBindings(s, s');
    FramePVCs(s, s');
    SameBindingsEvolve(s, s');
    LocalJobs(s, s', k);
  }

  lemma LocalJobs(s: State, s': State, k: Key)
    requires JobsOK(s) && JobLocal(s, s', k) && s'.Bindings() == s.Bindings()
    ensures JobsOK(s')
  {
    forall j | j in s'.Jobs() ensures JobOK(s', j, s'.Jobs()[j]) {
      if j != k { assert JobOK(s, j, s.Jobs()[j]); }
    }
  }

  /** Applying the Job: the server refuses, or a Job of the binding appears where there was none. */
  lemma JobWriteLocal(s: State, s': State, k: Key, f: Sources)
    requires Inv(s) && SourcesPast(f, s) && s'.log == s.log
    requires s'.store == JobPlanWrite(s.store, View(f), f.got.Jobs(), k)
    ensures JobLocal(s, s', k)
  {
    var v, got := View(f), f.got.Jobs();
    if k in s.Jobs() {
      assert JobOK(s, k, s.Jobs()[k]);
    }
    if PC.MayApply(v, k) && !PC.JobRequestOf(v, got, k, v.bindings[k]).NoRequest? {
      StaleBinding(f.bindings, s, k);
      SentJob(s.store, v, got, k);
      AppliedJobIsLocal(s, s', v, k);
    } else {
      assert s'.Jobs() == s.Jobs();
    }
  }

  /** An existing Job is never adopted or rewritten: the request replaces the selector the server set. */
  lemma SentJob(s: Store, v: Objects, got: Table<JobBody>, k: Key)
    requires PC.MayApply(v, k) && !PC.JobRequestOf(v, got, k, v.bindings[k]).NoRequest?
    requires k in s.objs.jobs ==> s.objs.jobs[k].body.selector != NO_UID
    ensures var st, t := JobPlanWrite(s, v, got, k), s.objs.jobs;
            var t' := st.objs.jobs;
            && st.objs == s.objs.(jobs := t')
            && (t' == t ||
                (&& k !in t && k in t' && t' == t[k := t'[k]]
                 && t'[k].meta.owner == Some(PC.FinalizerJobOwner(k, v.bindings[k])) && t'[k].body.conditions == []
                 && t'[k].body.selector == t'[k].meta.uid == s.nextUid))
  {
  }

  lemma AppliedJobIsLocal(s: State, s': State, v: Objects, k: Key)
    requires BindingStale(s, v, k) && Is(v.bindings[k], OutOfUse) && s.store.nextUid > 0
    requires k in s.Jobs() ==> JobOK(s, k, s.Jobs()[k])
    requires s'.log == s.log && s'.Bindings() == s.Bindings()
    requires s'.Jobs() == s.Jobs() ||
             (k !in s.Jobs() && k in s'.Jobs() && s'.Jobs() == s.Jobs()[k := s'.Jobs()[k]] &&
              s'.Jobs()[k].meta.owner == Some(PC.FinalizerJobOwner(k, v.bindings[k])) && s'.Jobs()[k].body.conditions == [] &&
              s'.Jobs()[k].body.selector == s'.Jobs()[k].meta.uid == s.store.nextUid)
    ensures JobLocal(s, s', k)
  {
  }

  lemma JobEventLocal(s: State, s': State, a: Action)
    requires JobsOK(s) && s.store.nextUid > 0 && Enabled(s, a) && (a.UserJob? || a.SetJobStatus? || a.DeleteJob?) && s' == Next(s, a)
    ensures JobLocal(s, s', a.k)
  {
    hide JobOK;
    if a.k in s.Jobs() {
      assert JobOK(s, a.k, s.Jobs()[a.k]);
    }
    match a {
      case UserJob(_, _) => UserJobLocal(s, s', a.k);
      case SetJobStatus(k, cs) => JobStatusLocal(s, s', k, cs);
      case DeleteJob(k) =>
        MarkShape(s.Jobs(), k, s.store.nextRv);
        DeletedJobLocal(s, s', k);
    }
  }

  lemma UserJobLocal(s: State, s': State, k: Key)
    requires s'.log == s.log && s'.Bindings() == s.Bindings() && s.store.nextUid > 0
    requires k in s.Jobs() ==> JobOK(s, k, s.Jobs()[k])
    requires s'.Jobs() == s.Jobs() ||
             (k in s'.Jobs() && s'.Jobs() == s.Jobs()[k := s'.Jobs()[k]] && s'.Jobs()[k].meta.owner.None? &&
              s'.Jobs()[k].body.selector == s.store.nextUid)
    ensures JobLocal(s, s', k)
  {
  }

  lemma JobStatusLocal(s: State, s': State, k: Key, cs: seq<JobCondition>)
    requires k in s.Jobs() && JobOK(s, k, s.Jobs()[k]) && s'.Bindings() == s.Bindings()
    requires s'.Jobs() == Edited(s.Jobs(), k, s.Jobs()[k].body.(conditions := cs), s.store.nextRv)
    requires s'.log == s.log.(completed := s.log.completed + Completions(s'.Jobs(), k))
    ensures JobLocal(s, s', k)
  {
  }

  lemma DeletedJobLocal(s: State, s': State, k: Key)
    requires k in s.Jobs() && JobOK(s, k, s.Jobs()[k]) && s'.log == s.log && s'.Bindings() == s.Bindings()
    requires s'.Jobs() == s.Jobs() || s'.Jobs() == s.Jobs() - {k} ||
             (k in s'.Jobs() && s'.Jobs() == s.Jobs()[k := s'.Jobs()[k]] && s'.Jobs()[k].body == s.Jobs()[k].body &&
              s'.Jobs()[k].meta.owner == s.Jobs()[k].meta.owner)
    ensures JobLocal(s, s', k)
  {
  }

  // ---------------------------------------------------------------- steps on pods

  /** Only the pod at k changes: same pod, a new one, or none. */
  ghost predicate PodLocal(s: State, s': State, k: Key) {
    && (forall p :: p in s'.Pods() && p != k ==> p in s.Pods() && s'.Pods()[p] == s.Pods()[p])
    && (k in s'.Pods() ==> (k in s.Pods() && s'.Pods()[k].meta.uid == s.Pods()[k].meta.uid) ||
                           (k.name != "" && s'.Pods()[k].meta.uid == s.store.nextUid))
  }

  lemma PodTableKeeps(s: State, s': State, k: Key)
    requires Inv(s) && Counted(s') && TablesGrow(s, s') && PodLocal(s, s', k)
    requires s'.log == s.log && s'.Bindings() == s.Bindings() && s'.PVCs() == s.PVCs() && s'.Jobs() == s.Jobs()
    ensures Inv(s') && Evolves(s, s')
  {
    FrameBindings(s, s');
    FrameJobs(s, s');
    FramePVCs(s, s');
    SameBindingsEvolve(s, s');
    MovedPods(s, s', k);
  }

  lemma MovedPods(s: State, s': State, k: Key)
    requires PodsOK(s) && BindingsOK(s) && Within(s.Pods(), s.store.nextUid, s.store.nextRv)
    requires PodLocal(s, s', k) && s'.Bindings() == s.Bindings()
    ensures PodsOK(s')
  {
    forall b | b in s'.Bindings() ensures PodHome(b, s'.Bindings()[b], s'.Pods()) {
      assert BindingOK(s, b, s.Bindings()[b]);
      assert PodHome(b, s.Bindings()[b], s.Pods());
    }
  }

  lemma PodEventLocal(s: State, s': State, a: Action)
    requires Enabled(s, a) && s' == Next(s, a)
    requires a.PodWrite? || a.CreatePod? || a.EditPod? || a.DeletePod? || a.ReapPod?
    ensures PodLocal(s, s', a.k)
  {
  }

  // ---------------------------------------------------------------- any step

  lemma MarkShape<T>(t: Table<T>, k: Key, rv: nat)
    requires k in t
    ensures var t', o := TableOf(t, Mark(t, k, false, rv)), t[k];
            t' == t || t' == t - {k} || t' == t[k := o.(meta := o.meta.(deleting := true, rv := rv))]
  {
  }

  lemma MarkedBindingKeeps(s: State, k: Key, b: Binding)
    requires BindingOK(s, k, b) && PodHome(k, b, s.Pods())
    ensures var b' := b.(meta := b.meta.(deleting := true, rv := s.store.nextRv));
            BindingLe(b, b') && BindingOK(s, k, b') && PodHome(k, b', s.Pods())
  {
  }

  lemma DeletedBindingIsLocal(s: State, k: Key)
    requires k in s.Bindings() && BindingOK(s, k, s.Bindings()[k]) && PodHome(k, s.Bindings()[k], s.Pods())
    ensures BindingLocal(s, TableOf(s.Bindings(), Mark(s.Bindings(), k, false, s.store.nextRv)), k)
  {
    MarkShape(s.Bindings(), k, s.store.nextRv);
    MarkedBindingKeeps(s, k, s.Bindings()[k]);
  }

  lemma OperatorStepKeeps(s: State, s': State, a: Action)
    requires Inv(s) && Enabled(s, a) && ReadsPast(a, s) && s' == Next(s, a) && Counted(s') && TablesGrow(s, s')
    requires a.BindingWrite? || a.JobWrite? || a.ReleaseWrite?
    ensures Inv(s') && Evolves(s, s')
  {
    if a.BindingWrite? {
      BindingStepKeeps(s, s', a.k, a.from);
    } else if a.JobWrite? {
      JobWriteKeeps(s, s', a.k, a.from);
    } else {
      ReleaseKeeps(s, s', a.k, a.from);
    }
  }

  lemma BindingStepKeeps(s: State, s': State, k: Key, f: Sources)
    requires Inv(s) && SourcesPast(f, s) && Counted(s') && TablesGrow(s, s')
    requires s' == s.(store := BindingPlanWrite(s.store, View(f), k))
    ensures Inv(s') && Evolves(s, s')
  {
    hide BindingPlanWrite, Inv, Evolves, Counted, TablesGrow, BindingLocal, SourcesPast;
    BindingWriteLocal(s, k, f);
    BindingTableKeeps(s, s', k);
  }

  lemma ReleaseKeeps(s: State, s': State, k: Key, f: Sources)
    requires Inv(s) && SourcesPast(f, s) && Counted(s') && TablesGrow(s, s')
    requires s'.store == ReleasePlanWrite(s.store, View(f), k)
    requires s'.log == s.log.(released := s.log.released + Lost(s.PVCs(), s'.PVCs(), k))
    ensures Inv(s') && Evolves(s, s')
  {
    hide Inv, Evolves, Counted, TablesGrow, PVCLocal, SourcesPast;
    ReleaseLocal(s, s', k, f);
    PVCTableKeeps(s, s', k);
  }

  lemma JobWriteTouchesJobs(s: Store, v: Objects, got: Table<JobBody>, k: Key)
    ensures JobPlanWrite(s, v, got, k).objs == s.objs.(jobs := JobPlanWrite(s, v, got, k).objs.jobs)
  {
  }

  lemma JobWriteKeeps(s: State, s': State, k: Key, f: Sources)
    requires Inv(s) && SourcesPast(f, s) && Counted(s') && TablesGrow(s, s')
    requires s'.log == s.log && s'.store == JobPlanWrite(s.store, View(f), f.got.Jobs(), k)
    ensures Inv(s') && Evolves(s, s')
  {
    JobWriteLocal(s, s', k, f);
    JobWriteConcludes(s, s', k, View(f), f.got.Jobs());
  }

  lemma JobWriteConcludes(s: State, s': State, k: Key, v: Objects, got: Table<JobBody>)
    requires Inv(s) && Counted(s') && TablesGrow(s, s') && JobLocal(s, s', k)
    requires s'.store == JobPlanWrite(s.store, v, got, k)
    ensures Inv(s') && Evolves(s, s')
  {
    JobWriteTouchesJobs(s.store, v, got, k);
    JobTableKeeps(s, s', k);
  }

  lemma PVCEventKeeps(s: State, s': State, a: Action)
    requires Inv(s) && Enabled(s, a) && s' == Next(s, a) && Counted(s') && TablesGrow(s, s')
    requires a.UserPVC? || a.SetClaimPhase? || a.SetForeignFinalizers? || a.DeletePVC? || a.StripPVC?
    ensures Inv(s') && Evolves(s, s')
  {
    if a.StripPVC? {
      StripIsLocal(s, s', a.k);
    } else {
      PVCEventKeepsProtection(s, a);
      KeptProtectionIsLocal(s, s', a.k);
    }
    PVCTableKeeps(s, s', a.k);
  }

  lemma OtherStepKeeps(s: State, s': State, a: Action)
    requires Inv(s) && Enabled(s, a) && s' == Next(s, a) && Counted(s') && TablesGrow(s, s')
    requires a.FluentPVCWrite? || a.CreateFluentPVC? || a.EditFluentPVC? || a.DeleteFluentPVC? || a.Tick? || a.DeleteBinding?
    ensures Inv(s') && Evolves(s, s')
  {
    if a.DeleteBinding? {
      DeletedBindingIsLocal(s, a.k);
      BindingTableKeeps(s, s', a.k);
    } else {
      NothingKeeps(s, s');
    }
  }

  /** The step lemma: with reads from past states, every action keeps the invariant and evolves the state. */
  lemma StepKeeps(s: State, a: Action)
    requires Inv(s) && Enabled(s, a) && ReadsPast(a, s)
    ensures Inv(Next(s, a)) && Evolves(s, Next(s, a))
  {
    hide Inv, Evolves, Next, Enabled, ReadsPast, Counted, TablesGrow;
    StepCounts(s, a);
    StepKeepsRest(s, Next(s, a), a);
  }

  lemma WebhookStepKeeps(s: State, s': State, a: Action)
    requires Inv(s) && Enabled(s, a) && s' == Next(s, a) && Counted(s') && TablesGrow(s, s')
    requires a.WebhookPVC? || a.WebhookBinding?
    ensures Inv(s') && Evolves(s, s')
  {
    hide Inv, Evolves, Next, Enabled, Counted, TablesGrow;
    if a.WebhookPVC? {
      WebhookPVCKeeps(s, s', a.ns, a.name);
    } else {
      WebhookBindingKeeps(s, s', a);
    }
  }

  lemma StepCounts(s: State, a: Action)
    requires Inv(s) && Enabled(s, a)
    ensures Counted(Next(s, a)) && TablesGrow(s, Next(s, a))
  {
    hide Evolves, Next, Enabled, OneWrite;
    StepIsOneWrite(s, a);
    OneWriteGrows(s, Next(s, a), KeyOf(s, a));
  }

  lemma StepKeepsRest(s: State, s': State, a: Action)
    requires Inv(s) && Enabled(s, a) && ReadsPast(a, s) && s' == Next(s, a) && Counted(s') && TablesGrow(s, s')
    ensures Inv(s') && Evolves(s, s')
  {
    hide Inv, Evolves, Next, Enabled, ReadsPast, Counted, TablesGrow;
    if a.WebhookPVC? || a.WebhookBinding? {
      WebhookStepKeeps(s, s', a);
    } else if a.BindingWrite? || a.JobWrite? || a.ReleaseWrite? {
      OperatorStepKeeps(s, s', a);
    } else {
      WorldStepKeeps(s, s', a);
    }
  }

  lemma WorldStepKeeps(s: State, s': State, a: Action)
    requires Inv(s) && Enabled(s, a) && s' == Next(s, a) && Counted(s') && TablesGrow(s, s')
    requires !a.WebhookPVC? && !a.WebhookBinding? && !a.BindingWrite? && !a.JobWrite? && !a.ReleaseWrite?
    ensures Inv(s') && Evolves(s, s')
  {
    hide Inv, Evolves, Next, Enabled, Counted, TablesGrow;
    if a.UserPVC? || a.SetClaimPhase? || a.SetForeignFinalizers? || a.DeletePVC? || a.StripPVC? {
      PVCEventKeeps(s, s', a);
    } else if a.UserJob? || a.SetJobStatus? || a.DeleteJob? {
      JobEventKeeps(s, s', a);
    } else if a.PodWrite? || a.CreatePod? || a.EditPod? || a.DeletePod? || a.ReapPod? {
      PodEventKeeps(s, s', a);
    } else {
      OtherStepKeeps(s, s', a);
    }
  }

  lemma JobEventKeeps(s: State, s': State, a: Action)
    requires Inv(s) && Enabled(s, a) && s' == Next(s, a) && Counted(s') && TablesGrow(s, s')
    requires a.UserJob? || a.SetJobStatus? || a.DeleteJob?
    ensures Inv(s') && Evolves(s, s')
  {
    JobEventLocal(s, s', a);
    JobTableKeeps(s, s', a.k);
  }

  lemma PodEventKeeps(s: State, s': State, a: Action)
    requires Inv(s) && Enabled(s, a) && s' == Next(s, a) && Counted(s') && TablesGrow(s, s')
    requires a.PodWrite? || a.CreatePod? || a.EditPod? || a.DeletePod? || a.ReapPod?
    ensures Inv(s') && Evolves(s, s')
  {
    PodEventLocal(s, s', a);
    PodTableKeeps(s, s', a.k);
  }
}
