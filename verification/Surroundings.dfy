/** What the rest of the world may do between the moves of Convergence: the actions of the protocol that
    spare a binding. */
module Surroundings {
  import opened Kube
  import opened Utils
  import opened Protocol
  import opened Invariants
  import opened Preservation
  import opened Runs
  import opened Reconciles
  import opened StaleReads
  import opened FinalizerChains
  import opened Convergence
  import BC = BindingController

  /** The pod at pk is not one the binding at k looks for. */
  predicate OtherPod(s: State, k: Key, pk: Key, pod: PodBody)
    requires k in s.Bindings()
  {
    var b := s.Bindings()[k];
    || pk.ns != k.ns
    || (if b.body.pod.name != "" then pk.name != b.body.pod.name
        else !Labelled(pod, k.name) && (pk in s.Pods() ==> !Labelled(s.Pods()[pk].body, k.name)))
  }

  predicate Labelled(pod: PodBody, name: string) {
    POD_LABEL_BINDING_NAME in pod.labels && pod.labels[POD_LABEL_BINDING_NAME] == name
  }

  /** Actions that leave the binding at k alone: of the webhook and of any controller for other names;
      of users on other bindings, PVCs and Jobs; on FluentPVCs, unless the binding's own is deleted; on
      pods, unless one is made or edited that the binding looks for; and the passing of time. */
  predicate Apart(s: State, a: Action, k: Key)
    requires k in s.Bindings()
  {
    match a
    case WebhookPVC(_, name) => name != k.name
    case WebhookBinding(name, _, _, _) => name != k.name
    case FluentPVCWrite(fk, _) => fk == BC.FluentPVCKey(s.Bindings()[k]) && fk in s.FluentPVCs() ==> !s.FluentPVCs()[fk].meta.deleting
    case CreateFluentPVC(_, _) => true
    case EditFluentPVC(fk, _) => fk == BC.FluentPVCKey(s.Bindings()[k]) && fk in s.FluentPVCs() ==> !s.FluentPVCs()[fk].meta.deleting
    case DeleteFluentPVC(fk) => fk != BC.FluentPVCKey(s.Bindings()[k])
    case PodWrite(_, _) => true
    case CreatePod(pk, pod) => OtherPod(s, k, pk, pod)
    case EditPod(pk, pod) => OtherPod(s, k, pk, pod)
    case DeletePod(_) => true
    case ReapPod(_) => true
    case Tick(_) => true
    case _ => a.k.name != k.name
  }

  /** None of these stands in the way of convergence: each is a World move. */
  lemma ApartIsSpared(s: State, a: Action, k: Key)
    requires Inv(s) && Enabled(s, a) && ReadsPast(a, s) && k in s.Bindings() && Apart(s, a, k)
    ensures Spared(s.store.objs, Next(s, a).store.objs, k)
    ensures Do(s.store, World(k, Next(s, a).store)) == Next(s, a).store
  {
    hide Inv, Next, Enabled, ReadsPast, Evolves, Apart;
    var s' := Next(s, a);
    StepKeeps(s, a);
    BindingIsOK(s, k);
    TablesAtK(s, a, k);
    JobsOfTheName(s, s', k);
    PodsStaySound(s');
    TimePasses(s, a);
    FluentPVCStays(s, a, k);
    PodStaysOver(s, a, k);
  }

  lemma PodsStaySound(s: State)
    requires Inv(s)
    ensures PodsSound(s.Pods())
  {
  }

  lemma TablesAtK(s: State, a: Action, k: Key)
    requires Enabled(s, a) && k in s.Bindings() && Apart(s, a, k)
    ensures var s' := Next(s, a);
            AgreeAt(s.Bindings(), s'.Bindings(), k) && AgreeAt(s.PVCs(), s'.PVCs(), k) && AgreeAt(s.Jobs(), s'.Jobs(), k)
  {
    hide Next, Enabled;
    if a.FluentPVCWrite? || a.CreateFluentPVC? || a.EditFluentPVC? || a.DeleteFluentPVC? || a.Tick? {
      QuietActions(s, a);
    } else if a.PodWrite? || a.CreatePod? || a.EditPod? || a.DeletePod? || a.ReapPod? {
      PodActions(s, a);
    } else {
      StepIsOneWrite(s, a);
      OneEntries(s, Next(s, a), KeyOf(s, a), k);
    }
  }

  lemma OneEntries(s: State, s': State, k': Key, k: Key)
    requires OneWrite(s, s', k') && k' != k
    ensures AgreeAt(s.Bindings(), s'.Bindings(), k) && AgreeAt(s.PVCs(), s'.PVCs(), k) && AgreeAt(s.Jobs(), s'.Jobs(), k)
  {
  }

  lemma QuietActions(s: State, a: Action)
    requires Enabled(s, a) && (a.FluentPVCWrite? || a.CreateFluentPVC? || a.EditFluentPVC? || a.DeleteFluentPVC? || a.Tick?)
    ensures var s' := Next(s, a);
            s'.Bindings() == s.Bindings() && s'.PVCs() == s.PVCs() && s'.Jobs() == s.Jobs() && s'.Pods() == s.Pods()
  {
  }

  lemma PodActions(s: State, a: Action)
    requires Enabled(s, a) && (a.PodWrite? || a.CreatePod? || a.EditPod? || a.DeletePod? || a.ReapPod?)
    ensures var s' := Next(s, a); s'.Bindings() == s.Bindings() && s'.PVCs() == s.PVCs() && s'.Jobs() == s.Jobs()
  {
  }

  /** A name indexes the Job of its binding's key, before and after. */
  lemma JobsOfTheName(s: State, s': State, k: Key)
    requires Inv(s) && Inv(s') && k in s.Bindings() && k in s'.Bindings() && AgreeAt(s.Jobs(), s'.Jobs(), k)
    ensures JobsOwnedBy(s'.Jobs(), k.name) == JobsOwnedBy(s.Jobs(), k.name)
  {
    hide Inv;
    BindingIsOK(s, k);
    BindingIsOK(s', k);
    JobsAreOK(s);
    JobsAreOK(s');
    JobsOfOneName(s, k.name);
    JobsOfOneName(s', k.name);
    assert forall j :: j in JobsOwnedBy(s.Jobs(), k.name) <==> j == k && k in s.Jobs() && JobIndex(s.Jobs()[k]) == Some(k.name);
    assert forall j :: j in JobsOwnedBy(s'.Jobs(), k.name) <==> j == k && k in s'.Jobs() && JobIndex(s'.Jobs()[k]) == Some(k.name);
  }

  lemma JobsAreOK(s: State)
    requires Inv(s)
    ensures JobsOK(s)
  {
  }

  lemma FluentPVCStays(s: State, a: Action, k: Key)
    requires Enabled(s, a) && k in s.Bindings() && Apart(s, a, k)
    ensures SameFluentPVC(s.store.objs, Next(s, a).store.objs, BC.FluentPVCKey(s.Bindings()[k]))
  {
    if a.FluentPVCWrite? || a.CreateFluentPVC? || a.EditFluentPVC? || a.DeleteFluentPVC? {
      FluentPVCActions(s, a, k);
    } else {
      OthersLeaveFluentPVCs(s, a);
    }
  }

  lemma FluentPVCActions(s: State, a: Action, k: Key)
    requires Enabled(s, a) && (a.FluentPVCWrite? || a.CreateFluentPVC? || a.EditFluentPVC? || a.DeleteFluentPVC?)
    requires k in s.Bindings() && Apart(s, a, k)
    ensures SameFluentPVC(s.store.objs, Next(s, a).store.objs, BC.FluentPVCKey(s.Bindings()[k]))
  {
  }

  // ---------------------------------------------------------------- the pod

  predicate OverAt(p: Pod, b: Binding) {
    && (BC.Unfilled(b) ==> BC.CanFill(b, p))
    && (BC.Unfilled(b) || p.meta.uid == b.body.pod.uid ==> Terminal(p.body.phase))
  }

  /** PodOver said without a search: of the pods the binding may find there is at most one, and that is over. */
  lemma OverWithoutSearch(v: Objects, k: Key, b: Binding)
    ensures PodOver(v, k, b) <==>
              var ks := BC.LabelledPods(v.pods, k.ns, k.name);
              if b.body.pod.name != "" then Key(k.ns, b.body.pod.name) in v.pods ==> OverAt(v.pods[Key(k.ns, b.body.pod.name)], b)
              else |ks| <= 1 && forall x :: x in ks ==> OverAt(v.pods[x], b)
  {
    hide BC.CanFill;
    var ks := BC.LabelledPods(v.pods, k.ns, k.name);
    if b.body.pod.name == "" && |ks| == 1 {
      var pk :| pk in ks && BC.SearchPod(v, k, b) == BC.PodAt(pk, v.pods[pk]);
      forall x | x in ks ensures x == pk { SingletonChoice(ks, x, pk); }
    } else if b.body.pod.name == "" && |ks| == 0 {
      assert ks == {};
    }
  }

  lemma PodStaysOver(s: State, a: Action, k: Key)
    requires Enabled(s, a) && k in s.Bindings() && Apart(s, a, k)
    ensures PodOver(s.store.objs, k, s.Bindings()[k]) ==> PodOver(Next(s, a).store.objs, k, s.Bindings()[k])
  {
    hide PodOver;
    var b, v, v' := s.Bindings()[k], s.store.objs, Next(s, a).store.objs;
    OverWithoutSearch(v, k, b);
    OverWithoutSearch(v', k, b);
    if a.CreatePod? || a.EditPod? {
      OtherPodWritten(s, a);
      NotLookedFor(s, k, a.k, a.pod, v'.pods);
    } else if a.PodWrite? || a.DeletePod? || a.ReapPod? {
      PodRemovedOrMarked(s, a);
      StillOver(v.pods, v'.pods, k, b, a.k);
    } else {
      OthersLeavePods(s, a);
    }
  }

  lemma OtherPodWritten(s: State, a: Action)
    requires Enabled(s, a) && (a.CreatePod? || a.EditPod?)
    ensures var t, t' := s.Pods(), Next(s, a).Pods();
            t' == t || (a.k in t' && t' == t[a.k := t'[a.k]] && t'[a.k].body == a.pod)
  {
  }

  lemma NotLookedFor(s: State, k: Key, pk: Key, pod: PodBody, t': Table<PodBody>)
    requires k in s.Bindings() && OtherPod(s, k, pk, pod)
    requires t' == s.Pods() || (pk in t' && t' == s.Pods()[pk := t'[pk]] && t'[pk].body == pod)
    ensures var b, t := s.Bindings()[k], s.Pods();
            if b.body.pod.name != "" then AgreeAt(t, t', Key(k.ns, b.body.pod.name))
            else BC.LabelledPods(t', k.ns, k.name) == BC.LabelledPods(t, k.ns, k.name) &&
                 forall x :: x in BC.LabelledPods(t, k.ns, k.name) ==> t'[x] == t[x]
  {
    var ks, ks' := BC.LabelledPods(s.Pods(), k.ns, k.name), BC.LabelledPods(t', k.ns, k.name);
    if s.Bindings()[k].body.pod.name == "" {
      assert forall x :: x in ks <==> x in ks';
    }
  }

  lemma StillOver(t: Table<PodBody>, t': Table<PodBody>, k: Key, b: Binding, pk: Key)
    requires t' == t || t' == t - {pk} ||
             (pk in t && pk in t' && t' == t[pk := t'[pk]] && t'[pk].body == t[pk].body && t'[pk].meta.uid == t[pk].meta.uid)
    ensures forall x :: x in t' ==> x in t && (OverAt(t[x], b) ==> OverAt(t'[x], b))
    ensures BC.LabelledPods(t', k.ns, k.name) <= BC.LabelledPods(t, k.ns, k.name)
    ensures |BC.LabelledPods(t', k.ns, k.name)| <= |BC.LabelledPods(t, k.ns, k.name)|
  {
    hide OverAt;
    var ks, ks' := BC.LabelledPods(t, k.ns, k.name), BC.LabelledPods(t', k.ns, k.name);
    forall x | x in t' ensures x in t && (OverAt(t[x], b) ==> OverAt(t'[x], b)) {
      if x == pk { SameOver(t[x], t'[x], b); }
    }
    FewerOrEqual(ks', ks);
  }

  lemma SameOver(p: Pod, p': Pod, b: Binding)
    requires p'.body == p.body && p'.meta.uid == p.meta.uid
    ensures OverAt(p, b) ==> OverAt(p', b)
  {
  }

  lemma FewerOrEqual(ks: set<Key>, ls: set<Key>)
    requires ks <= ls
    ensures |ks| <= |ls|
  {
    assert ls == ks + (ls - ks);
  }

  lemma PodRemovedOrMarked(s: State, a: Action)
    requires Enabled(s, a) && (a.PodWrite? || a.DeletePod? || a.ReapPod?)
    ensures var t, t' := s.Pods(), Next(s, a).Pods();
            t' == t || t' == t - {a.k} ||
            (a.k in t && a.k in t' && t' == t[a.k := t'[a.k]] && t'[a.k].body == t[a.k].body && t'[a.k].meta.uid == t[a.k].meta.uid)
  {
  }
}
