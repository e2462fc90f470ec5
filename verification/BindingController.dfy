/** controllers/fluentpvcbinding_controller.go. */
module BindingController {
  import opened Conditions
  import opened PodSpecs
  import opened Kube
  import opened Utils
  import opened Client

  // ---------------------------------------------------------------- what a reconcile decides

  /** The first thing a reconcile does to the server. */
  datatype Plan =
    | Stop(ret: Return)
    | Adopt(b: Binding)              // updateControllerFluentPVC
    | Fill(b: Binding, pod: Pod)     // fillPodUID; the reconcile then goes on
    | Save(b: Binding, ret: Return)  // a status update
    | Drop                           // deleteFluentPVCBinding

  function OwnedBy(b: Binding, fk: Key, fpvc: FluentPVC): Binding {
    b.(meta := b.meta.(owner := Some(Owner(FluentPVCKind, fk.name, fpvc.meta.uid))),
       body := b.body.(fluentPVC := Identity(fk.name, fpvc.meta.uid)))
  }

  function WithPod(b: Binding, k: Key, pod: Pod): Binding {
    b.(body := b.body.(pod := Identity(k.name, pod.meta.uid)))
  }

  function With(b: Binding, t: ConditionType, holds: bool, reason: Reason, now: int): Binding {
    b.(body := b.body.(conditions := SetStatusCondition(b.body.conditions, t, holds, reason, now)))
  }

  predicate IsControlledBy(b: Binding, fpvc: FluentPVC) {
    b.meta.owner.Some? && b.meta.owner.value.uid == fpvc.meta.uid
  }

  function LabelledPods(pods: Table<PodBody>, ns: string, name: string): set<Key> {
    set k | k in pods && k.ns == ns && POD_LABEL_BINDING_NAME in pods[k].body.labels &&
            pods[k].body.labels[POD_LABEL_BINDING_NAME] == name
  }

  predicate UsesClaim(spec: PodSpec, claimName: string) {
    exists i :: 0 <= i < |spec.volumes| && spec.volumes[i].value == Claim(claimName)
  }

  /** The consistency checks of fillPodUID. */
  predicate CanFill(b: Binding, pod: Pod) {
    && UsesClaim(pod.body.spec, b.body.pvc.name)
    && POD_LABEL_FLUENT_PVC_NAME in pod.body.labels
    && pod.body.labels[POD_LABEL_FLUENT_PVC_NAME] == b.body.fluentPVC.name
  }

  predicate Unfilled(b: Binding) {
    b.body.pod.uid == NO_UID || b.body.pod.name == ""
  }

  datatype PodSearch = PodError | PodAbsent | PodAt(key: Key, pod: Pod)

  /** By label while the binding has no pod name, by name afterwards. */
  ghost function SearchPod(v: Objects, k: Key, b: Binding): PodSearch {
    if b.body.pod.name == "" then
      var ks := LabelledPods(v.pods, k.ns, k.name);
      if |ks| == 0 then PodAbsent
      else if |ks| != 1 then PodError
      else var pk :| pk in ks; PodAt(pk, v.pods[pk])
    else
      var pk := Key(k.ns, b.body.pod.name);
      if pk in v.pods then PodAt(pk, v.pods[pk]) else PodAbsent
  }

  function FindPVC(v: Objects, k: Key, b: Binding): Option<PVC> {
    var pk := Key(k.ns, b.body.pvc.name);
    if pk in v.pvcs && v.pvcs[pk].meta.uid == b.body.pvc.uid then Some(v.pvcs[pk]) else None
  }

  /** updateConditionByFinalizerJobStatus. */
  ghost function JobVerdict(v: Objects, k: Key, b: Binding): Plan {
    var js := JobsOwnedBy(v.jobs, k.name);
    if |js| == 0 then NoJobVerdict(v.now, b)
    else if |js| != 1 then Save(With(b, Unknown, true, MultipleFinalizerJobsFound, v.now), Errored)
    else var jk :| jk in js; JobStatusVerdict(v.now, b, v.jobs[jk])
  }

  function NoJobVerdict(now: int, b: Binding): Plan {
    var b1 := if Is(b, FinalizerJobApplied) then With(b, FinalizerJobApplied, false, FinalizerJobNotFound, now) else b;
    var b2 := if Is(b1, FinalizerJobFailed) then With(b1, FinalizerJobFailed, false, FinalizerJobNotFound, now) else b1;
    if Is(b, FinalizerJobApplied) || Is(b, FinalizerJobFailed) then Save(b2, Finished) else Stop(Finished)
  }

  function WithApplied(b: Binding, now: int): Binding {
    if Is(b, FinalizerJobApplied) then b else With(b, FinalizerJobApplied, true, FinalizerJobFound, now)
  }

  function WithFinish(b: Binding, j: Job, now: int): Binding {
    if IsJobSucceeded(j) then With(b, FinalizerJobSucceeded, true, FinalizerJobIsSucceeded, now)
    else if IsJobFailed(j) then With(b, FinalizerJobFailed, true, FinalizerJobIsFailed, now)
    else b
  }

  function JobStatusVerdict(now: int, b: Binding, j: Job): Plan {
    if !Is(b, FinalizerJobApplied) || IsJobSucceeded(j) || IsJobFailed(j) then Save(WithFinish(WithApplied(b, now), j, now), Finished)
    else Stop(Finished)
  }

  /** Everything after pod and PVC have been looked up. */
  ghost function Verdict(v: Objects, k: Key, b: Binding, pod: Option<Pod>): Plan {
    var pvc := FindPVC(v, k, b);
    if pvc.None? && Is(b, PodMissing) then Drop
    else if pvc.Some? && pvc.value.body.phase.ClaimLost? then Save(With(b, Unknown, true, PVCLost, v.now), Finished)
    else if Is(b, FinalizerJobSucceeded) then
      if pvc.Some? && PVCProtection in pvc.value.meta.finalizers then Stop(Finished) else Drop
    else if pod.None? && !Is(b, Ready) then
      if IsCreatedBefore(b.meta, ONE_HOUR, v.now) then Save(With(b, PodMissing, true, BindingPodTimeout, v.now), Finished)
      else Stop(Finished)
    else
      match (pod, pvc)
      case (None, None) => Save(With(b, Unknown, true, PodAndPVCNotFound, v.now), Finished)
      case (None, Some(_)) =>
        if !Is(b, OutOfUse) then Save(With(b, OutOfUse, true, PodDeletedPVCFound, v.now), Finished) else JobVerdict(v, k, b)
      case (Some(p), None) =>
        if p.body.phase.PodRunning? then Save(With(b, Unknown, true, PodRunningButPVCNotFound, v.now), Finished)
        else if Terminal(p.body.phase) then Save(With(b, Unknown, true, PodCompletedPVCNotFound, v.now), Finished)
        else Stop(Finished)
      case (Some(p), Some(_)) =>
        if !Is(b, Ready) then Save(With(b, Ready, true, PodFoundPVCFound, v.now), Finished)
        else if !Terminal(p.body.phase) then Stop(Finished)
        else if !Is(b, OutOfUse) then Save(With(b, OutOfUse, true, PodCompletedPVCFound, v.now), Finished)
        else JobVerdict(v, k, b)
  }

  lemma VerdictIsNoFill(v: Objects, k: Key, b: Binding, pod: Option<Pod>)
    ensures !Verdict(v, k, b, pod).Fill? && !Verdict(v, k, b, pod).Adopt?
  {
  }

  function FluentPVCKey(b: Binding): Key {
    Key("", b.body.fluentPVC.name)
  }

  /** Reads come from v, which need not be the server's present state. */
  ghost function PlanOf(v: Objects, k: Key): Plan {
    if k !in v.bindings then Stop(Finished)
    else
      var b := v.bindings[k];
      var fk := FluentPVCKey(b);
      if fk !in v.fluentPVCs then Stop(Errored)
      else if !IsControlledBy(b, v.fluentPVCs[fk]) then
        if CanControl(b.meta.owner, FluentPVCKind, fk.name) then Adopt(OwnedBy(b, fk, v.fluentPVCs[fk])) else Stop(Errored)
      else if Is(b, Unknown) then Stop(Finished)
      else match SearchPod(v, k, b)
        case PodError => Stop(Errored)
        case PodAbsent => Verdict(v, k, b, None)
        case PodAt(pk, pod) =>
          if Unfilled(b) then
            if CanFill(b, pod) then Fill(WithPod(b, pk, pod), pod) else Stop(Errored)
          else Verdict(v, k, b, if pod.meta.uid == b.body.pod.uid then Some(pod) else None)
  }

  // ---------------------------------------------------------------- what a whole reconcile does

  function Unprotected(b: Binding): Binding {
    b.(meta := b.meta.(finalizers := b.meta.finalizers - {BindingProtection}))
  }

  /** deleteFluentPVCBinding: drop the finalizer, then delete the version that answer described. */
  function DropBinding(s: Store, k: Key, b: Binding): (Store, Return) {
    if BindingProtection in b.meta.finalizers then
      match UpdateBinding(s, k, Unprotected(b))
      case (s1, Ok(b1)) => FinishDrop(s1, k, b1.meta)
      case (s1, Err(NotFound)) => FinishDrop(s1, k, Unprotected(b).meta)
      case (s1, Err(_)) => (s1, Errored)
    else FinishDrop(s, k, b.meta)
  }

  function FinishDrop(s: Store, k: Key, based: Meta): (Store, Return) {
    match DeleteBinding(s, k, based)
    case (s1, Ok(_)) => (s1, Finished)
    case (s1, Err(NotFound)) => (s1, Finished)
    case (s1, Err(_)) => (s1, Errored)
  }

  ghost function Execute(s: Store, k: Key, b: Binding, plan: Plan): (Store, Return) {
    match plan
    case Stop(ret) => (s, ret)
    case Adopt(b1) => var (s1, a) := UpdateBinding(s, k, b1); (s1, if a.Ok? then Finished else Errored)
    case Fill(b1, _) => var (s1, a) := UpdateBinding(s, k, b1); (s1, if a.Ok? then Finished else Errored)
    case Save(b1, ret) => var (s1, a) := UpdateBindingStatus(s, k, b1); (s1, if a.Ok? then ret else Errored)
    case Drop => DropBinding(s, k, b)
  }

  /** Reconcile as a function of the server's state, the reads and the key. */
  ghost function Reconciled(s: Store, v: Objects, k: Key): (Store, Return) {
    match PlanOf(v, k)
    case Fill(b1, pod) =>
      (match UpdateBinding(s, k, b1)
       case (s1, Ok(b2)) => Execute(s1, k, b2, Verdict(v, k, b2, Some(pod)))
       case (s1, Err(_)) => (s1, Errored))
    case plan => if k in v.bindings then Execute(s, k, v.bindings[k], plan) else (s, Finished)
  }

  // ---------------------------------------------------------------- the reconciler

  class FluentPVCBindingReconciler {
    const client: ApiClient

    constructor (c: ApiClient)
      ensures client == c
    {
      client := c;
    }

    method Reconcile(k: Key) returns (ret: Return)
      modifies client`server
      ensures (client.server, ret) == Reconciled(old(client.server), client.cache, k)
    {
      hide Verdict, DropBinding, CanFill, IsTrue, UpdateBindingStatus, Kube.UpdateBinding;
      if k !in client.cache.bindings {
        return Finished;
      }
      var b := new FluentPVCBinding(k, client.cache.bindings[k]);
      var fk := Key("", b.fluentPVC.name);
      if fk !in client.cache.fluentPVCs {
        return Errored;
      }
      var fpvc := client.cache.fluentPVCs[fk];
      if !(b.meta.owner.Some? && b.meta.owner.value.uid == fpvc.meta.uid) {
        ret := UpdateControllerFluentPVC(b, fk, fpvc);
        return;
      }
      if b.IsCondition(Unknown) {
        return Finished;
      }
      var ok, pod := FulfillPod(b);
      if !ok {
        return Errored;
      }
      VerdictIsNoFill(client.cache, k, b.Value(), pod);
      ret := Conclude(b, pod);
    }

    /** updateControllerFluentPVC. */
    method UpdateControllerFluentPVC(b: FluentPVCBinding, fk: Key, fpvc: FluentPVC) returns (ret: Return)
      modifies client`server, b
      ensures if CanControl(old(b.meta.owner), FluentPVCKind, fk.name)
              then (client.server, ret) == Execute(old(client.server), b.key, old(b.Value()), Adopt(OwnedBy(old(b.Value()), fk, fpvc)))
              else client.server == old(client.server) && ret == Errored
    {
      if !CanControl(b.meta.owner, FluentPVCKind, fk.name) {
        return Errored;
      }
      b.SetOwner(Owner(FluentPVCKind, fk.name, fpvc.meta.uid));
      b.SetFluentPVC(Identity(fk.name, fpvc.meta.uid));
      var err := client.UpdateBinding(b);
      ret := if err.None? then Finished else Errored;
    }

    /** fulfillFluentPVCBindingPod: the pod bound by b, filling in its identity when b has none. */
    method FulfillPod(b: FluentPVCBinding) returns (ok: bool, pod: Option<Pod>)
      modifies client`server, b
      ensures match SearchPod(client.cache, b.key, old(b.Value()))
              case PodError => !ok && client.server == old(client.server)
              case PodAbsent => ok && pod == None && client.server == old(client.server) && b.Value() == old(b.Value())
              case PodAt(pk, p) =>
                if !Unfilled(old(b.Value())) then
                  ok && client.server == old(client.server) && b.Value() == old(b.Value()) &&
                  pod == if p.meta.uid == old(b.pod.uid) then Some(p) else None
                else if !CanFill(old(b.Value()), p) then
                  !ok && client.server == old(client.server)
                else
                  var (s1, a) := Kube.UpdateBinding(old(client.server), b.key, WithPod(old(b.Value()), pk, p));
                  client.server == s1 && (ok <==> a.Ok?) && (ok ==> pod == Some(p) && b.Value() == a.obj)
    {
      var found: Option<Key> := None;
      if b.pod.name == "" {
        var ks := LabelledPods(client.cache.pods, b.key.ns, b.key.name);
        if |ks| == 1 {
          var pk :| pk in ks;
          forall x | x in ks ensures x == pk { SingletonChoice(ks, x, pk); }
          found := Some(pk);
        } else if |ks| != 0 {
          return false, None;
        }
      } else {
        var pk := Key(b.key.ns, b.pod.name);
        found := if pk in client.cache.pods then Some(pk) else None;
      }
      if found.None? {
        return true, None;
      }
      var p := client.cache.pods[found.value];
      if b.pod.uid == NO_UID || b.pod.name == "" {
        ok := FillPodUID(b, found.value, p);
        return ok, Some(p);
      }
      return true, if p.meta.uid == b.pod.uid then Some(p) else None;
    }

    method FillPodUID(b: FluentPVCBinding, pk: Key, p: Pod) returns (ok: bool)
      modifies client`server, b
      ensures if !CanFill(old(b.Value()), p) then !ok && client.server == old(client.server)
              else
                var (s1, a) := Kube.UpdateBinding(old(client.server), b.key, WithPod(old(b.Value()), pk, p));
                client.server == s1 && (ok <==> a.Ok?) && (ok ==> b.Value() == a.obj)
    {
      var podHasPVC := false;
      var volumes := p.body.spec.volumes;
      for i := 0 to |volumes|
        invariant podHasPVC <==> exists j :: 0 <= j < i && volumes[j].value == Claim(b.pvc.name)
      {
        if volumes[i].value == Claim(b.pvc.name) {
          podHasPVC := true;
        }
      }
      if !podHasPVC {
        return false;
      }
      var labels := p.body.labels;
      if !(POD_LABEL_FLUENT_PVC_NAME in labels && labels[POD_LABEL_FLUENT_PVC_NAME] == b.fluentPVC.name) {
        return false;
      }
      b.SetPod(Identity(pk.name, p.meta.uid));
      var err := client.UpdateBinding(b);
      ok := err.None?;
    }

    /** Reconcile from the PVC lookup on. */
    method Conclude(b: FluentPVCBinding, pod: Option<Pod>) returns (ret: Return)
      modifies client`server, b
      ensures (client.server, ret) ==
              Execute(old(client.server), b.key, old(b.Value()), Verdict(client.cache, b.key, old(b.Value()), pod))
    {
      var podFound := pod.Some?;
      var pk := Key(b.key.ns, b.pvc.name);
      var pvcFound := pk in client.cache.pvcs && client.cache.pvcs[pk].meta.uid == b.pvc.uid;
      if !pvcFound && b.IsCondition(PodMissing) {
        ret := DeleteFluentPVCBinding(b);
        return;
      }
      if pvcFound && client.cache.pvcs[pk].body.phase.ClaimLost? {
        ret := UpdateCondition(b, Unknown, PVCLost);
        return;
      }
      if b.IsCondition(FinalizerJobSucceeded) {
        if pvcFound && PVCProtection in client.cache.pvcs[pk].meta.finalizers {
          return Finished;
        }
        ret := DeleteFluentPVCBinding(b);
        return;
      }
      if !podFound && !b.IsCondition(Ready) {
        if IsCreatedBefore(b.meta, ONE_HOUR, client.cache.now) {
          ret := UpdateCondition(b, PodMissing, BindingPodTimeout);
          return;
        }
        return Finished;
      }
      if !podFound && !pvcFound {
        ret := UpdateCondition(b, Unknown, PodAndPVCNotFound);
      } else if !podFound && pvcFound {
        if !b.IsCondition(OutOfUse) {
          ret := UpdateCondition(b, OutOfUse, PodDeletedPVCFound);
          return;
        }
        ret := UpdateConditionByFinalizerJobStatus(b);
      } else if podFound && !pvcFound {
        match pod.value.body.phase {
          case PodPending => ret := Finished;
          case PodUnknown => ret := Finished;
          case PodRunning => ret := UpdateCondition(b, Unknown, PodRunningButPVCNotFound);
          case PodSucceeded => ret := UpdateCondition(b, Unknown, PodCompletedPVCNotFound);
          case PodFailed => ret := UpdateCondition(b, Unknown, PodCompletedPVCNotFound);
        }
      } else {
        if !b.IsCondition(Ready) {
          ret := UpdateCondition(b, Ready, PodFoundPVCFound);
          return;
        }
        if Terminal(pod.value.body.phase) {
          if !b.IsCondition(OutOfUse) {
            ret := UpdateCondition(b, OutOfUse, PodCompletedPVCFound);
            return;
          }
          ret := UpdateConditionByFinalizerJobStatus(b);
        } else {
          ret := Finished;
        }
      }
    }

    method UpdateCondition(b: FluentPVCBinding, t: ConditionType, reason: Reason) returns (ret: Return)
      modifies client`server, b
      ensures (client.server, ret) == Execute(old(client.server), b.key, old(b.Value()),
                                              Save(With(old(b.Value()), t, true, reason, client.cache.now), Finished))
    {
      hide SetStatusCondition, IsTrue;
      b.SetCondition(t, true, reason, client.cache.now);
      var err := client.UpdateBindingStatus(b);
      ret := if err.None? then Finished else Errored;
    }

    method UpdateConditionByFinalizerJobStatus(b: FluentPVCBinding) returns (ret: Return)
      modifies client`server, b
      ensures (client.server, ret) ==
              Execute(old(client.server), b.key, old(b.Value()), JobVerdict(client.cache, b.key, old(b.Value())))
    {
      var jobs := JobsOwnedBy(client.cache.jobs, b.key.name);
      if |jobs| == 0 {
        ret := ClearJobConditions(b);
      } else if |jobs| != 1 {
        b.SetCondition(Unknown, true, MultipleFinalizerJobsFound, client.cache.now);
        var err := client.UpdateBindingStatus(b);
        ret := Errored;
      } else {
        var jk :| jk in jobs;
        forall x | x in jobs ensures x == jk { SingletonChoice(jobs, x, jk); }
        ret := RecordJobStatus(b, client.cache.jobs[jk]);
      }
    }

    /** The branch for no jobs: what was recorded about a deleted job is withdrawn in one update. */
    method ClearJobConditions(b: FluentPVCBinding) returns (ret: Return)
      modifies client`server, b
      ensures (client.server, ret) == Execute(old(client.server), b.key, old(b.Value()), NoJobVerdict(client.cache.now, old(b.Value())))
    {
      hide SetStatusCondition, IsTrue;
      var now := client.cache.now;
      var needUpdate := false;
      if b.IsCondition(FinalizerJobApplied) {
        b.SetCondition(FinalizerJobApplied, false, FinalizerJobNotFound, now);
        needUpdate := true;
      }
      if b.IsCondition(FinalizerJobFailed) {
        b.SetCondition(FinalizerJobFailed, false, FinalizerJobNotFound, now);
        needUpdate := true;
      }
      ret := Finished;
      if needUpdate {
        var err := client.UpdateBindingStatus(b);
        ret := if err.None? then Finished else Errored;
      }
    }

    /** The branch for exactly one job. */
    method RecordJobStatus(b: FluentPVCBinding, j: Job) returns (ret: Return)
      modifies client`server, b
      ensures (client.server, ret) == Execute(old(client.server), b.key, old(b.Value()), JobStatusVerdict(client.cache.now, old(b.Value()), j))
    {
      hide SetStatusCondition, IsTrue;
      var applied := RecordApplied(b);
      var finished := RecordFinish(b, j);
      ret := Finished;
      if applied || finished {
        var err := client.UpdateBindingStatus(b);
        ret := if err.None? then Finished else Errored;
      }
    }

    method RecordApplied(b: FluentPVCBinding) returns (needUpdate: bool)
      modifies b
      ensures b.Value() == WithApplied(old(b.Value()), client.cache.now)
      ensures needUpdate <==> !Is(old(b.Value()), FinalizerJobApplied)
    {
      hide SetStatusCondition, IsTrue;
      needUpdate := !b.IsCondition(FinalizerJobApplied);
      if needUpdate {
        b.SetCondition(FinalizerJobApplied, true, FinalizerJobFound, client.cache.now);
      }
    }

    method RecordFinish(b: FluentPVCBinding, j: Job) returns (needUpdate: bool)
      modifies b
      ensures b.Value() == WithFinish(old(b.Value()), j, client.cache.now)
      ensures needUpdate <==> IsJobSucceeded(j) || IsJobFailed(j)
    {
      hide SetStatusCondition, IsTrue;
      needUpdate := false;
      var status := GetFinishedStatus(j);
      if status == Some(JobComplete) {
        needUpdate := true;
        b.SetCondition(FinalizerJobSucceeded, true, FinalizerJobIsSucceeded, client.cache.now);
      }
      if status == Some(JobFailed) {
        needUpdate := true;
        b.SetCondition(FinalizerJobFailed, true, FinalizerJobIsFailed, client.cache.now);
      }
    }

    method DeleteFluentPVCBinding(b: FluentPVCBinding) returns (ret: Return)
      modifies client`server, b
      ensures (client.server, ret) == DropBinding(old(client.server), b.key, old(b.Value()))
    {
      if BindingProtection in b.meta.finalizers {
        b.RemoveFinalizer(BindingProtection);
        var err := client.UpdateBinding(b);
        if err.Some? && err.value != NotFound {
          return Errored;
        }
      }
      var r := DeleteBinding(client.server, b.key, b.meta);
      client.server := r.0;
      ret := if r.1.Err? && r.1.error != NotFound then Errored else Finished;
    }
  }
}
