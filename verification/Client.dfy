/** controllers/utils.go: lookups the controllers share. */
module Utils {
  import opened Kube

  datatype Return = Finished | Requeue | Errored

  const ONE_HOUR := 3600

  /** isCreatedBefore(obj, duration), with the clock as a parameter. */
  predicate IsCreatedBefore(m: Meta, duration: int, now: int) {
    m.created < now - duration
  }

  predicate IsFinish(c: JobCondition) {
    (c.kind.JobComplete? || c.kind.JobFailed?) && c.holds
  }

  /** The first finishing condition of a Job decides how it finished. */
  function FinishedStatus(cs: seq<JobCondition>): (status: Option<JobConditionType>)
    ensures status.Some? ==> status.value.JobComplete? || status.value.JobFailed?
  {
    if cs == [] then None
    else if IsFinish(cs[0]) then Some(cs[0].kind)
    else FinishedStatus(cs[1..])
  }

  predicate IsJobSucceeded(j: Job) {
    FinishedStatus(j.body.conditions) == Some(JobComplete)
  }

  predicate IsJobFailed(j: Job) {
    FinishedStatus(j.body.conditions) == Some(JobFailed)
  }

  method GetFinishedStatus(j: Job) returns (status: Option<JobConditionType>)
    ensures status == FinishedStatus(j.body.conditions)
    ensures status.Some? ==> status.value.JobComplete? || status.value.JobFailed?
  {
    var cs := j.body.conditions;
    for i := 0 to |cs|
      invariant FinishedStatus(cs) == FinishedStatus(cs[i..])
    {
      if IsFinish(cs[i]) {
        return Some(cs[i].kind);
      }
    }
    return None;
  }

  /** A condition of this kind holds, and none of the finishing kinds before it does. */
  predicate FinishedAs(cs: seq<JobCondition>, kind: JobConditionType) {
    exists i :: 0 <= i < |cs| && cs[i] == JobCondition(kind, true) &&
                forall j :: 0 <= j < i && cs[j].holds ==> cs[j].kind != JobComplete && cs[j].kind != JobFailed
  }

  /** A Job's finishing is decided by its first finishing condition, wherever that stands. */
  lemma {:induction false} FinishedStatusIsFirst(cs: seq<JobCondition>, kind: JobConditionType)
    requires kind == JobComplete || kind == JobFailed
    ensures FinishedStatus(cs) == Some(kind) <==> FinishedAs(cs, kind)
  {
    if cs != [] {
      FinishedStatusIsFirst(cs[1..], kind);
      if FinishedAs(cs, kind) && !(cs[0].holds && cs[0].kind != JobSuspended) {
        var i :| 0 <= i < |cs| && cs[i] == JobCondition(kind, true) &&
                 forall j :: 0 <= j < i && cs[j].holds ==> cs[j].kind != JobComplete && cs[j].kind != JobFailed;
        assert cs[1..][i - 1] == cs[i];
      }
      if FinishedAs(cs[1..], kind) && !(cs[0].holds && cs[0].kind != JobSuspended) {
        var i :| 0 <= i < |cs[1..]| && cs[1..][i] == JobCondition(kind, true) &&
                 forall j :: 0 <= j < i && cs[1..][j].holds ==> cs[1..][j].kind != JobComplete && cs[1..][j].kind != JobFailed;
        assert cs[i + 1] == cs[1..][i];
        assert forall j :: 0 < j < i + 1 ==> cs[j] == cs[1..][j - 1];
      }
    }
  }

  lemma {:induction false} AppendedFinish(cs: seq<JobCondition>, c: JobCondition)
    requires FinishedStatus(cs) == None && IsFinish(c)
    ensures FinishedStatus(cs + [c]) == Some(c.kind)
  {
    if cs != [] {
      AppendedFinish(cs[1..], c);
      assert (cs + [c])[1..] == cs[1..] + [c];
    }
  }

  /** indexJobByOwnerFluentPVCBinding: the owner's name, whatever its namespace. */
  function JobIndex(j: Job): Option<string> {
    match j.meta.owner
    case Some(Owner(BindingKind, name, _)) => Some(name)
    case _ => None
  }

  function JobsOwnedBy(jobs: Table<JobBody>, name: string): set<Key> {
    set k | k in jobs && JobIndex(jobs[k]) == Some(name)
  }

  /** indexFluentPVCBindingByOwnerFluentPVC. */
  function BindingIndex(b: Binding): Option<string> {
    match b.meta.owner
    case Some(Owner(FluentPVCKind, name, _)) => Some(name)
    case _ => None
  }

  /** findContainerStatusByName. */
  function StatusNamed(statuses: seq<ContainerStatus>, name: string): Option<ContainerStatus> {
    if statuses == [] then None
    else if statuses[0].name == name then Some(statuses[0])
    else StatusNamed(statuses[1..], name)
  }

  method FindContainerStatusByName(statuses: seq<ContainerStatus>, name: string) returns (status: Option<ContainerStatus>)
    ensures status == StatusNamed(statuses, name)
    ensures status.Some? ==> status.value in statuses && status.value.name == name
    ensures status.None? ==> forall i :: 0 <= i < |statuses| ==> statuses[i].name != name
  {
    for i := 0 to |statuses|
      invariant StatusNamed(statuses, name) == StatusNamed(statuses[i..], name)
      invariant forall j :: 0 <= j < i ==> statuses[j].name != name
    {
      if statuses[i].name == name {
        return Some(statuses[i]);
      }
    }
    return None;
  }

  /** SetControllerReference succeeds unless another object (by kind and name) is the controller. */
  predicate CanControl(owner: Option<Owner>, kind: OwnerKind, name: string) {
    owner.Some? ==> owner.value.kind == kind && owner.value.name == name
  }

  lemma SingletonChoice<T>(s: set<T>, x: T, y: T)
    requires |s| == 1 && x in s && y in s
    ensures x == y
  {
    assert |s - {x}| == 0;
  }
}

/** The controllers' view of the API server: reads come from a cache, writes go to the server. */
module Client {
  import opened Conditions
  import opened Kube

  /** A controller's copy of a binding, edited in place (api/v1alpha1/helpers.go). */
  class FluentPVCBinding {
    const key: Key
    var meta: Meta
    var fluentPVC: Identity
    var pvc: Identity
    var pod: Identity
    var conditions: seq<Condition>
    var phase: Phase

    constructor (k: Key, b: Binding)
      ensures key == k && Value() == b
    {
      key, meta := k, b.meta;
      fluentPVC, pvc, pod := b.body.fluentPVC, b.body.pvc, b.body.pod;
      conditions, phase := b.body.conditions, Unset;
    }

    function Value(): Binding
      reads this
    {
      Obj(meta, BindingBody(fluentPVC, pvc, pod, conditions))
    }

    predicate IsCondition(t: ConditionType)
      reads this
      ensures IsCondition(t) == Is(Value(), t)
    {
      IsTrue(conditions, t)
    }

    /** setCondition and with it the SetCondition* family: the phase is recomputed every time. */
    method SetCondition(t: ConditionType, holds: bool, reason: Reason, now: int)
      modifies `conditions, `phase
      ensures conditions == SetStatusCondition(old(conditions), t, holds, reason, now)
      ensures IsPhaseFor(conditions, phase)
    {
      conditions := SetStatusCondition(conditions, t, holds, reason, now);
      phase := PhaseOf(conditions);
    }

    method SetPod(id: Identity)
      modifies `pod
      ensures pod == id
    {
      pod := id;
    }

    method SetFluentPVC(id: Identity)
      modifies `fluentPVC
      ensures fluentPVC == id
    {
      fluentPVC := id;
    }

    method SetOwner(owner: Owner)
      modifies `meta
      ensures meta == old(meta).(owner := Some(owner))
    {
      meta := meta.(owner := Some(owner));
    }

    method RemoveFinalizer(f: Finalizer)
      modifies `meta
      ensures meta == old(meta).(finalizers := old(meta).finalizers - {f})
    {
      meta := meta.(finalizers := meta.finalizers - {f});
    }

    /** A successful write refreshes the copy with what the server stored. */
    method Refresh(b: Binding)
      modifies this
      ensures Value() == b
    {
      meta := b.meta;
      fluentPVC, pvc, pod := b.body.fluentPVC, b.body.pvc, b.body.pod;
      conditions := b.body.conditions;
    }
  }

  /** Requests other than binding updates are made on `server` directly. */
  class ApiClient {
    var server: Store
    var cache: Objects

    constructor (s: Store, view: Objects)
      ensures server == s && cache == view
    {
      server, cache := s, view;
    }

    method UpdateBinding(b: FluentPVCBinding) returns (err: Option<ApiError>)
      modifies `server, b
      ensures var r := Kube.UpdateBinding(old(server), b.key, old(b.Value()));
              && server == r.0
              && (r.1.Ok? ==> err == None && b.Value() == r.1.obj)
              && (r.1.Err? ==> err == Some(r.1.error) && b.Value() == old(b.Value()))
    {
      var r := Kube.UpdateBinding(server, b.key, b.Value());
      server := r.0;
      match r.1 {
        case Ok(o) => b.Refresh(o); err := None;
        case Err(e) => err := Some(e);
      }
    }

    method UpdateBindingStatus(b: FluentPVCBinding) returns (err: Option<ApiError>)
      modifies `server, b
      ensures var r := Kube.UpdateBindingStatus(old(server), b.key, old(b.Value()));
              && server == r.0
              && (r.1.Ok? ==> err == None && b.Value() == r.1.obj)
              && (r.1.Err? ==> err == Some(r.1.error) && b.Value() == old(b.Value()))
    {
      var r := Kube.UpdateBindingStatus(server, b.key, b.Value());
      server := r.0;
      match r.1 {
        case Ok(o) => b.Refresh(o); err := None;
        case Err(e) => err := Some(e);
      }
    }
  }
}
