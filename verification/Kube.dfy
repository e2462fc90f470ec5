/** The Kubernetes objects the operator works on and the API server that stores them. */
module Kube {
  import opened Conditions
  import opened PodSpecs
  import opened SpecRewriting

  datatype Option<+T> = None | Some(value: T)

  // ---------------------------------------------------------------- objects

  /** Cluster-scoped objects (FluentPVC) live in the empty namespace. */
  datatype Key = Key(ns: string, name: string)

  /** UIDs are numbered in order of creation; 0 is the empty UID of an object not yet created. */
  type Uid = nat
  const NO_UID: Uid := 0

  datatype Identity = Identity(name: string, uid: Uid)

  datatype Finalizer = FluentPVCProtection | BindingProtection | PVCProtection | Foreign(id: string)

  datatype OwnerKind = FluentPVCKind | BindingKind | OtherKind

  /** The controller owner reference. */
  datatype Owner = Owner(kind: OwnerKind, name: string, uid: Uid)

  datatype Meta = Meta(uid: Uid, rv: nat, created: int, deleting: bool, finalizers: set<Finalizer>, owner: Option<Owner>)

  datatype Obj<+T> = Obj(meta: Meta, body: T)

  type Table<T> = map<Key, Obj<T>>

  datatype BindingBody = BindingBody(fluentPVC: Identity, pvc: Identity, pod: Identity, conditions: seq<Condition>)

  datatype ClaimPhase = ClaimPending | ClaimBound | ClaimLost
  datatype PVCBody = PVCBody(phase: ClaimPhase)

  datatype PodPhase = PodPending | PodRunning | PodSucceeded | PodFailed | PodUnknown
  datatype ContainerStatus = ContainerStatus(name: string, restartCount: nat, terminated: bool)
  datatype PodBody = PodBody(labels: map<string, string>, spec: PodSpec, phase: PodPhase, statuses: seq<ContainerStatus>)

  datatype JobConditionType = JobComplete | JobFailed | JobSuspended
  datatype JobCondition = JobCondition(kind: JobConditionType, holds: bool)
  /** The selector, which the server sets when it creates the Job, is part of the Job's specification. */
  datatype JobBody = JobBody(spec: JobSpec, selector: Uid, conditions: seq<JobCondition>)

  type FluentPVC = Obj<FluentPVCSpec>
  type Binding = Obj<BindingBody>
  type PVC = Obj<PVCBody>
  type Pod = Obj<PodBody>
  type Job = Obj<JobBody>

  const POD_LABEL_FLUENT_PVC_NAME := "fluent-pvc-operator.tech.zozo.com/fluent-pvc-name"
  const POD_LABEL_BINDING_NAME := "fluent-pvc-operator.tech.zozo.com/fluent-pvc-binding-name"

  predicate Is(b: Binding, t: ConditionType) {
    IsTrue(b.body.conditions, t)
  }

  predicate Terminal(phase: PodPhase) {
    phase.PodSucceeded? || phase.PodFailed?
  }

  // ---------------------------------------------------------------- the server

  datatype Objects = Objects(
    fluentPVCs: Table<FluentPVCSpec>,
    bindings: Table<BindingBody>,
    pvcs: Table<PVCBody>,
    pods: Table<PodBody>,
    jobs: Table<JobBody>,
    now: int)

  datatype Store = Store(objs: Objects, nextUid: Uid, nextRv: nat)

  datatype ApiError = NotFound | Conflict | AlreadyExists | Forbidden | Invalid

  datatype Written<T> = Rejected(error: ApiError) | Accepted(table: Table<T>, obj: Obj<T>)

  /** What the server answers the writer: an error, or the object as stored. */
  datatype Answer<+T> = Err(error: ApiError) | Ok(obj: Obj<T>)

  /** Optimistic concurrency: a write names the UID and resourceVersion it is based on. */
  function Precondition<T>(t: Table<T>, k: Key, based: Meta): Option<ApiError> {
    if k !in t then Some(NotFound)
    else if t[k].meta.uid != based.uid || t[k].meta.rv != based.rv then Some(Conflict)
    else None
  }

  /** Stores next at k under a fresh version. A write that changes nothing keeps the version; an
      object that is being deleted disappears with its last finalizer. */
  function Commit<T(==)>(t: Table<T>, k: Key, next: Obj<T>, rv: nat): Written<T>
    requires k in t
  {
    var stamped := next.(meta := next.meta.(rv := rv));
    if next == t[k] then Accepted(t, next)
    else if next.meta.deleting && next.meta.finalizers == {} then Accepted(t - {k}, stamped)
    else Accepted(t[k := stamped], stamped)
  }

  /** An update takes finalizers and owner from the writer's copy o, and the given body. */
  function Update<T(==)>(t: Table<T>, k: Key, o: Obj<T>, body: T, rv: nat): Written<T> {
    match Precondition(t, k, o.meta)
    case Some(e) => Rejected(e)
    case None =>
      var stored := t[k].meta;
      if stored.deleting && !(o.meta.finalizers <= stored.finalizers) then Rejected(Forbidden)
      else Commit(t, k, Obj(stored.(finalizers := o.meta.finalizers, owner := o.meta.owner), body), rv)
  }

  /** A status update leaves the metadata alone. */
  function UpdateStatus<T(==)>(t: Table<T>, k: Key, o: Obj<T>, body: T, rv: nat): Written<T> {
    match Precondition(t, k, o.meta)
    case Some(e) => Rejected(e)
    case None => Commit(t, k, Obj(t[k].meta, body), rv)
  }

  /** Deletion marks the object; it is gone at once when nothing holds it. Pods are always marked
      first and vanish when their containers have stopped. */
  function Mark<T>(t: Table<T>, k: Key, graceful: bool, rv: nat): Written<T>
    requires k in t
  {
    var o := t[k];
    var marked := o.(meta := o.meta.(deleting := true, rv := rv));
    if o.meta.finalizers == {} && !graceful then Accepted(t - {k}, o)
    else if o.meta.deleting then Accepted(t, o)
    else Accepted(t[k := marked], marked)
  }

  function Delete<T>(t: Table<T>, k: Key, based: Meta, graceful: bool, rv: nat): Written<T> {
    match Precondition(t, k, based)
    case Some(e) => Rejected(e)
    case None => Mark(t, k, graceful, rv)
  }

  function Create<T>(t: Table<T>, k: Key, m: Meta, body: T, uid: Uid, rv: nat, now: int): Written<T> {
    if k in t then Rejected(AlreadyExists)
    else
      var o := Obj(Meta(uid, rv, now, false, m.finalizers, m.owner), body);
      Accepted(t[k := o], o)
  }

  function AnswerOf<T>(c: Written<T>): Answer<T> {
    match c
    case Rejected(e) => Err(e)
    case Accepted(_, o) => Ok(o)
  }

  /** The table after a request; a rejected one leaves it as it was. */
  function TableOf<T>(t: Table<T>, c: Written<T>): Table<T> {
    match c
    case Rejected(_) => t
    case Accepted(t', _) => t'
  }

  // ---------------------------------------------------------------- requests on the store

  function WithBindings(s: Store, t: Table<BindingBody>): Store {
    s.(objs := s.objs.(bindings := t), nextRv := if t == s.objs.bindings then s.nextRv else s.nextRv + 1)
  }

  function WithPVCs(s: Store, t: Table<PVCBody>): Store {
    s.(objs := s.objs.(pvcs := t), nextRv := if t == s.objs.pvcs then s.nextRv else s.nextRv + 1)
  }

  function WithPods(s: Store, t: Table<PodBody>): Store {
    s.(objs := s.objs.(pods := t), nextRv := if t == s.objs.pods then s.nextRv else s.nextRv + 1)
  }

  function WithJobs(s: Store, t: Table<JobBody>): Store {
    s.(objs := s.objs.(jobs := t), nextRv := if t == s.objs.jobs then s.nextRv else s.nextRv + 1)
  }

  function WithFluentPVCs(s: Store, t: Table<FluentPVCSpec>): Store {
    s.(objs := s.objs.(fluentPVCs := t), nextRv := if t == s.objs.fluentPVCs then s.nextRv else s.nextRv + 1)
  }

  /** Update of a binding keeps the stored status. */
  function UpdateBinding(s: Store, k: Key, o: Binding): (Store, Answer<BindingBody>) {
    var t := s.objs.bindings;
    var c := Update(t, k, o, if k in t then o.body.(conditions := t[k].body.conditions) else o.body, s.nextRv);
    (WithBindings(s, TableOf(t, c)), AnswerOf(c))
  }

  function UpdateBindingStatus(s: Store, k: Key, o: Binding): (Store, Answer<BindingBody>) {
    var t := s.objs.bindings;
    var c := UpdateStatus(t, k, o, if k in t then t[k].body.(conditions := o.body.conditions) else o.body, s.nextRv);
    (WithBindings(s, TableOf(t, c)), AnswerOf(c))
  }

  function DeleteBinding(s: Store, k: Key, based: Meta): (Store, Answer<BindingBody>) {
    var c := Delete(s.objs.bindings, k, based, false, s.nextRv);
    (WithBindings(s, TableOf(s.objs.bindings, c)), AnswerOf(c))
  }

  /** Update of a PVC keeps the stored status. */
  function UpdatePVC(s: Store, k: Key, o: PVC): (Store, Answer<PVCBody>) {
    var t := s.objs.pvcs;
    var c := Update(t, k, o, if k in t then t[k].body else o.body, s.nextRv);
    (WithPVCs(s, TableOf(t, c)), AnswerOf(c))
  }

  function DeletePVC(s: Store, k: Key, based: Meta): (Store, Answer<PVCBody>) {
    var c := Delete(s.objs.pvcs, k, based, false, s.nextRv);
    (WithPVCs(s, TableOf(s.objs.pvcs, c)), AnswerOf(c))
  }

  function UpdateFluentPVC(s: Store, k: Key, o: FluentPVC): (Store, Answer<FluentPVCSpec>) {
    var c := Update(s.objs.fluentPVCs, k, o, o.body, s.nextRv);
    (WithFluentPVCs(s, TableOf(s.objs.fluentPVCs, c)), AnswerOf(c))
  }

  /** Update of a Job keeps the stored status; its specification cannot be changed. */
  function UpdateJob(s: Store, k: Key, o: Job): (Store, Answer<JobBody>) {
    var t := s.objs.jobs;
    match Precondition(t, k, o.meta)
    case Some(e) => (s, Err(e))
    case None =>
      if o.body.spec != t[k].body.spec || o.body.selector != t[k].body.selector then (s, Err(Invalid))
      else
        var c := Update(t, k, o, t[k].body, s.nextRv);
        (WithJobs(s, TableOf(t, c)), AnswerOf(c))
  }

  function DeletePod(s: Store, k: Key, based: Meta): (Store, Answer<PodBody>) {
    var c := Delete(s.objs.pods, k, based, true, s.nextRv);
    (WithPods(s, TableOf(s.objs.pods, c)), AnswerOf(c))
  }

  function Issued(s: Store): Store {
    s.(nextUid := s.nextUid + 1)
  }

  function CreatePVC(s: Store, k: Key, m: Meta, body: PVCBody): (Store, Answer<PVCBody>) {
    var c := Create(s.objs.pvcs, k, m, body, s.nextUid, s.nextRv, s.objs.now);
    (Issued(WithPVCs(s, TableOf(s.objs.pvcs, c))), AnswerOf(c))
  }

  function CreateBinding(s: Store, k: Key, m: Meta, body: BindingBody): (Store, Answer<BindingBody>) {
    var c := Create(s.objs.bindings, k, m, body, s.nextUid, s.nextRv, s.objs.now);
    (Issued(WithBindings(s, TableOf(s.objs.bindings, c))), AnswerOf(c))
  }

  function CreateJob(s: Store, k: Key, m: Meta, body: JobBody): (Store, Answer<JobBody>) {
    var c := Create(s.objs.jobs, k, m, body.(selector := s.nextUid), s.nextUid, s.nextRv, s.objs.now);
    (Issued(WithJobs(s, TableOf(s.objs.jobs, c))), AnswerOf(c))
  }

  /** Metadata of an object not yet sent to the server. */
  function NewMeta(finalizers: set<Finalizer>, owner: Option<Owner>): Meta {
    Meta(NO_UID, 0, 0, false, finalizers, owner)
  }
}
