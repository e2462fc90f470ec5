/** The protocol as a transition system: every write the operator makes is one action whose reads
    may come from any earlier state, table by table; the rest of the world acts in between. */
module Protocol {
  import opened Conditions
  import opened SpecRewriting
  import opened Kube
  import opened Utils
  import BC = BindingController
  import PC = PVCController
  import FC = FluentPVCController
  import DC = PodController
  import WH = PodWebhook

  // ---------------------------------------------------------------- states

  /** The PVC a webhook call created under its generated name. */
  datatype Minted = Minted(ns: string, uid: Uid)

  /** History: what webhook calls created under which name, the bindings (by UID) that own or owned a
      Job that completed, and the PVCs (by UID) that lost pvc-protection to the operator or to others. */
  datatype Log = Log(minted: map<string, Minted>, bound: map<string, Uid>,
                     completed: set<Uid>, released: set<Uid>, stripped: set<Uid>)

  datatype State = State(store: Store, log: Log)
  {
    function Bindings(): Table<BindingBody> { store.objs.bindings }
    function PVCs(): Table<PVCBody> { store.objs.pvcs }
    function Pods(): Table<PodBody> { store.objs.pods }
    function Jobs(): Table<JobBody> { store.objs.jobs }
    function FluentPVCs(): Table<FluentPVCSpec> { store.objs.fluentPVCs }
  }

  const Init := State(Store(Objects(map[], map[], map[], map[], map[], 0), 1, 1), Log(map[], map[], {}, {}, {}))

  // ---------------------------------------------------------------- actions

  /** The states the tables (and the clock) of a view were read in; got is for the second look at the Jobs. */
  datatype Sources = Sources(fluentPVCs: State, bindings: State, pvcs: State, pods: State, jobs: State, got: State, clock: State)

  function View(f: Sources): Objects {
    Objects(f.fluentPVCs.FluentPVCs(), f.bindings.Bindings(), f.pvcs.PVCs(), f.pods.Pods(), f.jobs.Jobs(), f.clock.store.objs.now)
  }

  function Now(s: State): Sources {
    Sources(s, s, s, s, s, s, s)
  }

  datatype Action =
    // the operator
    | WebhookPVC(ns: string, name: string)
    | WebhookBinding(name: string, fk: Key, podName: string, from: Sources)
    | BindingWrite(k: Key, from: Sources)
    | JobWrite(k: Key, from: Sources)
    | ReleaseWrite(k: Key, from: Sources)
    | FluentPVCWrite(k: Key, from: Sources)
    | PodWrite(k: Key, from: Sources)
    // users, the kubelet, the job controller, the garbage collector
    | CreateFluentPVC(k: Key, spec: FluentPVCSpec)
    | EditFluentPVC(k: Key, spec: FluentPVCSpec)
    | DeleteFluentPVC(k: Key)
    | DeleteBinding(k: Key)
    | UserPVC(k: Key, foreign: set<Finalizer>)
    | SetClaimPhase(k: Key, phase: ClaimPhase)
    | SetForeignFinalizers(k: Key, foreign: set<Finalizer>)
    | DeletePVC(k: Key)
    | StripPVC(k: Key)
    | CreatePod(k: Key, pod: PodBody)
    | EditPod(k: Key, pod: PodBody)
    | DeletePod(k: Key)
    | ReapPod(k: Key)
    | UserJob(k: Key, job: JobBody)
    | SetJobStatus(k: Key, conditions: seq<JobCondition>)
    | DeleteJob(k: Key)
    | Tick(seconds: nat)

  /** What the cluster promises: generated names are new; terminal pods and finished Jobs stay so;
      only the operator creates Jobs owned by bindings, and adds its finalizers. */
  ghost predicate Enabled(s: State, a: Action) {
    match a
    case WebhookPVC(_, name) => name !in s.log.minted
    case WebhookBinding(name, fk, _, from) => name in s.log.minted && name !in s.log.bound && fk in View(from).fluentPVCs
    case UserPVC(_, foreign) => PVCProtection !in foreign
    case SetForeignFinalizers(k, foreign) => k in s.PVCs() && PVCProtection !in foreign
    case CreatePod(k, pod) => k.name != "" && !Terminal(pod.phase)
    case EditPod(k, pod) => k in s.Pods() && (Terminal(s.Pods()[k].body.phase) ==> pod.phase == s.Pods()[k].body.phase)
    case ReapPod(k) => k in s.Pods() && s.Pods()[k].meta.deleting
    case SetJobStatus(k, cs) =>
      k in s.Jobs() &&
      (FinishedStatus(s.Jobs()[k].body.conditions).Some? ==> FinishedStatus(cs) == FinishedStatus(s.Jobs()[k].body.conditions))
    case EditFluentPVC(k, _) => k in s.FluentPVCs()
    case DeleteFluentPVC(k) => k in s.FluentPVCs()
    case DeleteBinding(k) => k in s.Bindings()
    case SetClaimPhase(k, _) => k in s.PVCs()
    case DeletePVC(k) => k in s.PVCs()
    case StripPVC(k) => k in s.PVCs()
    case DeletePod(k) => k in s.Pods()
    case DeleteJob(k) => k in s.Jobs()
    case _ => true
  }

  ghost function BindingPlanWrite(s: Store, v: Objects, k: Key): Store {
    match BC.PlanOf(v, k)
    case Stop(_) => s
    case Adopt(b) => UpdateBinding(s, k, b).0
    case Fill(b, _) => UpdateBinding(s, k, b).0
    case Save(b, _) => UpdateBindingStatus(s, k, b).0
    case Drop =>
      if k !in v.bindings then s
      else if BindingProtection in v.bindings[k].meta.finalizers then UpdateBinding(s, k, BC.Unprotected(v.bindings[k])).0
      else Kube.DeleteBinding(s, k, v.bindings[k].meta).0
  }

  function JobPlanWrite(s: Store, v: Objects, got: Table<JobBody>, k: Key): Store {
    if PC.MayApply(v, k) && !PC.JobRequestOf(v, got, k, v.bindings[k]).NoRequest?
    then PC.SendJob(s, k, PC.JobRequestOf(v, got, k, v.bindings[k])).0
    else s
  }

  function ReleasePlanWrite(s: Store, v: Objects, k: Key): Store {
    if PC.MayRelease(v, k) then UpdatePVC(s, k, PC.Unprotected(v.pvcs[k])).0 else s
  }

  predicate Protected(t: Table<PVCBody>, k: Key, uid: Uid) {
    k in t && t[k].meta.uid == uid && PVCProtection in t[k].meta.finalizers
  }

  /** The PVC whose pvc-protection the change of tables took away, if any. */
  function Lost(t: Table<PVCBody>, t': Table<PVCBody>, k: Key): set<Uid> {
    if k in t && PVCProtection in t[k].meta.finalizers && !Protected(t', k, t[k].meta.uid) then {t[k].meta.uid} else {}
  }

  /** A change to the body of a stored object by someone else. */
  function Edited<T(==)>(t: Table<T>, k: Key, body: T, rv: nat): Table<T>
    requires k in t
  {
    TableOf(t, Commit(t, k, t[k].(body := body), rv))
  }

  function EditedFinalizers(t: Table<PVCBody>, k: Key, fs: set<Finalizer>, rv: nat): Table<PVCBody>
    requires k in t
  {
    TableOf(t, Commit(t, k, t[k].(meta := t[k].meta.(finalizers := fs)), rv))
  }

  function EditedPod(t: Table<PodBody>, k: Key, pod: PodBody, rv: nat): Table<PodBody>
    requires k in t
  {
    if t[k].body == pod then t else t[k := Obj(t[k].meta.(rv := rv), pod)]
  }

  /** The binding (by UID) whose Job at k stands complete, if any. */
  function Completions(t: Table<JobBody>, k: Key): set<Uid> {
    if k in t && IsJobSucceeded(t[k]) && JobIndex(t[k]).Some? then {t[k].meta.owner.value.uid} else {}
  }

  ghost function Next(s: State, a: Action): State
    requires Enabled(s, a)
  {
    var st, rv := s.store, s.store.nextRv;
    match a
    case WebhookPVC(ns, name) =>
      var (st', r) := CreatePVC(st, Key(ns, name), WH.ProtectedPVC(), PVCBody(ClaimPending));
      State(st', if r.Ok? then s.log.(minted := s.log.minted[name := Minted(ns, r.obj.meta.uid)]) else s.log)
    case WebhookBinding(name, fk, podName, from) =>
      var fpvc, m := View(from).fluentPVCs[fk], s.log.minted[name];
      var (st', r) := CreateBinding(st, Key(m.ns, name), WH.ProtectedBinding(fk, fpvc), WH.InitialBinding(fk, fpvc, name, m.uid, podName));
      State(st', if r.Ok? then s.log.(bound := s.log.bound[name := r.obj.meta.uid]) else s.log)
    case BindingWrite(k, from) => s.(store := BindingPlanWrite(st, View(from), k))
    case JobWrite(k, from) => s.(store := JobPlanWrite(st, View(from), from.got.Jobs(), k))
    case ReleaseWrite(k, from) =>
      var st' := ReleasePlanWrite(st, View(from), k);
      State(st', s.log.(released := s.log.released + Lost(st.objs.pvcs, st'.objs.pvcs, k)))
    case FluentPVCWrite(k, from) => s.(store := FC.Reconciled(st, View(from), k).0)
    case PodWrite(k, from) => s.(store := DC.Reconciled(st, View(from), k).0)
    case CreateFluentPVC(k, spec) =>
      s.(store := Issued(WithFluentPVCs(st, TableOf(s.FluentPVCs(), Create(s.FluentPVCs(), k, NewMeta({}, None), spec, st.nextUid, rv, st.objs.now)))))
    case EditFluentPVC(k, spec) => s.(store := WithFluentPVCs(st, Edited(s.FluentPVCs(), k, spec, rv)))
    case DeleteFluentPVC(k) => s.(store := WithFluentPVCs(st, TableOf(s.FluentPVCs(), Mark(s.FluentPVCs(), k, false, rv))))
    case DeleteBinding(k) => s.(store := WithBindings(st, TableOf(s.Bindings(), Mark(s.Bindings(), k, false, rv))))
    case UserPVC(k, foreign) => s.(store := CreatePVC(st, k, NewMeta(foreign, None), PVCBody(ClaimPending)).0)
    case SetClaimPhase(k, phase) => s.(store := WithPVCs(st, Edited(s.PVCs(), k, PVCBody(phase), rv)))
    case SetForeignFinalizers(k, foreign) =>
      s.(store := WithPVCs(st, EditedFinalizers(s.PVCs(), k, s.PVCs()[k].meta.finalizers * {PVCProtection} + foreign, rv)))
    case DeletePVC(k) => s.(store := WithPVCs(st, TableOf(s.PVCs(), Mark(s.PVCs(), k, false, rv))))
    case StripPVC(k) =>
      var t' := EditedFinalizers(s.PVCs(), k, s.PVCs()[k].meta.finalizers - {PVCProtection}, rv);
      State(WithPVCs(st, t'), s.log.(stripped := s.log.stripped + Lost(s.PVCs(), t', k)))
    case CreatePod(k, pod) =>
      s.(store := Issued(WithPods(st, TableOf(s.Pods(), Create(s.Pods(), k, NewMeta({}, None), pod, st.nextUid, rv, st.objs.now)))))
    case EditPod(k, pod) => s.(store := WithPods(st, EditedPod(s.Pods(), k, pod, rv)))
    case DeletePod(k) => s.(store := WithPods(st, TableOf(s.Pods(), Mark(s.Pods(), k, true, rv))))
    case ReapPod(k) => s.(store := WithPods(st, s.Pods() - {k}))
    case UserJob(k, job) => s.(store := CreateJob(st, k, NewMeta({}, None), job).0)
    case SetJobStatus(k, cs) =>
      var t' := Edited(s.Jobs(), k, s.Jobs()[k].body.(conditions := cs), rv);
      State(WithJobs(st, t'), s.log.(completed := s.log.completed + Completions(t', k)))
    case DeleteJob(k) => s.(store := WithJobs(st, TableOf(s.Jobs(), Mark(s.Jobs(), k, false, rv))))
    case Tick(d) => s.(store := st.(objs := st.objs.(now := st.objs.now + d)))
  }

  // ---------------------------------------------------------------- growth of tables

  ghost predicate Within<T>(t: Table<T>, uid: Uid, rv: nat) {
    forall k :: k in t ==> 0 < t[k].meta.uid < uid && t[k].meta.rv < rv
  }

  /** Every entry of t' is an entry of t or was written after versions reached rv; a UID below uid
      stays with its key. */
  ghost predicate Grown<T(!new)>(t: Table<T>, t': Table<T>, uid: Uid, rv: nat) {
    forall k :: k in t' ==>
      || (k in t && t'[k] == t[k])
      || (t'[k].meta.rv >= rv && (t'[k].meta.uid >= uid || (k in t && t'[k].meta.uid == t[k].meta.uid)))
  }

  lemma GrownTrans<T(!new)>(t: Table<T>, t': Table<T>, t'': Table<T>, uid: Uid, rv: nat, uid': Uid, rv': nat)
    requires Grown(t, t', uid, rv) && Grown(t', t'', uid', rv') && uid <= uid' && rv <= rv'
    ensures Grown(t, t'', uid, rv)
  {
  }

  /** Optimistic concurrency works: a stale copy whose version is still the stored one is the stored one. */
  lemma SameVersion<T(!new)>(t: Table<T>, t': Table<T>, uid: Uid, rv: nat, k: Key)
    requires Within(t, uid, rv) && Grown(t, t', uid, rv)
    requires k in t && k in t' && t'[k].meta.rv == t[k].meta.rv
    ensures t'[k] == t[k]
  {
  }

  /** A change confined to k: nothing, a removal, or a version stamped r of the same object or of a
      new one; (u, r) are the counters before and (u', r') those after. */
  ghost predicate OneEntry<T>(t: Table<T>, t': Table<T>, k: Key, u: Uid, r: nat, u': Uid, r': nat) {
    || t' == t
    || t' == t - {k}
    || (r < r' && k in t' && t' == t[k := t'[k]] && t'[k].meta.rv == r &&
        ((k in t && t'[k].meta.uid == t[k].meta.uid) || (u < u' && t'[k].meta.uid == u)))
  }

  lemma OneEntryGrows<T(!new)>(t: Table<T>, t': Table<T>, k: Key, u: Uid, r: nat, u': Uid, r': nat)
    requires OneEntry(t, t', k, u, r, u', r') && Within(t, u, r) && 0 < u <= u' && r <= r'
    ensures Grown(t, t', u, r) && Within(t', u', r')
  {
  }

  ghost predicate Counted(s: State) {
    var u, r := s.store.nextUid, s.store.nextRv;
    && u > 0
    && Within(s.FluentPVCs(), u, r) && Within(s.Bindings(), u, r) && Within(s.PVCs(), u, r)
    && Within(s.Pods(), u, r) && Within(s.Jobs(), u, r)
  }

  /** s' is later than s, as far as tables and counters go. */
  ghost predicate TablesGrow(s: State, s': State) {
    var u, r := s.store.nextUid, s.store.nextRv;
    && u <= s'.store.nextUid && r <= s'.store.nextRv
    && Grown(s.FluentPVCs(), s'.FluentPVCs(), u, r) && Grown(s.Bindings(), s'.Bindings(), u, r)
    && Grown(s.PVCs(), s'.PVCs(), u, r) && Grown(s.Pods(), s'.Pods(), u, r) && Grown(s.Jobs(), s'.Jobs(), u, r)
  }

  /** What one action does to the five tables: at most one entry, of one key, changes in each. */
  ghost predicate OneWrite(s: State, s': State, k: Key) {
    var u, r, u', r' := s.store.nextUid, s.store.nextRv, s'.store.nextUid, s'.store.nextRv;
    && u <= u' && r <= r'
    && OneEntry(s.FluentPVCs(), s'.FluentPVCs(), k, u, r, u', r') && OneEntry(s.Bindings(), s'.Bindings(), k, u, r, u', r')
    && OneEntry(s.PVCs(), s'.PVCs(), k, u, r, u', r') && OneEntry(s.Pods(), s'.Pods(), k, u, r, u', r')
    && OneEntry(s.Jobs(), s'.Jobs(), k, u, r, u', r')
  }

  lemma OneWriteGrows(s: State, s': State, k: Key)
    requires Counted(s) && OneWrite(s, s', k)
    ensures Counted(s') && TablesGrow(s, s')
  {
    var u, r, u', r' := s.store.nextUid, s.store.nextRv, s'.store.nextUid, s'.store.nextRv;
    OneEntryGrows(s.FluentPVCs(), s'.FluentPVCs(), k, u, r, u', r');
    OneEntryGrows(s.Bindings(), s'.Bindings(), k, u, r, u', r');
    OneEntryGrows(s.PVCs(), s'.PVCs(), k, u, r, u', r');
    OneEntryGrows(s.Pods(), s'.Pods(), k, u, r, u', r');
    OneEntryGrows(s.Jobs(), s'.Jobs(), k, u, r, u', r');
  }

  lemma TablesGrowTrans(s: State, s': State, s'': State)
    requires TablesGrow(s, s') && TablesGrow(s', s'')
    ensures TablesGrow(s, s'')
  {
    var u, r, u', r' := s.store.nextUid, s.store.nextRv, s'.store.nextUid, s'.store.nextRv;
    GrownTrans(s.FluentPVCs(), s'.FluentPVCs(), s''.FluentPVCs(), u, r, u', r');
    GrownTrans(s.Bindings(), s'.Bindings(), s''.Bindings(), u, r, u', r');
    GrownTrans(s.PVCs(), s'.PVCs(), s''.PVCs(), u, r, u', r');
    GrownTrans(s.Pods(), s'.Pods(), s''.Pods(), u, r, u', r');
    GrownTrans(s.Jobs(), s'.Jobs(), s''.Jobs(), u, r, u', r');
  }

  function KeyOf(s: State, a: Action): Key {
    match a
    case WebhookPVC(ns, name) => Key(ns, name)
    case WebhookBinding(name, _, _, _) => if name in s.log.minted then Key(s.log.minted[name].ns, name) else Key("", name)
    case Tick(_) => Key("", "")
    case _ => a.k
  }

  predicate ByOperator(a: Action) {
    a.WebhookPVC? || a.WebhookBinding? || a.BindingWrite? || a.JobWrite? || a.ReleaseWrite? || a.FluentPVCWrite? || a.PodWrite?
  }

  lemma StepIsOneWrite(s: State, a: Action)
    requires Enabled(s, a)
    ensures OneWrite(s, Next(s, a), KeyOf(s, a))
  {
    if a.BindingWrite? {
      BindingWritesOnce(s, a.k, a.from);
    } else if a.JobWrite? || a.FluentPVCWrite? || a.PodWrite? || a.ReleaseWrite? {
      OperatorWritesOnce(s, a);
    } else if a.WebhookPVC? || a.WebhookBinding? || a.CreateFluentPVC? || a.UserPVC? || a.CreatePod? || a.UserJob? {
      CreationsWriteOnce(s, a);
    } else if a.SetClaimPhase? || a.SetForeignFinalizers? || a.DeletePVC? || a.StripPVC? {
      PVCEventsWriteOnce(s, a);
    } else if a.EditPod? || a.DeletePod? || a.ReapPod? || a.SetJobStatus? || a.DeleteJob? {
      PodAndJobEventsWriteOnce(s, a);
    } else {
    }
  }

  lemma PodAndJobEventsWriteOnce(s: State, a: Action)
    requires Enabled(s, a) && (a.EditPod? || a.DeletePod? || a.ReapPod? || a.SetJobStatus? || a.DeleteJob?)
    ensures OneWrite(s, Next(s, a), KeyOf(s, a))
  {
  }

  lemma PVCEventsWriteOnce(s: State, a: Action)
    requires Enabled(s, a) && (a.SetClaimPhase? || a.SetForeignFinalizers? || a.DeletePVC? || a.StripPVC?)
    ensures OneWrite(s, Next(s, a), KeyOf(s, a))
  {
  }

  lemma CreationsWriteOnce(s: State, a: Action)
    requires Enabled(s, a)
    requires a.WebhookPVC? || a.WebhookBinding? || a.CreateFluentPVC? || a.UserPVC? || a.CreatePod? || a.UserJob?
    ensures OneWrite(s, Next(s, a), KeyOf(s, a))
  {
    match a
    case WebhookPVC(_, _) =>
    case WebhookBinding(_, _, _, _) =>
    case CreateFluentPVC(_, _) =>
    case UserPVC(_, _) =>
    case CreatePod(_, _) =>
    case UserJob(_, _) =>
  }

  lemma OperatorWritesOnce(s: State, a: Action)
    requires Enabled(s, a) && (a.JobWrite? || a.FluentPVCWrite? || a.PodWrite? || a.ReleaseWrite?)
    ensures OneWrite(s, Next(s, a), KeyOf(s, a))
  {
    hide PC.SendJob, PC.JobRequestOf, UpdatePVC, UpdateFluentPVC, DC.Doomed, DC.Idle;
    match a {
      case JobWrite(k, from) =>
        var v := View(from);
        if PC.MayApply(v, k) && !PC.JobRequestOf(v, from.got.Jobs(), k, v.bindings[k]).NoRequest? {
          SendsJobOnce(s, k, PC.JobRequestOf(v, from.got.Jobs(), k, v.bindings[k]));
        }
      case ReleaseWrite(k, from) =>
        var v := View(from);
        if PC.MayRelease(v, k) {
          UpdatesPVCOnce(s, k, PC.Unprotected(v.pvcs[k]), Next(s, a).log);
        }
      case FluentPVCWrite(k, from) =>
        var v := View(from);
        if k in v.fluentPVCs {
          UpdatesFluentPVCOnce(s, k, FC.Guarded(v.fluentPVCs[k], FC.Held(v.bindings, k.name)));
        }
      case PodWrite(k, from) =>
    }
  }

  lemma SendsJobOnce(s: State, k: Key, r: PC.JobRequest)
    requires !r.NoRequest?
    ensures OneWrite(s, s.(store := PC.SendJob(s.store, k, r).0), k)
  {
  }

  lemma UpdatesPVCOnce(s: State, k: Key, pvc: PVC, log: Log)
    ensures OneWrite(s, State(UpdatePVC(s.store, k, pvc).0, log), k)
  {
  }

  lemma UpdatesFluentPVCOnce(s: State, k: Key, f: FluentPVC)
    ensures OneWrite(s, s.(store := UpdateFluentPVC(s.store, k, f).0), k)
  {
  }

  lemma BindingWritesOnce(s: State, k: Key, from: Sources)
    ensures OneWrite(s, Next(s, BindingWrite(k, from)), k)
  {
    hide BC.PlanOf, UpdateBinding, UpdateBindingStatus, Kube.DeleteBinding;
    var v := View(from);
    match BC.PlanOf(v, k)
    case Stop(_) =>
    case Adopt(b) => UpdatesBindingOnce(s, k, b);
    case Fill(b, _) => UpdatesBindingOnce(s, k, b);
    case Save(b, _) => UpdatesStatusOnce(s, k, b);
    case Drop =>
      if k in v.bindings {
        UpdatesBindingOnce(s, k, BC.Unprotected(v.bindings[k]));
        DeletesBindingOnce(s, k, v.bindings[k].meta);
      }
  }

  lemma UpdatesBindingOnce(s: State, k: Key, b: Binding)
    ensures OneWrite(s, s.(store := UpdateBinding(s.store, k, b).0), k)
  {
  }

  lemma UpdatesStatusOnce(s: State, k: Key, b: Binding)
    ensures OneWrite(s, s.(store := UpdateBindingStatus(s.store, k, b).0), k)
  {
  }

  lemma DeletesBindingOnce(s: State, k: Key, based: Meta)
    ensures OneWrite(s, s.(store := Kube.DeleteBinding(s.store, k, based).0), k)
  {
  }
}
