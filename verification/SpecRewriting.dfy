/** The passes that turn a pod, or the finalizer Job's pod template, into one that mounts the PVC
    (webhooks/pod_webhook.go:116-142 and controllers/pvc_controller.go:126-149). */
module SpecRewriting {
  import opened PodSpecs
  import opened Injection

  datatype JobSpec = JobSpec(template: PodSpec, rest: string)

  datatype FluentPVCSpec = FluentPVCSpec(
    pvcSpecTemplate: string,
    jobSpecTemplate: JobSpec,
    pvcVolumeName: string,
    pvcVolumeMountPath: string,
    sidecar: Container,
    commonEnvs: seq<EnvVar>,
    commonVolumes: seq<Volume>,
    commonVolumeMounts: seq<Mount>,
    deletePodOnSidecarTermination: bool)
  {
    function PVCVolume(claimName: string): Volume {
      Named(pvcVolumeName, Claim(claimName))
    }
    function PVCMount(): Mount {
      Named(pvcVolumeName, MountPoint(pvcVolumeMountPath, ""))
    }
  }

  function UpsertAll<T>(xs: seq<Named<T>>, ys: seq<Named<T>>): seq<Named<T>> {
    if ys == [] then xs else Upsert(UpsertAll(xs, ys[..|ys| - 1]), ys[|ys| - 1])
  }

  function InjectAll(xs: seq<EnvVar>, ys: seq<EnvVar>): seq<EnvVar> {
    if ys == [] then xs else Inject(InjectAll(xs, ys[..|ys| - 1]), ys[|ys| - 1], false)
  }

  /** What the mount and environment passes make of one container. */
  function Dressed(c: Container, f: FluentPVCSpec): Container {
    Named(c.name, ContainerBody(
      c.value.image,
      Upsert(UpsertAll(c.value.mounts, f.commonVolumeMounts), f.PVCMount()),
      InjectAll(c.value.envs, f.commonEnvs)))
  }

  function DressedAll(cs: seq<Container>, f: FluentPVCSpec): seq<Container> {
    seq(|cs|, i requires 0 <= i < |cs| => Dressed(cs[i], f))
  }

  function Volumes(vs: seq<Volume>, f: FluentPVCSpec, claimName: string): seq<Volume> {
    Upsert(UpsertAll(vs, f.commonVolumes), f.PVCVolume(claimName))
  }

  function PatchedPod(spec: PodSpec, f: FluentPVCSpec, claimName: string): PodSpec {
    PodSpec(DressedAll(Upsert(spec.containers, f.sidecar), f), Volumes(spec.volumes, f, claimName))
  }

  function FinalizerJobSpec(f: FluentPVCSpec, claimName: string): JobSpec {
    var t := f.jobSpecTemplate.template;
    f.jobSpecTemplate.(template := PodSpec(DressedAll(t.containers, f), Volumes(t.volumes, f, claimName)))
  }

  // ---------------------------------------------------------------- the loops over the common entries

  method InjectVolumes(o: PodSpecObject, f: FluentPVCSpec, claimName: string)
    modifies o`volumes
    ensures o.volumes == Volumes(old(o.volumes), f, claimName)
  {
    var ys := f.commonVolumes;
    for i := 0 to |ys|
      invariant o.volumes == UpsertAll(old(o.volumes), ys[..i])
    {
      assert ys[..i + 1][..i] == ys[..i];
      o.InjectOrReplaceVolume(ys[i]);
    }
    assert ys[..|ys|] == ys;
    o.InjectOrReplaceVolume(f.PVCVolume(claimName));
  }

  function WithMounts(c: Container, ys: seq<Mount>): Container {
    c.(value := c.value.(mounts := UpsertAll(c.value.mounts, ys)))
  }

  function WithEnvs(c: Container, ys: seq<EnvVar>): Container {
    c.(value := c.value.(envs := InjectAll(c.value.envs, ys)))
  }

  method DressContainers(o: PodSpecObject, f: FluentPVCSpec)
    modifies o`containers
    ensures o.containers == DressedAll(old(o.containers), f)
  {
    var cs := o.containers;
    var ms, es := f.commonVolumeMounts, f.commonEnvs;
    for i := 0 to |ms|
      invariant |o.containers| == |cs|
      invariant forall j :: 0 <= j < |cs| ==> o.containers[j] == WithMounts(cs[j], ms[..i])
    {
      assert ms[..i + 1][..i] == ms[..i];
      o.InjectOrReplaceVolumeMount(ms[i]);
    }
    assert ms[..|ms|] == ms;
    o.InjectOrReplaceVolumeMount(f.PVCMount());
    var mounted := o.containers;
    for i := 0 to |es|
      invariant |o.containers| == |cs|
      invariant forall j :: 0 <= j < |cs| ==> o.containers[j] == WithEnvs(mounted[j], es[..i])
    {
      assert es[..i + 1][..i] == es[..i];
      o.InjectOrReplaceEnv(es[i]);
    }
    assert es[..|es|] == es;
  }

  /** The pod webhook's passes, in its order: volumes, the PVC volume, the sidecar, mounts, environment. */
  method PatchPod(spec: PodSpec, f: FluentPVCSpec, claimName: string) returns (patched: PodSpec)
    ensures patched == PatchedPod(spec, f, claimName)
  {
    var o := new PodSpecObject(spec);
    InjectVolumes(o, f, claimName);
    o.InjectOrReplaceContainer(f.sidecar);
    DressContainers(o, f);
    patched := o.Value();
  }

  /** The PVC controller's passes over the Job template; there is no sidecar. */
  method BuildFinalizerJobSpec(f: FluentPVCSpec, claimName: string) returns (spec: JobSpec)
    ensures spec == FinalizerJobSpec(f, claimName)
  {
    var o := new PodSpecObject(f.jobSpecTemplate.template);
    InjectVolumes(o, f, claimName);
    DressContainers(o, f);
    spec := f.jobSpecTemplate.(template := o.Value());
  }

  // ---------------------------------------------------------------- what the passes achieve

  /** After a pass for each of ys, the last of ys of each name is the only entry of that name, and
      names not in ys are as before. */
  lemma {:induction false} UpsertAllLaw<T>(xs: seq<Named<T>>, ys: seq<Named<T>>, n: string)
    ensures Has(ys, n) ==> Only(UpsertAll(xs, ys), Effective(ys, n))
    ensures !Has(ys, n) ==> Keeps(xs, UpsertAll(xs, ys), n)
  {
    if ys != [] {
      var before, y := ys[..|ys| - 1], ys[|ys| - 1];
      UpsertAllLaw(xs, before, n);
      UpsertLaw(UpsertAll(xs, before), y);
      HasStep(ys, |ys| - 1, n);
      assert ys[..|ys|] == ys;
      if y.name != n && Has(before, n) {
        OnlyKept(UpsertAll(xs, before), UpsertAll(xs, ys), Effective(before, n));
      }
    }
  }

  lemma OnlyKept<T>(xs: seq<Named<T>>, ys: seq<Named<T>>, x: Named<T>)
    requires Only(xs, x) && Keeps(xs, ys, x.name)
    ensures Only(ys, x)
  {
    var i :| 0 <= i < |xs| && xs[i].name == x.name;
    assert ys[i].name == x.name;
  }

  /** Common entries followed by the PVC's own: the PVC entry is the only one of its name even when
      a common entry uses it; the last common entry wins every other name; the rest is untouched. */
  lemma PassesLaw<T>(xs: seq<Named<T>>, common: seq<Named<T>>, own: Named<T>, n: string)
    ensures var r := Upsert(UpsertAll(xs, common), own);
            && Only(r, own)
            && (n != own.name && Has(common, n) ==> Only(r, Effective(common, n)))
            && (n != own.name && !Has(common, n) ==> Keeps(xs, r, n))
  {
    var mid := UpsertAll(xs, common);
    UpsertAllLaw(xs, common, n);
    UpsertLaw(mid, own);
    if n != own.name && Has(common, n) {
      OnlyKept(mid, Upsert(mid, own), Effective(common, n));
    }
  }

  /** Every container of r mounts the PVC; other mount names follow the common mounts or stay. */
  ghost predicate MountsPVC(before: Container, after: Container, f: FluentPVCSpec) {
    && after.name == before.name && after.value.image == before.value.image
    && Only(after.value.mounts, Named(f.pvcVolumeName, MountPoint(f.pvcVolumeMountPath, "")))
    && forall n :: n != f.pvcVolumeName ==>
         if Has(f.commonVolumeMounts, n) then Only(after.value.mounts, Effective(f.commonVolumeMounts, n))
         else Keeps(before.value.mounts, after.value.mounts, n)
  }

  ghost predicate HasPVCVolume(before: seq<Volume>, after: seq<Volume>, f: FluentPVCSpec, claimName: string) {
    && Only(after, Named(f.pvcVolumeName, Claim(claimName)))
    && forall n :: n != f.pvcVolumeName ==>
         if Has(f.commonVolumes, n) then Only(after, Effective(f.commonVolumes, n)) else Keeps(before, after, n)
  }

  lemma DressedMountsPVC(c: Container, f: FluentPVCSpec)
    ensures MountsPVC(c, Dressed(c, f), f)
  {
    PassesLaw(c.value.mounts, f.commonVolumeMounts, f.PVCMount(), f.pvcVolumeName);
    forall n | n != f.pvcVolumeName
      ensures if Has(f.commonVolumeMounts, n) then Only(Dressed(c, f).value.mounts, Effective(f.commonVolumeMounts, n))
              else Keeps(c.value.mounts, Dressed(c, f).value.mounts, n)
    {
      PassesLaw(c.value.mounts, f.commonVolumeMounts, f.PVCMount(), n);
    }
  }

  lemma VolumesLaw(vs: seq<Volume>, f: FluentPVCSpec, claimName: string)
    ensures HasPVCVolume(vs, Volumes(vs, f, claimName), f, claimName)
  {
    var r, own := Volumes(vs, f, claimName), f.PVCVolume(claimName);
    PassesLaw(vs, f.commonVolumes, own, f.pvcVolumeName);
    forall n | n != f.pvcVolumeName
      ensures if Has(f.commonVolumes, n) then Only(r, Effective(f.commonVolumes, n)) else Keeps(vs, r, n)
    {
      PassesLaw(vs, f.commonVolumes, own, n);
    }
  }

  /** Environment: with pairwise distinct names in a container and in the common list, and no
      overlap, the passes append exactly the common variables. */
  lemma {:induction false} FreshEnvsAreAppended(xs: seq<EnvVar>, ys: seq<EnvVar>)
    requires Distinct(ys) && forall j :: 0 <= j < |ys| ==> !Has(xs, ys[j].name)
    ensures InjectAll(xs, ys) == xs + ys
  {
    if ys != [] {
      var before, y := ys[..|ys| - 1], ys[|ys| - 1];
      FreshEnvsAreAppended(xs, before);
      forall i | 0 <= i < |xs + before| ensures (xs + before)[i].name != y.name {
        if i >= |xs| { assert (xs + before)[i] == ys[i - |xs|]; }
      }
      SweepOfAbsent(xs + before, y);
      assert xs + ys == xs + before + [y];
    }
  }

  /** A variable a container already sets keeps its effective value through all the passes. */
  lemma {:induction false} SetEnvsKeepTheirValue(xs: seq<EnvVar>, ys: seq<EnvVar>, n: string)
    requires Has(xs, n)
    ensures Has(InjectAll(xs, ys), n) && Effective(InjectAll(xs, ys), n) == Effective(xs, n)
  {
    if ys != [] {
      SetEnvsKeepTheirValue(xs, ys[..|ys| - 1], n);
      MissingContinueKeepsEffective(InjectAll(xs, ys[..|ys| - 1]), ys[|ys| - 1], n);
    }
  }

  /** The first entry of a name. */
  function First<T>(xs: seq<Named<T>>, n: string): (x: Named<T>)
    requires Has(xs, n)
    ensures exists i :: 0 <= i < |xs| && xs[i] == x && x.name == n && forall j :: 0 <= j < i ==> xs[j].name != n
  {
    HasStep(xs, |xs| - 1, n);
    assert xs[..|xs|] == xs;
    if Has(xs[..|xs| - 1], n) then First(xs[..|xs| - 1], n) else xs[|xs| - 1]
  }

  /** The entries of ys whose names xs lacks, in order. */
  function Missing<T>(xs: seq<Named<T>>, ys: seq<Named<T>>): seq<Named<T>> {
    if ys == [] then []
    else
      var before, y := Missing(xs, ys[..|ys| - 1]), ys[|ys| - 1];
      if Has(xs, y.name) then before else before + [y]
  }

  /** What the environment passes make of a container's variables: it has the names it set and the common
      ones and no others; what it set keeps its effective value; of the common entries of a name it lacked
      the first takes effect; distinct common variables it lacked stand at the end, in order. */
  ghost predicate SetsCommonEnvs(before: seq<EnvVar>, after: seq<EnvVar>, common: seq<EnvVar>) {
    && (forall n :: Has(after, n) <==> Has(before, n) || Has(common, n))
    && (forall n :: Has(before, n) ==> Effective(after, n) == Effective(before, n))
    && (forall n :: !Has(before, n) && Has(common, n) ==> Effective(after, n) == First(common, n))
    && (Distinct(common) ==> EndsWithMissing(before, after, common))
  }

  predicate EndsWithMissing(before: seq<EnvVar>, after: seq<EnvVar>, common: seq<EnvVar>) {
    var added := Missing(before, common);
    && |added| <= |after| && after[|after| - |added|..] == added
    && NamesWithin(after[..|after| - |added|], before)
  }

  lemma {:induction false} SweepHas(xs: seq<EnvVar>, x: EnvVar, n: string)
    ensures Has(Sweep(xs, x, false), n) <==> Has(xs, n)
  {
    if xs != [] {
      var l, before := xs[|xs| - 1], Sweep(xs[..|xs| - 1], x, false);
      SweepHas(xs[..|xs| - 1], x, n);
      assert xs == xs[..|xs| - 1] + [l];
      HasConcat(xs[..|xs| - 1], [l], n);
      HasConcat(before, [l], n);
      HasConcat(before, [x, l], n);
      assert Has([l], n) <==> l.name == n by { assert [l][0].name == l.name; }
      assert Has([x, l], n) <==> x.name == n || l.name == n by { assert [x, l][0] == x && [x, l][1] == l; }
    }
  }

  lemma HasConcat<T>(xs: seq<Named<T>>, ys: seq<Named<T>>, n: string)
    ensures Has(xs + ys, n) <==> Has(xs, n) || Has(ys, n)
  {
    if Has(xs, n) {
      var i :| 0 <= i < |xs| && xs[i].name == n;
      assert (xs + ys)[i].name == n;
    }
    if Has(ys, n) {
      var i :| 0 <= i < |ys| && ys[i].name == n;
      assert (xs + ys)[|xs| + i].name == n;
    }
  }

  lemma InjectHas(xs: seq<EnvVar>, x: EnvVar, n: string)
    ensures Has(Inject(xs, x, false), n) <==> Has(xs, n) || x.name == n
  {
    SweepHas(xs, x, n);
    HasConcat(Sweep(xs, x, false), [x], n);
    assert Has([x], n) <==> x.name == n by { assert [x][0].name == x.name; }
  }

  lemma {:induction false} InjectAllHas(xs: seq<EnvVar>, ys: seq<EnvVar>, n: string)
    ensures Has(InjectAll(xs, ys), n) <==> Has(xs, n) || Has(ys, n)
  {
    if ys != [] {
      var before, y := ys[..|ys| - 1], ys[|ys| - 1];
      InjectAllHas(xs, before, n);
      InjectHas(InjectAll(xs, before), y, n);
      HasStep(ys, |ys| - 1, n);
      assert ys[..|ys|] == ys;
    }
  }

  lemma {:induction false} FirstCommonWins(xs: seq<EnvVar>, ys: seq<EnvVar>, n: string)
    requires !Has(xs, n) && Has(ys, n)
    ensures Has(InjectAll(xs, ys), n) && Effective(InjectAll(xs, ys), n) == First(ys, n)
  {
    var before, y := ys[..|ys| - 1], ys[|ys| - 1];
    var mid := InjectAll(xs, before);
    HasStep(ys, |ys| - 1, n);
    assert ys[..|ys|] == ys;
    InjectAllHas(xs, before, n);
    if Has(before, n) {
      FirstCommonWins(xs, before, n);
      MissingContinueKeepsEffective(mid, y, n);
    } else {
      SweepOfAbsent(mid, y);
      var r := mid + [y];
      assert r[|r| - 1] == y;
      EffectiveIsLast(r, |r| - 1);
    }
  }

  lemma {:induction false} SweepConcat(xs: seq<EnvVar>, ys: seq<EnvVar>, x: EnvVar)
    ensures Sweep(xs + ys, x, false) == Sweep(xs, x, false) + Sweep(ys, x, false)
  {
    if ys == [] {
      assert xs + ys == xs;
    } else {
      SweepConcat(xs, ys[..|ys| - 1], x);
      assert (xs + ys)[..|xs + ys| - 1] == xs + ys[..|ys| - 1];
    }
  }

  lemma {:induction false} MissingHas(xs: seq<EnvVar>, ys: seq<EnvVar>, n: string)
    ensures Has(Missing(xs, ys), n) <==> Has(ys, n) && !Has(xs, n)
  {
    if ys != [] {
      var before, y := ys[..|ys| - 1], ys[|ys| - 1];
      MissingHas(xs, before, n);
      HasStep(ys, |ys| - 1, n);
      assert ys[..|ys|] == ys;
      HasConcat(Missing(xs, before), [y], n);
      assert Has([y], n) <==> y.name == n by { assert [y][0].name == y.name; }
    }
  }

  /** The common variables the container lacked stand at the end, behind entries of its own names. */
  lemma {:induction false} MissingAreAppended(xs: seq<EnvVar>, ys: seq<EnvVar>) returns (kept: seq<EnvVar>)
    requires Distinct(ys)
    ensures InjectAll(xs, ys) == kept + Missing(xs, ys)
    ensures NamesWithin(kept, xs)
  {
    if ys == [] {
      kept := xs;
    } else {
      var before, y := ys[..|ys| - 1], ys[|ys| - 1];
      var added := Missing(xs, before);
      kept := MissingAreAppended(xs, before);
      assert !Has(before, y.name);
      MissingHas(xs, before, y.name);
      InjectAllHas(xs, before, y.name);
      if Has(xs, y.name) {
        SweepConcat(kept, added, y);
        SweepOfAbsent(added, y);
        SweptNames(xs, kept, y);
        kept := Sweep(kept, y, false);
      } else {
        SweepOfAbsent(kept + added, y);
        assert (kept + added) + [y] == kept + (added + [y]);
      }
    }
  }

  predicate NamesWithin(s: seq<EnvVar>, xs: seq<EnvVar>) {
    forall i :: 0 <= i < |s| ==> Has(xs, s[i].name)
  }

  lemma SweptNames(xs: seq<EnvVar>, s: seq<EnvVar>, y: EnvVar)
    requires NamesWithin(s, xs)
    ensures NamesWithin(Sweep(s, y, false), xs)
  {
    var r := Sweep(s, y, false);
    forall i | 0 <= i < |r| ensures Has(xs, r[i].name) {
      SweepHas(s, y, r[i].name);
      var j :| 0 <= j < |s| && s[j].name == r[i].name;
    }
  }

  lemma DressedSetsEnvs(c: Container, f: FluentPVCSpec)
    ensures SetsCommonEnvs(c.value.envs, Dressed(c, f).value.envs, f.commonEnvs)
  {
    var xs, ys, r := c.value.envs, f.commonEnvs, Dressed(c, f).value.envs;
    forall n ensures Has(r, n) <==> Has(xs, n) || Has(ys, n) { InjectAllHas(xs, ys, n); }
    forall n | Has(xs, n) ensures Effective(r, n) == Effective(xs, n) { SetEnvsKeepTheirValue(xs, ys, n); }
    forall n | !Has(xs, n) && Has(ys, n) ensures Effective(r, n) == First(ys, n) { FirstCommonWins(xs, ys, n); }
    if Distinct(ys) {
      var kept := MissingAreAppended(xs, ys);
      assert r[..|kept|] == kept;
    }
  }

  /** What becomes of one container: mounts and environment. */
  ghost predicate Rewritten(before: Container, after: Container, f: FluentPVCSpec) {
    MountsPVC(before, after, f) && SetsCommonEnvs(before.value.envs, after.value.envs, f.commonEnvs)
  }

  lemma DressedIsRewritten(c: Container, f: FluentPVCSpec)
    ensures Rewritten(c, Dressed(c, f), f)
  {
    DressedMountsPVC(c, f);
    DressedSetsEnvs(c, f);
  }

  /** The patched pod: every container mounts the PVC and has the common variables; containers not named
      like the sidecar keep their places, and whatever bears the sidecar's name is the sidecar, which
      stands at the end if it was not there. */
  lemma PatchedPodLaw(spec: PodSpec, f: FluentPVCSpec, claimName: string)
    ensures var r, n := PatchedPod(spec, f, claimName), |spec.containers|;
            && HasPVCVolume(spec.volumes, r.volumes, f, claimName)
            && |r.containers| == (if Has(spec.containers, f.sidecar.name) then n else n + 1)
            && (forall i :: 0 <= i < n && spec.containers[i].name != f.sidecar.name ==> Rewritten(spec.containers[i], r.containers[i], f))
            && (forall i :: 0 <= i < n && spec.containers[i].name == f.sidecar.name ==> Rewritten(f.sidecar, r.containers[i], f))
            && (!Has(spec.containers, f.sidecar.name) ==> Rewritten(f.sidecar, r.containers[n], f))
  {
    var r, cs := PatchedPod(spec, f, claimName), Upsert(spec.containers, f.sidecar);
    VolumesLaw(spec.volumes, f, claimName);
    UpsertLaw(spec.containers, f.sidecar);
    forall i | 0 <= i < |cs| ensures Rewritten(cs[i], r.containers[i], f) {
      DressedIsRewritten(cs[i], f);
    }
  }

  /** The finalizer Job: every container of the template mounts the claim and has the common variables;
      containers keep name, image, order and count, and the rest of the template is as it was. */
  lemma FinalizerJobSpecLaw(f: FluentPVCSpec, claimName: string)
    ensures var t, r := f.jobSpecTemplate.template, FinalizerJobSpec(f, claimName).template;
            && HasPVCVolume(t.volumes, r.volumes, f, claimName)
            && |r.containers| == |t.containers|
            && forall i :: 0 <= i < |t.containers| ==> Rewritten(t.containers[i], r.containers[i], f)
    ensures FinalizerJobSpec(f, claimName).rest == f.jobSpecTemplate.rest
  {
    var t, r := f.jobSpecTemplate.template, FinalizerJobSpec(f, claimName).template;
    VolumesLaw(t.volumes, f, claimName);
    forall i | 0 <= i < |t.containers| ensures Rewritten(t.containers[i], r.containers[i], f) {
      DressedIsRewritten(t.containers[i], f);
    }
  }
}
