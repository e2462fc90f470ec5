/** Named entries of a pod specification: containers, volumes, mounts and environment variables are
    all looked up by name; everything else about them is opaque payload. */
module PodSpecs {

  datatype Named<+T> = Named(name: string, value: T)

  datatype VolumeSource = Claim(claimName: string) | OtherSource(source: string)
  datatype MountPoint = MountPoint(path: string, options: string)
  datatype ContainerBody = ContainerBody(image: string, mounts: seq<Mount>, envs: seq<EnvVar>)

  type Volume = Named<VolumeSource>
  type Mount = Named<MountPoint>
  type EnvVar = Named<string>
  type Container = Named<ContainerBody>

  datatype PodSpec = PodSpec(containers: seq<Container>, volumes: seq<Volume>)

  predicate Has<T>(xs: seq<Named<T>>, n: string) {
    exists i :: 0 <= i < |xs| && xs[i].name == n
  }

  function Count<T>(xs: seq<Named<T>>, n: string): nat {
    if xs == [] then 0
    else Count(xs[..|xs| - 1], n) + if xs[|xs| - 1].name == n then 1 else 0
  }

  predicate Distinct<T>(xs: seq<Named<T>>) {
    forall i, j :: 0 <= i < j < |xs| ==> xs[i].name != xs[j].name
  }

  /** Every entry named like x is x, and there is one. */
  ghost predicate Only<T>(xs: seq<Named<T>>, x: Named<T>) {
    Has(xs, x.name) && forall i :: 0 <= i < |xs| && xs[i].name == x.name ==> xs[i] == x
  }

  /** ys is xs with possibly more entries behind it: the entries named n are where and what they
      were, and no entry changed its name. */
  ghost predicate Keeps<T>(xs: seq<Named<T>>, ys: seq<Named<T>>, n: string) {
    && |xs| <= |ys|
    && (forall i :: 0 <= i < |xs| ==> ys[i].name == xs[i].name && (xs[i].name == n ==> ys[i] == xs[i]))
    && (forall i :: |xs| <= i < |ys| ==> ys[i].name != n)
  }

  /** The entry a reader that lets the last one of a name win sees (Kubernetes resolves repeated
      environment variables this way). */
  function Effective<T>(xs: seq<Named<T>>, n: string): (x: Named<T>)
    requires Has(xs, n)
    ensures x in xs && x.name == n
  {
    var l := xs[|xs| - 1];
    if l.name == n then l else Effective(xs[..|xs| - 1], n)
  }

  /** The list as a map from names to what a reader sees. */
  ghost function AsMap<T>(xs: seq<Named<T>>): map<string, T> {
    map n | n in (set x | x in xs :: x.name) && Has(xs, n) :: Effective(xs, n).value
  }
}

/** utils/pod/injection.go: three of the four functions are a keyed update, the fourth is not. */
module Injection {
  import opened PodSpecs

  /** The keyed update: every entry of x's name becomes x, or x is appended when there is none. */
  function Upsert<T>(xs: seq<Named<T>>, x: Named<T>): seq<Named<T>> {
    var r := seq(|xs|, i requires 0 <= i < |xs| => if xs[i].name == x.name then x else xs[i]);
    if Has(xs, x.name) then r else r + [x]
  }

  /** What one pass over a list leaves when the branch that found the name does, or does not,
      `continue` before the old entry is appended. */
  function Sweep<T>(xs: seq<Named<T>>, x: Named<T>, continues: bool): seq<Named<T>> {
    if xs == [] then []
    else
      var l, before := xs[|xs| - 1], Sweep(xs[..|xs| - 1], x, continues);
      if l.name != x.name then before + [l]
      else if continues then before + [x]
      else before + [x, l]
  }

  function Inject<T>(xs: seq<Named<T>>, x: Named<T>, continues: bool): seq<Named<T>> {
    if Has(xs, x.name) then Sweep(xs, x, continues) else Sweep(xs, x, continues) + [x]
  }

  // ---------------------------------------------------------------- laws of the keyed update

  /** Entries of the name all become x, every other entry keeps its value and its place. */
  lemma UpsertLaw<T>(xs: seq<Named<T>>, x: Named<T>)
    ensures Only(Upsert(xs, x), x)
    ensures forall n :: n != x.name ==> Keeps(xs, Upsert(xs, x), n)
    ensures |Upsert(xs, x)| == if Has(xs, x.name) then |xs| else |xs| + 1
  {
    var r := Upsert(xs, x);
    if Has(xs, x.name) {
      var i :| 0 <= i < |xs| && xs[i].name == x.name;
      assert r[i].name == x.name;
    } else {
      assert r[|xs|] == x;
    }
  }

  lemma UpsertDistinct<T>(xs: seq<Named<T>>, x: Named<T>)
    requires Distinct(xs)
    ensures Distinct(Upsert(xs, x))
  {
    var r := Upsert(xs, x);
    forall i, j | 0 <= i < j < |r| ensures r[i].name != r[j].name {
      if j < |xs| { assert xs[i].name != xs[j].name; } else { assert xs[i].name != x.name; }
    }
  }

  lemma UpsertIdempotent<T>(xs: seq<Named<T>>, x: Named<T>)
    ensures Upsert(Upsert(xs, x), x) == Upsert(xs, x)
  {
    UpsertLaw(xs, x);
  }

  /** Updates of different names agree, up to the order of the two appended entries when neither
      name was there. */
  lemma UpsertsCommute<T>(xs: seq<Named<T>>, x: Named<T>, y: Named<T>)
    requires x.name != y.name
    ensures if Has(xs, x.name) || Has(xs, y.name)
            then Upsert(Upsert(xs, x), y) == Upsert(Upsert(xs, y), x)
            else Upsert(Upsert(xs, x), y) == xs + [x, y] && Upsert(Upsert(xs, y), x) == xs + [y, x]
  {
    HasAfterUpsert(xs, x, y.name);
    HasAfterUpsert(xs, y, x.name);
  }

  lemma HasAfterUpsert<T>(xs: seq<Named<T>>, x: Named<T>, n: string)
    ensures Has(Upsert(xs, x), n) <==> n == x.name || Has(xs, n)
  {
    UpsertLaw(xs, x);
    var r := Upsert(xs, x);
    if Has(xs, n) {
      var i :| 0 <= i < |xs| && xs[i].name == n;
      assert r[i].name == n;
    }
    if Has(r, n) && n != x.name {
      var i :| 0 <= i < |r| && r[i].name == n;
      assert i < |xs|;
    }
  }

  lemma {:induction false} EffectiveIsLast<T>(xs: seq<Named<T>>, i: nat)
    requires i < |xs| && forall j :: i < j < |xs| ==> xs[j].name != xs[i].name
    ensures Has(xs, xs[i].name) && Effective(xs, xs[i].name) == xs[i]
  {
    if i < |xs| - 1 {
      assert xs[..|xs| - 1][i] == xs[i];
      EffectiveIsLast(xs[..|xs| - 1], i);
    }
  }

  lemma {:induction false} EffectiveHasIndex<T>(xs: seq<Named<T>>, n: string) returns (i: nat)
    requires Has(xs, n)
    ensures i < |xs| && xs[i] == Effective(xs, n) && forall j :: i < j < |xs| ==> xs[j].name != n
  {
    if xs[|xs| - 1].name == n {
      i := |xs| - 1;
    } else {
      i := EffectiveHasIndex(xs[..|xs| - 1], n);
    }
  }

  lemma EffectiveOfOnly<T>(xs: seq<Named<T>>, x: Named<T>)
    requires Only(xs, x)
    ensures Effective(xs, x.name) == x
  {
    var i := EffectiveHasIndex(xs, x.name);
  }

  lemma EffectiveKept<T>(xs: seq<Named<T>>, ys: seq<Named<T>>, n: string)
    requires Keeps(xs, ys, n)
    ensures Has(ys, n) <==> Has(xs, n)
    ensures Has(xs, n) ==> Effective(ys, n) == Effective(xs, n)
  {
    if Has(xs, n) {
      var i := EffectiveHasIndex(xs, n);
      assert ys[i].name == n;
      EffectiveIsLast(ys, i);
    }
  }

  /** Seen as maps, the update is the map update. */
  lemma UpsertIsMapUpdate<T>(xs: seq<Named<T>>, x: Named<T>)
    ensures AsMap(Upsert(xs, x)) == AsMap(xs)[x.name := x.value]
  {
    var r := Upsert(xs, x);
    UpsertLaw(xs, x);
    EffectiveOfOnly(r, x);
    forall n | n != x.name
      ensures Has(r, n) <==> Has(xs, n)
      ensures Has(xs, n) ==> Effective(r, n) == Effective(xs, n)
    {
      EffectiveKept(xs, r, n);
    }
    KeysOfAsMap(r);
    KeysOfAsMap(xs);
  }

  lemma KeysOfAsMap<T>(xs: seq<Named<T>>)
    ensures forall n :: n in AsMap(xs) <==> Has(xs, n)
  {
    forall n | Has(xs, n) ensures n in AsMap(xs) {
      var i :| 0 <= i < |xs| && xs[i].name == n;
      assert xs[i] in xs;
    }
  }

  // ---------------------------------------------------------------- with and without the continue

  /** With the `continue` the pass is the keyed update. */
  lemma {:induction false} ContinueGivesUpsert<T>(xs: seq<Named<T>>, x: Named<T>)
    ensures Inject(xs, x, true) == Upsert(xs, x)
  {
    SweepReplaces(xs, x);
  }

  lemma {:induction false} SweepReplaces<T>(xs: seq<Named<T>>, x: Named<T>)
    ensures |Sweep(xs, x, true)| == |xs|
    ensures forall i :: 0 <= i < |xs| ==> Sweep(xs, x, true)[i] == if xs[i].name == x.name then x else xs[i]
  {
    if xs != [] {
      SweepReplaces(xs[..|xs| - 1], x);
    }
  }

  /** Without it, each old entry of the name stays, directly behind a new one: entry i ends up at
      index i plus the number of entries of the name up to and including it. */
  lemma {:induction false} MissingContinueKeepsOld<T>(xs: seq<Named<T>>, x: Named<T>, i: nat)
    requires i < |xs|
    ensures var at, r := i + Count(xs[..i + 1], x.name), Sweep(xs, x, false);
            && |r| == |xs| + Count(xs, x.name)
            && at < |r| && r[at] == xs[i]
            && (xs[i].name == x.name ==> 0 < at && r[at - 1] == x)
  {
    var before := xs[..|xs| - 1];
    SweepLength(before, x);
    if i < |before| {
      MissingContinueKeepsOld(before, x, i);
      assert before[..i + 1] == xs[..i + 1];
    } else {
      assert xs[..i + 1] == xs;
    }
  }

  lemma {:induction false} SweepLength<T>(xs: seq<Named<T>>, x: Named<T>)
    ensures |Sweep(xs, x, false)| == |xs| + Count(xs, x.name)
  {
    if xs != [] {
      SweepLength(xs[..|xs| - 1], x);
    }
  }

  lemma {:induction false} CountConcat<T>(xs: seq<Named<T>>, ys: seq<Named<T>>, n: string)
    ensures Count(xs + ys, n) == Count(xs, n) + Count(ys, n)
  {
    if ys == [] {
      assert xs + ys == xs;
    } else {
      assert (xs + ys)[..|xs + ys| - 1] == xs + ys[..|ys| - 1];
      CountConcat(xs, ys[..|ys| - 1], n);
    }
  }

  lemma {:induction false} CountIsZero<T>(xs: seq<Named<T>>, n: string)
    ensures Count(xs, n) == 0 <==> !Has(xs, n)
  {
    if xs != [] {
      var before := xs[..|xs| - 1];
      CountIsZero(before, n);
      if Has(before, n) {
        var i :| 0 <= i < |before| && before[i].name == n;
        assert xs[i].name == n;
      }
    }
  }

  lemma {:induction false} SweepDoubles<T>(xs: seq<Named<T>>, x: Named<T>)
    ensures Count(Sweep(xs, x, false), x.name) == 2 * Count(xs, x.name)
  {
    if xs != [] {
      var l, before := xs[|xs| - 1], Sweep(xs[..|xs| - 1], x, false);
      SweepDoubles(xs[..|xs| - 1], x);
      CountConcat(before, [l], x.name);
      CountConcat(before, [x, l], x.name);
      assert [x, l][..1] == [x];
    }
  }

  /** The exact count after one call without the `continue`. */
  lemma MissingContinueCount<T>(xs: seq<Named<T>>, x: Named<T>)
    ensures Count(Inject(xs, x, false), x.name) ==
            if Count(xs, x.name) == 0 then 1 else 2 * Count(xs, x.name)
  {
    CountIsZero(xs, x.name);
    SweepDoubles(xs, x);
    CountConcat(Sweep(xs, x, false), [x], x.name);
  }

  function Repeat<T>(xs: seq<Named<T>>, x: Named<T>, k: nat): seq<Named<T>> {
    if k == 0 then xs else Inject(Repeat(xs, x, k - 1), x, false)
  }

  /** n doubled k times, that is n * 2^k. */
  function Doubled(n: nat, k: nat): nat {
    if k == 0 then n else 2 * Doubled(n, k - 1)
  }

  /** k calls double the number of entries k times; from none, the first call appends one. */
  lemma {:induction false} RepeatedCallsDouble<T>(xs: seq<Named<T>>, x: Named<T>, k: nat)
    ensures Count(Repeat(xs, x, k), x.name) ==
            if Count(xs, x.name) > 0 then Doubled(Count(xs, x.name), k)
            else if k == 0 then 0 else Doubled(1, k - 1)
  {
    hide Inject, Count;
    if k > 0 {
      RepeatedCallsDouble(xs, x, k - 1);
      MissingContinueCount(Repeat(xs, x, k - 1), x);
      DoubledPositive(Count(xs, x.name), k - 1);
      if k > 1 { DoubledPositive(1, k - 2); }
    }
  }

  lemma {:induction false} DoubledPositive(n: nat, k: nat)
    ensures Doubled(n, k) == 0 <==> n == 0
  {
    if k > 0 { DoubledPositive(n, k - 1); }
  }

  /** The call without the `continue` is the intended update exactly when the name is new. */
  lemma MissingContinueHarmlessIff<T>(xs: seq<Named<T>>, x: Named<T>)
    ensures Inject(xs, x, false) == Upsert(xs, x) <==> !Has(xs, x.name)
  {
    CountIsZero(xs, x.name);
    SweepLength(xs, x);
    UpsertLaw(xs, x);
    if !Has(xs, x.name) {
      SweepOfAbsent(xs, x);
      assert Upsert(xs, x) == xs + [x];
    }
  }

  lemma {:induction false} SweepOfAbsent<T>(xs: seq<Named<T>>, x: Named<T>)
    requires !Has(xs, x.name)
    ensures Sweep(xs, x, false) == xs
  {
    if xs != [] {
      assert forall i :: 0 <= i < |xs| - 1 ==> xs[..|xs| - 1][i] == xs[i];
      SweepOfAbsent(xs[..|xs| - 1], x);
    }
  }

  /** What the omission costs: a variable that is already set keeps its old effective value. */
  lemma MissingContinueKeepsEffective<T>(xs: seq<Named<T>>, x: Named<T>, n: string)
    requires Has(xs, n)
    ensures Has(Inject(xs, x, false), n)
    ensures Effective(Inject(xs, x, false), n) == Effective(xs, n)
  {
    var i := EffectiveHasIndex(xs, n);
    var r := Sweep(xs, x, false);
    SweepKeepsEffective(xs, x, n);
    if !Has(xs, x.name) {
      var m := EffectiveHasIndex(r, n);
      assert (r + [x])[m] == r[m];
      assert x.name != n;
      EffectiveIsLast(r + [x], m);
    }
  }

  lemma {:induction false} SweepKeepsEffective<T>(xs: seq<Named<T>>, x: Named<T>, n: string)
    requires Has(xs, n)
    ensures Has(Sweep(xs, x, false), n)
    ensures Effective(Sweep(xs, x, false), n) == Effective(xs, n)
  {
    var l, r := xs[|xs| - 1], Sweep(xs, x, false);
    assert r[|r| - 1] == l;
    if l.name == n {
      EffectiveIsLast(r, |r| - 1);
    } else {
      var before := Sweep(xs[..|xs| - 1], x, false);
      assert Has(xs[..|xs| - 1], n) by {
        var j :| 0 <= j < |xs| && xs[j].name == n;
        assert xs[..|xs| - 1][j].name == n;
      }
      SweepKeepsEffective(xs[..|xs| - 1], x, n);
      var m := EffectiveHasIndex(before, n);
      assert r[..|before|] == before;
      forall j | m < j < |r| ensures r[j].name != n {
        if j < |before| { assert r[..|before|][j] == before[j]; }
      }
      assert r[m] == r[..|before|][m];
      EffectiveIsLast(r, m);
    }
  }

  // ---------------------------------------------------------------- the loops

  function WithMount(c: Container, m: Mount): Container {
    c.(value := c.value.(mounts := Upsert(c.value.mounts, m)))
  }

  function WithEnv(c: Container, e: EnvVar): Container {
    c.(value := c.value.(envs := Inject(c.value.envs, e, false)))
  }

  function MountInAll(cs: seq<Container>, m: Mount): seq<Container> {
    seq(|cs|, i requires 0 <= i < |cs| => WithMount(cs[i], m))
  }

  function EnvInAll(cs: seq<Container>, e: EnvVar): seq<Container> {
    seq(|cs|, i requires 0 <= i < |cs| => WithEnv(cs[i], e))
  }

  /** A pod specification that the injection functions rewrite in place. */
  class PodSpecObject {
    var containers: seq<Container>
    var volumes: seq<Volume>

    constructor (spec: PodSpec)
      ensures Value() == spec
    {
      containers, volumes := spec.containers, spec.volumes;
    }

    function Value(): PodSpec
      reads this
    {
      PodSpec(containers, volumes)
    }

    method InjectOrReplaceContainer(container: Container)
      modifies `containers
      ensures containers == Upsert(old(containers), container)
    {
      var given := containers;
      var cs: seq<Container> := [];
      var containerFound := false;
      for i := 0 to |given|
        invariant |cs| == i
        invariant containerFound <==> Has(given[..i], container.name)
        invariant forall j :: 0 <= j < i ==> cs[j] == if given[j].name == container.name then container else given[j]
      {
        HasStep(given, i, container.name);
        if given[i].name == container.name {
          containerFound := true;
          cs := cs + [container];
          continue;
        }
        cs := cs + [given[i]];
      }
      assert given[..|given|] == given;
      if !containerFound {
        cs := cs + [container];
      }
      assert cs == Upsert(given, container);
      containers := cs;
    }

    method InjectOrReplaceVolume(volume: Volume)
      modifies `volumes
      ensures volumes == Upsert(old(volumes), volume)
    {
      var given := volumes;
      var vs: seq<Volume> := [];
      var volumeFound := false;
      for i := 0 to |given|
        invariant |vs| == i
        invariant volumeFound <==> Has(given[..i], volume.name)
        invariant forall j :: 0 <= j < i ==> vs[j] == if given[j].name == volume.name then volume else given[j]
      {
        HasStep(given, i, volume.name);
        if given[i].name == volume.name {
          volumeFound := true;
          vs := vs + [volume];
          continue;
        }
        vs := vs + [given[i]];
      }
      assert given[..|given|] == given;
      if !volumeFound {
        vs := vs + [volume];
      }
      assert vs == Upsert(given, volume);
      volumes := vs;
    }

    method InjectOrReplaceVolumeMount(volumeMount: Mount)
      modifies `containers
      ensures containers == MountInAll(old(containers), volumeMount)
    {
      var given := containers;
      var cs: seq<Container> := [];
      for i := 0 to |given|
        invariant |cs| == i
        invariant forall j :: 0 <= j < i ==> cs[j] == WithMount(given[j], volumeMount)
      {
        var c := given[i];
        var mounts := c.value.mounts;
        var volumeMounts: seq<Mount> := [];
        var volumeMountFound := false;
        for n := 0 to |mounts|
          invariant |volumeMounts| == n
          invariant volumeMountFound <==> Has(mounts[..n], volumeMount.name)
          invariant forall j :: 0 <= j < n ==> volumeMounts[j] == if mounts[j].name == volumeMount.name then volumeMount else mounts[j]
        {
          HasStep(mounts, n, volumeMount.name);
          if mounts[n].name == volumeMount.name {
            volumeMountFound := true;
            volumeMounts := volumeMounts + [volumeMount];
            continue;
          }
          volumeMounts := volumeMounts + [mounts[n]];
        }
        assert mounts[..|mounts|] == mounts;
        if !volumeMountFound {
          volumeMounts := volumeMounts + [volumeMount];
        }
        assert volumeMounts == Upsert(mounts, volumeMount);
        cs := cs + [c.(value := c.value.(mounts := volumeMounts))];
      }
      assert cs == MountInAll(given, volumeMount);
      containers := cs;
    }

    method InjectOrReplaceEnv(env: EnvVar)
      modifies `containers
      ensures containers == EnvInAll(old(containers), env)
    {
      var given := containers;
      var cs: seq<Container> := [];
      for i := 0 to |given|
        invariant |cs| == i
        invariant forall j :: 0 <= j < i ==> cs[j] == WithEnv(given[j], env)
      {
        var c := given[i];
        var before := c.value.envs;
        var envs: seq<EnvVar> := [];
        var envFound := false;
        for n := 0 to |before|
          invariant envFound <==> Has(before[..n], env.name)
          invariant envs == Sweep(before[..n], env, false)
        {
          HasStep(before, n, env.name);
          assert before[..n + 1][..n] == before[..n];
          if before[n].name == env.name {
            envFound := true;
            envs := envs + [env];
          }
          envs := envs + [before[n]];
        }
        assert before[..|before|] == before;
        if !envFound {
          envs := envs + [env];
        }
        cs := cs + [c.(value := c.value.(envs := envs))];
      }
      assert cs == EnvInAll(given, env);
      containers := cs;
    }
  }

  lemma HasStep<T>(xs: seq<Named<T>>, i: nat, n: string)
    requires i < |xs|
    ensures Has(xs[..i + 1], n) <==> Has(xs[..i], n) || xs[i].name == n
  {
    if Has(xs[..i], n) {
      var j :| 0 <= j < i && xs[..i][j].name == n;
      assert xs[..i + 1][j].name == n;
    }
    if xs[i].name == n {
      assert xs[..i + 1][i].name == n;
    }
    if Has(xs[..i + 1], n) && xs[i].name != n {
      var j :| 0 <= j < i + 1 && xs[..i + 1][j].name == n;
      assert xs[..i][j].name == n;
    }
  }
}
