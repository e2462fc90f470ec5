/** The condition list of a FluentPVCBinding and the phase derived from it
    (api/v1alpha1/helpers.go, and the condition helpers of apimachinery it calls). */
module Conditions {

  datatype ConditionType =
    | Ready | OutOfUse | FinalizerJobApplied | FinalizerJobSucceeded | FinalizerJobFailed | Unknown | PodMissing

  /** The reasons the operator writes; the accompanying message texts are dropped. */
  datatype Reason =
    | PodFoundPVCFound
    | PodDeletedPVCFound | PodCompletedPVCFound
    | FinalizerJobFound | FinalizerJobIsSucceeded | FinalizerJobIsFailed | FinalizerJobNotFound
    | PVCLost | PodAndPVCNotFound | PodRunningButPVCNotFound | PodCompletedPVCNotFound | MultipleFinalizerJobsFound
    | BindingPodTimeout

  /** `since` is LastTransitionTime; the operator only ever writes the statuses True and False. */
  datatype Condition = Condition(kind: ConditionType, holds: bool, reason: Reason, since: int)

  datatype Phase = Unset | Pending | Latest(kind: ConditionType)

  // ---------------------------------------------------------------- the condition list

  /** Index of the first condition of kind t, |cs| when there is none. */
  function IndexOf(cs: seq<Condition>, t: ConditionType): (i: nat)
    ensures i <= |cs|
    ensures i < |cs| ==> cs[i].kind == t
    ensures forall j :: 0 <= j < i ==> cs[j].kind != t
  {
    if cs == [] then 0
    else if cs[0].kind == t then 0
    else 1 + IndexOf(cs[1..], t)
  }

  lemma IndexOfIsFirst(cs: seq<Condition>, t: ConditionType, i: nat)
    requires i <= |cs|
    requires i < |cs| ==> cs[i].kind == t
    requires forall j :: 0 <= j < i ==> cs[j].kind != t
    ensures IndexOf(cs, t) == i
  {
    if 0 < i {
      assert cs[0].kind != t;
      forall j | 0 <= j < i - 1 ensures cs[1..][j].kind != t { assert cs[j + 1].kind != t; }
      IndexOfIsFirst(cs[1..], t, i - 1);
    }
  }

  /** meta.IsStatusConditionTrue. */
  predicate IsTrue(cs: seq<Condition>, t: ConditionType) {
    var i := IndexOf(cs, t);
    i < |cs| && cs[i].holds
  }

  function Since(cs: seq<Condition>, t: ConditionType): int
    requires IsTrue(cs, t)
  {
    cs[IndexOf(cs, t)].since
  }

  function ReasonOf(cs: seq<Condition>, t: ConditionType): Reason
    requires IsTrue(cs, t)
  {
    cs[IndexOf(cs, t)].reason
  }

  /** meta.SetStatusCondition: the transition time moves only when the status flips. */
  function SetStatusCondition(cs: seq<Condition>, t: ConditionType, holds: bool, reason: Reason, now: int): (r: seq<Condition>)
    ensures forall u :: IsTrue(r, u) <==> if u == t then holds else IsTrue(cs, u)
    ensures forall u :: u != t && IsTrue(cs, u) ==> Since(r, u) == Since(cs, u) && ReasonOf(r, u) == ReasonOf(cs, u)
    ensures holds ==> ReasonOf(r, t) == reason && Since(r, t) == if IsTrue(cs, t) then Since(cs, t) else now
  {
    var i := IndexOf(cs, t);
    var r :=
      if i == |cs| then cs + [Condition(t, holds, reason, now)]
      else cs[i := Condition(t, holds, reason, if cs[i].holds == holds then cs[i].since else now)];
    SetKeepsOthers(cs, t, r);
    r
  }

  /** r is cs with the first entry of kind t replaced, or with one of kind t appended. */
  predicate ReplacesAt(cs: seq<Condition>, t: ConditionType, r: seq<Condition>) {
    var i := IndexOf(cs, t);
    && i < |r| && r[i].kind == t
    && |r| == (if i == |cs| then i + 1 else |cs|)
    && forall j :: 0 <= j < |cs| && j != i ==> r[j] == cs[j]
  }

  lemma SetKeepsOthers(cs: seq<Condition>, t: ConditionType, r: seq<Condition>)
    requires ReplacesAt(cs, t, r)
    ensures IndexOf(r, t) == IndexOf(cs, t)
    ensures forall u :: u != t && IsTrue(cs, u) ==> IsTrue(r, u) && IndexOf(r, u) == IndexOf(cs, u)
    ensures forall u :: u != t && IsTrue(r, u) ==> IsTrue(cs, u)
  {
    IndexOfIsFirst(r, t, IndexOf(cs, t));
    forall u | u != t
      ensures IsTrue(cs, u) ==> IsTrue(r, u) && IndexOf(r, u) == IndexOf(cs, u)
      ensures IsTrue(r, u) ==> IsTrue(cs, u)
    {
      SetKeepsOther(cs, t, r, u);
    }
  }

  lemma SetKeepsOther(cs: seq<Condition>, t: ConditionType, r: seq<Condition>, u: ConditionType)
    requires ReplacesAt(cs, t, r) && u != t
    ensures IndexOf(cs, u) < |cs| ==> IndexOf(r, u) == IndexOf(cs, u) && r[IndexOf(cs, u)] == cs[IndexOf(cs, u)]
    ensures IndexOf(cs, u) == |cs| ==> IndexOf(r, u) == |r|
  {
    var f := IndexOf(cs, u);
    if f < |cs| {
      IndexOfIsFirst(r, u, f);
    } else {
      IndexOfIsFirst(r, u, |r|);
    }
  }

  predicate UniqueKinds(cs: seq<Condition>) {
    forall i, j :: 0 <= i < j < |cs| ==> cs[i].kind != cs[j].kind
  }

  // ---------------------------------------------------------------- the phase

  /** The phases resetPhase may leave behind: sort.Slice is not stable, so among True conditions
      with equal transition times any of them may come first. */
  ghost predicate IsPhaseFor(cs: seq<Condition>, phase: Phase) {
    if forall i :: 0 <= i < |cs| ==> !cs[i].holds then phase == Pending
    else exists i :: 0 <= i < |cs| && cs[i].holds && phase == Latest(cs[i].kind) &&
                     forall j :: 0 <= j < |cs| && cs[j].holds ==> cs[j].since <= cs[i].since
  }

  predicate NewestFirst(cs: seq<Condition>) {
    forall i, j :: 0 <= i < j < |cs| ==> cs[i].since >= cs[j].since
  }

  function InsertNewest(cs: seq<Condition>, c: Condition): (r: seq<Condition>) {
    if cs == [] || c.since > cs[0].since then [c] + cs else [cs[0]] + InsertNewest(cs[1..], c)
  }

  lemma {:induction false} InsertNewestAdds(cs: seq<Condition>, c: Condition)
    ensures multiset(InsertNewest(cs, c)) == multiset(cs) + multiset{c}
  {
    if cs != [] {
      InsertNewestAdds(cs[1..], c);
      assert cs == [cs[0]] + cs[1..];
    }
  }

  lemma {:induction false} InsertNewestSorts(cs: seq<Condition>, c: Condition)
    requires NewestFirst(cs)
    ensures NewestFirst(InsertNewest(cs, c))
  {
    if cs != [] && c.since <= cs[0].since {
      var rest := InsertNewest(cs[1..], c);
      InsertNewestSorts(cs[1..], c);
      forall d | d in rest ensures d.since <= cs[0].since {
        InsertNewestAdds(cs[1..], c);
        assert d in multiset(rest);
        assert d == c || d in multiset(cs[1..]);
      }
    }
  }

  /** Stands for sort.Slice: callers learn no more than "a permutation, newest first". */
  method SortNewestFirst(cs: seq<Condition>) returns (r: seq<Condition>)
    ensures multiset(r) == multiset(cs)
    ensures NewestFirst(r)
  {
    r := [];
    for n := 0 to |cs|
      invariant multiset(r) == multiset(cs[..n])
      invariant NewestFirst(r)
    {
      assert cs[..n + 1] == cs[..n] + [cs[n]];
      InsertNewestAdds(r, cs[n]);
      InsertNewestSorts(r, cs[n]);
      r := InsertNewest(r, cs[n]);
    }
    assert cs[..|cs|] == cs;
  }

  /** resetPhase (helpers.go:109-126). */
  method PhaseOf(cs: seq<Condition>) returns (phase: Phase)
    ensures IsPhaseFor(cs, phase)
  {
    var conditions: seq<Condition> := [];
    for n := 0 to |cs|
      invariant forall c :: c in conditions ==> c.holds && c in cs
      invariant forall j :: 0 <= j < n && cs[j].holds ==> cs[j] in conditions
    {
      if cs[n].holds {
        conditions := conditions + [cs[n]];
      }
    }
    if |conditions| == 0 {
      return Pending;
    }
    var sorted := SortNewestFirst(conditions);
    assert |sorted| == |conditions| by { assert |multiset(sorted)| == |multiset(conditions)|; }
    assert forall c :: c in multiset(sorted) <==> c in multiset(conditions);
    assert sorted[0] in conditions by { assert sorted[0] in multiset(conditions); }
    forall j | 0 <= j < |cs| && cs[j].holds ensures cs[j].since <= sorted[0].since {
      assert cs[j] in multiset(sorted);
      assert cs[j] in sorted;
    }
    phase := Latest(sorted[0].kind);
  }

  // ---------------------------------------------------------------- histories of setCondition calls

  datatype Call = Call(kind: ConditionType, holds: bool, reason: Reason, at: int)

  predicate StrictlyIncreasing(calls: seq<Call>) {
    forall i, j :: 0 <= i < j < |calls| ==> calls[i].at < calls[j].at
  }

  /** The list after a history of setCondition calls on a fresh binding. */
  function Play(calls: seq<Call>): seq<Condition> {
    if calls == [] then []
    else
      var c := calls[|calls| - 1];
      SetStatusCondition(Play(calls[..|calls| - 1]), c.kind, c.holds, c.reason, c.at)
  }

  datatype Moment = Never | At(time: int)

  /** Reference definition, read off the history alone: when kind t most recently became True,
      Never when it is not True now. */
  function BecameTrue(calls: seq<Call>, t: ConditionType): Moment {
    if calls == [] then Never
    else
      var c, before := calls[|calls| - 1], BecameTrue(calls[..|calls| - 1], t);
      if c.kind != t then before
      else if !c.holds then Never
      else if before.At? then before else At(c.at)
  }

  lemma {:induction false} PlayKeepsKindsUnique(calls: seq<Call>)
    ensures UniqueKinds(Play(calls))
  {
    if calls != [] {
      var c, before := calls[|calls| - 1], Play(calls[..|calls| - 1]);
      PlayKeepsKindsUnique(calls[..|calls| - 1]);
      var i := IndexOf(before, c.kind);
    }
  }

  lemma {:induction false} PlayFollowsHistory(calls: seq<Call>, t: ConditionType)
    ensures IsTrue(Play(calls), t) <==> BecameTrue(calls, t).At?
    ensures IsTrue(Play(calls), t) ==> At(Since(Play(calls), t)) == BecameTrue(calls, t)
  {
    if calls != [] {
      PlayFollowsHistory(calls[..|calls| - 1], t);
    }
  }

  lemma {:induction false} BecameTrueIsACall(calls: seq<Call>, t: ConditionType) returns (n: nat)
    requires BecameTrue(calls, t).At?
    ensures n < |calls| && calls[n].kind == t && calls[n].at == BecameTrue(calls, t).time
  {
    var c, before := calls[|calls| - 1], calls[..|calls| - 1];
    if BecameTrue(before, t).At? {
      n := BecameTrueIsACall(before, t);
    } else {
      n := |calls| - 1;
    }
  }

  /** In a list with unique kinds the entries and the kinds that are True correspond. */
  lemma TrueEntries(cs: seq<Condition>, i: nat)
    requires UniqueKinds(cs) && i < |cs|
    ensures IndexOf(cs, cs[i].kind) == i
    ensures cs[i].holds <==> IsTrue(cs, cs[i].kind)
  {
    IndexOfIsFirst(cs, cs[i].kind, i);
  }

  /** Whatever the clock does, the phase names a True condition that no other True one is newer than. */
  lemma PhaseIsMaximal(calls: seq<Call>, phase: Phase)
    requires IsPhaseFor(Play(calls), phase)
    ensures phase == Pending <==> forall t :: BecameTrue(calls, t) == Never
    ensures phase != Unset
    ensures phase.Latest? ==>
              && BecameTrue(calls, phase.kind).At?
              && forall t :: BecameTrue(calls, t).At? ==> BecameTrue(calls, t).time <= BecameTrue(calls, phase.kind).time
  {
    var cs := Play(calls);
    PlayKeepsKindsUnique(calls);
    forall t ensures IsTrue(cs, t) <==> BecameTrue(calls, t).At?
             ensures IsTrue(cs, t) ==> At(Since(cs, t)) == BecameTrue(calls, t)
    {
      PlayFollowsHistory(calls, t);
    }
    forall i | 0 <= i < |cs| ensures cs[i].holds ==> IsTrue(cs, cs[i].kind) && Since(cs, cs[i].kind) == cs[i].since {
      TrueEntries(cs, i);
    }
    if i: nat :| i < |cs| && cs[i].holds {
      assert BecameTrue(calls, cs[i].kind) != Never;
    } else {
      forall t ensures BecameTrue(calls, t) == Never {
        assert !IsTrue(cs, t);
      }
    }
  }

  /** With a strictly increasing clock the phase is the one True condition that most recently became True. */
  lemma PhaseIsLatest(calls: seq<Call>, phase: Phase)
    requires StrictlyIncreasing(calls)
    requires IsPhaseFor(Play(calls), phase)
    ensures phase == Pending <==> forall t :: BecameTrue(calls, t) == Never
    ensures phase.Latest? ==>
              && BecameTrue(calls, phase.kind).At?
              && forall t :: t != phase.kind && BecameTrue(calls, t).At? ==>
                   BecameTrue(calls, t).time < BecameTrue(calls, phase.kind).time
  {
    PhaseIsMaximal(calls, phase);
    if phase.Latest? {
      var n := BecameTrueIsACall(calls, phase.kind);
      forall t | t != phase.kind && BecameTrue(calls, t).At?
        ensures BecameTrue(calls, t).time < BecameTrue(calls, phase.kind).time
      {
        var m := BecameTrueIsACall(calls, t);
        assert m < n || n < m;
      }
    }
  }

  /** With equal times the phase is not determined: the same two calls admit two phases. */
  lemma EqualTimesLeavePhaseOpen(at: int)
    ensures var calls := [Call(FinalizerJobApplied, true, FinalizerJobFound, at),
                          Call(FinalizerJobSucceeded, true, FinalizerJobIsSucceeded, at)];
            IsPhaseFor(Play(calls), Latest(FinalizerJobApplied)) && IsPhaseFor(Play(calls), Latest(FinalizerJobSucceeded))
  {
    var c0, c1 := Call(FinalizerJobApplied, true, FinalizerJobFound, at), Call(FinalizerJobSucceeded, true, FinalizerJobIsSucceeded, at);
    var calls := [c0, c1];
    assert calls[..1] == [c0] && [c0][..0] == [];
    var cs := Play(calls);
    assert Play([c0]) == [Condition(FinalizerJobApplied, true, FinalizerJobFound, at)];
    assert cs == [Condition(FinalizerJobApplied, true, FinalizerJobFound, at),
                  Condition(FinalizerJobSucceeded, true, FinalizerJobIsSucceeded, at)];
    assert cs[0].holds && cs[1].holds;
  }
}
