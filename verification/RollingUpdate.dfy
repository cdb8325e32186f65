/** Rolling updates: which pods of an old revision are condemned, under which budget, and why
    the update does not undo what the same reconcile's uncordoning does. */
module RollingUpdate {
  import opened ActivePods
  import opened MathUtils
  import opened NodeSets
  import opened Sets

  datatype MaxUnavailable = Count(n: int) | Percent(p: int) | Invalid

  datatype Strategy = RollingUpdateType | OnDeleteType

  datatype Spec = Spec(strategy: Strategy, mode: ScalingMode, replicas: nat, maxUnavailable: MaxUnavailable)

  /** An absolute number, or a percentage of the total rounded up, or one if it cannot be read. */
  function ScaledValue(m: MaxUnavailable, total: nat): int {
    match m
    case Count(n) => n
    case Percent(p) => -((-(p * total)) / 100)
    case Invalid => 1
  }

  predicate IsNew(p: Pod, hash: string) { !p.terminating && p.revision == hash }
  predicate IsOld(p: Pod, hash: string) { !p.terminating && p.revision != hash }

  function NewPods(pods: seq<Pod>, hash: string): (r: seq<Pod>)
    ensures forall p :: p in r <==> p in pods && IsNew(p, hash)
    ensures |r| <= |pods|
  {
    if pods == [] then [] else
      NewPods(pods[..|pods| - 1], hash) + (if IsNew(pods[|pods| - 1], hash) then [pods[|pods| - 1]] else [])
  }

  function OldPods(pods: seq<Pod>, hash: string): (r: seq<Pod>)
    ensures forall p :: p in r <==> p in pods && IsOld(p, hash)
    ensures |r| <= |pods|
  {
    if pods == [] then [] else
      OldPods(pods[..|pods| - 1], hash) + (if IsOld(pods[|pods| - 1], hash) then [pods[|pods| - 1]] else [])
  }

  function Live(pods: seq<Pod>): (r: seq<Pod>) {
    if pods == [] then [] else
      Live(pods[..|pods| - 1]) + (if pods[|pods| - 1].terminating then [] else [pods[|pods| - 1]])
  }

  lemma {:induction false} NewAndOldAreLive(pods: seq<Pod>, hash: string)
    ensures multiset(NewPods(pods, hash)) + multiset(OldPods(pods, hash)) == multiset(Live(pods))
  {
    if pods != [] {
      NewAndOldAreLive(pods[..|pods| - 1], hash);
    }
  }

  function Unavailable(pods: seq<Pod>): (n: nat)
    ensures n <= |pods|
    ensures n == 0 <==> forall p :: p in pods ==> p.available
  {
    if pods == [] then 0 else
      assert pods == pods[..|pods| - 1] + [pods[|pods| - 1]];
      Unavailable(pods[..|pods| - 1]) + (if pods[|pods| - 1].available then 0 else 1)
  }

  function Total(spec: Spec, pods: seq<Pod>): nat {
    if spec.mode == DaemonSet then |pods| else spec.replicas
  }

  /** How many old pods may be condemned with `unavailable` new pods not yet available. */
  function Budget(spec: Spec, total: nat, unavailable: nat, olds: nat): (n: nat)
    ensures n <= olds
  {
    Clamp(Remaining(ScaledValue(spec.maxUnavailable, total), unavailable), 0, olds)
  }

  function Remaining(max: int, unavailable: nat): int { Clamp(max - unavailable, 0, max) }

  /** Condemned and unavailable pods together stay within the budget, unless the unavailable ones
      alone already exceed it. */
  lemma WithinBudget(max: int, unavailable: nat, olds: nat)
    ensures Clamp(Remaining(max, unavailable), 0, olds) + unavailable <= Max(max, unavailable)
  {
  }

  /** findUpdatedPods. */
  method FindUpdatedPods(pods: seq<Pod>, hash: string) returns (newPods: seq<Pod>, oldPods: seq<Pod>)
    ensures newPods == NewPods(pods, hash) && oldPods == OldPods(pods, hash)
  {
    newPods, oldPods := [], [];
    for i := 0 to |pods|
      invariant newPods == NewPods(pods[..i], hash) && oldPods == OldPods(pods[..i], hash)
    {
      assert pods[..i + 1][..i] == pods[..i];
      if pods[i].terminating { continue; }
      if pods[i].revision == hash {
        newPods := newPods + [pods[i]];
      } else {
        oldPods := oldPods + [pods[i]];
      }
    }
    assert pods[..|pods|] == pods;
  }

  method CountUnavailable(pods: seq<Pod>) returns (numUnavailable: nat)
    ensures numUnavailable == Unavailable(pods)
  {
    numUnavailable := 0;
    for i := 0 to |pods|
      invariant numUnavailable == Unavailable(pods[..i])
    {
      assert pods[..i + 1][..i] == pods[..i];
      if !pods[i].available { numUnavailable := numUnavailable + 1; }
    }
    assert pods[..|pods|] == pods;
  }

  /** splitUpdatePods; `sortedOld` is what sorting the old pods gave. */
  method SplitUpdatePods(spec: Spec, pods: seq<Pod>, hash: string, sortedOld: seq<Pod>)
    returns (podsToDelete: seq<Pod>, podsToKeep: seq<Pod>)
    requires IsSortOf(OldPods(pods, hash), sortedOld)
    ensures spec.strategy == OnDeleteType ==> podsToDelete == [] && podsToKeep == []
    ensures spec.strategy == RollingUpdateType ==>
              var unavailable := Unavailable(NewPods(pods, hash));
              var n := Budget(spec, Total(spec, pods), unavailable, |sortedOld|);
              podsToDelete == sortedOld[..n] && podsToKeep == NewPods(pods, hash) + sortedOld[n..]
  {
    if spec.strategy == OnDeleteType { return [], []; }
    var newPods, oldPods := FindUpdatedPods(pods, hash);
    var numUnavailable := CountUnavailable(newPods);
    var total := if spec.mode == DaemonSet then |pods| else spec.replicas;
    var maxUnavailable := ScaledValue(spec.maxUnavailable, total);
    var remainingOldPods;
    var slice := Slice(oldPods);
    podsToDelete, remainingOldPods :=
      SplitActivePods(slice, Remaining(maxUnavailable, numUnavailable), sortedOld);
    podsToKeep := newPods + remainingOldPods;
  }

  lemma SplitIsPartition(pods: seq<Pod>, hash: string, sortedOld: seq<Pod>, n: nat)
    requires IsSortOf(OldPods(pods, hash), sortedOld) && n <= |sortedOld|
    ensures multiset(sortedOld[..n]) + multiset(NewPods(pods, hash) + sortedOld[n..]) == multiset(Live(pods))
    ensures forall p :: p in sortedOld[..n] ==> p in pods && IsOld(p, hash)
  {
    NewAndOldAreLive(pods, hash);
    SplitConserves(NewPods(pods, hash), OldPods(pods, hash), sortedOld, n);
    assert forall p :: p in sortedOld[..n] ==> p in sortedOld;
  }

  lemma SplitConserves(news: seq<Pod>, olds: seq<Pod>, sortedOld: seq<Pod>, n: nat)
    requires multiset(sortedOld) == multiset(olds) && n <= |sortedOld|
    ensures multiset(sortedOld[..n]) + multiset(news + sortedOld[n..]) == multiset(news) + multiset(olds)
    ensures forall p :: p in sortedOld ==> p in olds
  {
    assert sortedOld == sortedOld[..n] + sortedOld[n..];
    forall p | p in sortedOld ensures p in olds { assert p in multiset(sortedOld); }
  }

  /** What the split of a rolling update means: a partition of the live pods in which no
      current-revision pod is condemned, within the unavailability budget. */
  lemma SplitIsBudgetedPartition(spec: Spec, pods: seq<Pod>, hash: string, sortedOld: seq<Pod>)
    requires IsSortOf(OldPods(pods, hash), sortedOld)
    ensures var unavailable := Unavailable(NewPods(pods, hash));
            var n := Budget(spec, Total(spec, pods), unavailable, |sortedOld|);
            var max := ScaledValue(spec.maxUnavailable, Total(spec, pods));
            && multiset(sortedOld[..n]) + multiset(NewPods(pods, hash) + sortedOld[n..]) == multiset(Live(pods))
            && (forall p :: p in sortedOld[..n] ==> p in pods && !p.terminating && p.revision != hash)
            && n + unavailable <= Max(max, unavailable)
  {
    var unavailable := Unavailable(NewPods(pods, hash));
    WithinBudget(ScaledValue(spec.maxUnavailable, Total(spec, pods)), unavailable, |sortedOld|);
    SplitIsPartition(pods, hash, sortedOld, Budget(spec, Total(spec, pods), unavailable, |sortedOld|));
  }

  /** What the scaled value is: the number itself; the least whole number that is no less than the
      percentage of the total; one if it cannot be read. */
  lemma ScaledValueIs(m: MaxUnavailable, total: nat)
    ensures m.Count? ==> ScaledValue(m, total) == m.n
    ensures m.Percent? ==> 100 * (ScaledValue(m, total) - 1) < m.p * total <= 100 * ScaledValue(m, total)
    ensures m.Invalid? ==> ScaledValue(m, total) == 1
  {
    if m.Percent? { LeastWhole(m.p * total); }
  }

  lemma LeastWhole(x: int)
    ensures var v := -((-x) / 100); 100 * (v - 1) < x <= 100 * v
  {
  }

  /** Of what it is taken: the wanted replicas, or in DaemonSet mode the pods there are. */
  lemma BudgetIsTakenOf(spec: Spec, pods: seq<Pod>)
    ensures spec.mode == StatefulSet ==> Total(spec, pods) == spec.replicas
    ensures spec.mode == DaemonSet ==> Total(spec, pods) == |pods|
  {
  }

  /** How many old pods go: what the budget leaves after the unavailable new pods, as far as there are
      old ones. */
  lemma BudgetIs(spec: Spec, total: nat, unavailable: nat, olds: nat)
    ensures Budget(spec, total, unavailable, olds) ==
            Min(Max(ScaledValue(spec.maxUnavailable, total) - unavailable, 0), olds)
  {
  }

  /** An absolute budget is spent in full: with nothing unavailable, so many healthy old pods go. */
  lemma AbsoluteBudgetIsSpent(spec: Spec, total: nat, olds: nat)
    requires spec.maxUnavailable.Count? && spec.maxUnavailable.n >= 0
    ensures Budget(spec, total, 0, olds) == Min(spec.maxUnavailable.n, olds)
    ensures UpdateBudget(spec, olds) == Min(spec.maxUnavailable.n, olds)
  {
  }

  /** Which pods are new and old, and which of them count as unavailable. */
  lemma NewAndOldAre(pods: seq<Pod>, hash: string, p: Pod)
    ensures p in NewPods(pods, hash) <==> p in pods && !p.terminating && p.revision == hash
    ensures p in OldPods(pods, hash) <==> p in pods && !p.terminating && p.revision != hash
    ensures Unavailable(pods + [p]) == Unavailable(pods) + (if p.available then 0 else 1)
  {
    assert (pods + [p])[..|pods|] == pods;
  }

  /** A percentage budget never stalls: from one to a hundred per cent of a positive total, with
      every new pod available and an old pod left, at least one pod is condemned. */
  lemma UpdateProgresses(spec: Spec, total: nat, olds: nat)
    requires spec.maxUnavailable.Percent? && 1 <= spec.maxUnavailable.p <= 100
    requires total > 0 && olds > 0
    ensures 1 <= Budget(spec, total, 0, olds) && ScaledValue(spec.maxUnavailable, total) <= total
  {
    var p := spec.maxUnavailable.p;
    assert 1 <= p * total <= 100 * total;
    Ceiling(p * total, total);
  }

  lemma Ceiling(x: int, total: nat)
    requires 1 <= x <= 100 * total
    ensures 1 <= -((-x) / 100) <= total
  {
  }

  // ---- The update step ----

  lemma {:induction false} AllOld(pods: seq<Pod>, hash: string)
    requires forall i :: 0 <= i < |pods| ==> IsOld(pods[i], hash)
    ensures OldPods(pods, hash) == pods && NewPods(pods, hash) == []
  {
    if pods != [] {
      var front, last := pods[..|pods| - 1], pods[|pods| - 1];
      AllOld(front, hash);
      OneMoreOld(front, last, hash);
      assert pods == front + [last];
    }
  }

  lemma OneMoreOld(pods: seq<Pod>, p: Pod, hash: string)
    requires IsOld(p, hash)
    ensures OldPods(pods + [p], hash) == OldPods(pods, hash) + [p]
    ensures NewPods(pods + [p], hash) == NewPods(pods, hash)
  {
    assert (pods + [p])[..|pods|] == pods;
  }

  lemma BackOfOlds(pods: seq<Pod>, hash: string, byAge: seq<Pod>, n: nat)
    requires multiset(byAge) == multiset(OldPods(pods, hash)) && n <= |byAge|
    ensures forall p :: p in byAge[n..] ==> IsOld(p, hash)
  {
    forall p | p in byAge[n..] ensures IsOld(p, hash) {
      assert p in multiset(byAge);
      assert p in OldPods(pods, hash);
    }
  }

  /** The budget of the update step, which never sees a new pod. */
  function UpdateBudget(spec: Spec, healthy: nat): (n: nat)
    ensures n <= healthy
  {
    Budget(spec, if spec.mode == DaemonSet then healthy else spec.replicas, 0, healthy)
  }

  method OldestAndRest(oldPods: seq<Pod>, byAge: seq<Pod>) returns (unhealthy: seq<Pod>, healthy: seq<Pod>)
    requires IsAgeSort(oldPods, byAge) && |byAge| == |oldPods|
    ensures var n := CountUnhealthy(oldPods); unhealthy == byAge[..n] && healthy == byAge[n..]
  {
    var slice := Slice(oldPods);
    unhealthy, healthy := SplitUnhealthyPods(slice, byAge);
  }

  /** The second half of the update: splitUpdatePods on a list without new pods. */
  method SplitHealthy(spec: Spec, healthy: seq<Pod>, hash: string, sorted: seq<Pod>) returns (podsToDelete: seq<Pod>)
    requires spec.strategy == RollingUpdateType && IsSortOf(healthy, sorted)
    requires forall p :: p in healthy ==> IsOld(p, hash)
    ensures |sorted| == |healthy| && podsToDelete == sorted[..UpdateBudget(spec, |sorted|)]
  {
    AllOld(healthy, hash);
    assert |multiset(sorted)| == |multiset(healthy)|;
    var podsToKeep;
    podsToDelete, podsToKeep := SplitUpdatePods(spec, healthy, hash, sorted);
  }

  /** syncRollingUpdate: `byAge` is the old pods sorted by age, `sorted` the healthy part of them
      sorted for deletion. Only old pods are condemned, none twice, and the healthy ones among
      them within a budget that leaves unavailable new pods out of account; of either list one burst
      is condemned. */
  method SyncRollingUpdate(spec: Spec, pods: seq<Pod>, hash: string, byAge: seq<Pod>, sorted: seq<Pod>)
    returns (unhealthy: seq<Pod>, podsToDelete: seq<Pod>, condemned: seq<Pod>)
    requires IsAgeSort(OldPods(pods, hash), byAge) && |byAge| == |OldPods(pods, hash)|
    requires IsSortOf(byAge[CountUnhealthy(OldPods(pods, hash))..], sorted)
    requires spec.strategy == RollingUpdateType
    ensures unhealthy == byAge[..CountUnhealthy(OldPods(pods, hash))]
    ensures |sorted| == |byAge| - |unhealthy| && podsToDelete == sorted[..UpdateBudget(spec, |sorted|)]
    ensures condemned == Burst(unhealthy) + Burst(podsToDelete) && |condemned| == Condemned(spec, pods, hash)
    ensures multiset(unhealthy) + multiset(podsToDelete) <= multiset(OldPods(pods, hash))
    ensures forall p :: p in unhealthy + podsToDelete ==> p in pods && IsOld(p, hash)
  {
    var newPods, oldPods := FindUpdatedPods(pods, hash);
    var healthy;
    unhealthy, healthy := OldestAndRest(oldPods, byAge);
    BackOfOlds(pods, hash, byAge, |unhealthy|);
    podsToDelete := SplitHealthy(spec, healthy, hash, sorted);
    condemned := Burst(unhealthy) + Burst(podsToDelete);
    CondemnedOnce(pods, hash, byAge, |unhealthy|, sorted, |podsToDelete|);
  }

  lemma CondemnedOnce(pods: seq<Pod>, hash: string, byAge: seq<Pod>, n: nat, sorted: seq<Pod>, k: nat)
    requires multiset(byAge) == multiset(OldPods(pods, hash)) && n <= |byAge|
    requires multiset(sorted) == multiset(byAge[n..]) && k <= |sorted|
    ensures |sorted| == |byAge| - n
    ensures multiset(byAge[..n]) + multiset(sorted[..k]) <= multiset(OldPods(pods, hash))
    ensures forall p :: p in byAge[..n] + sorted[..k] ==> p in pods && IsOld(p, hash)
  {
    assert |multiset(sorted)| == |multiset(byAge[n..])|;
    assert byAge == byAge[..n] + byAge[n..];
    assert sorted == sorted[..k] + sorted[k..];
    WithinMeansMember(byAge[..n], sorted[..k], OldPods(pods, hash));
  }

  lemma WithinMeansMember(a: seq<Pod>, b: seq<Pod>, all: seq<Pod>)
    requires multiset(a) + multiset(b) <= multiset(all)
    ensures forall p :: p in a + b ==> p in all
  {
    forall p | p in a + b ensures p in all {
      assert p in multiset(a) + multiset(b);
    }
  }

  /** What doPodScale condemns of a list. */
  function Burst(pods: seq<Pod>): (r: seq<Pod>)
    ensures r <= pods && |r| == Min(|pods|, BURST_REPLICAS)
  {
    pods[..Min(|pods|, BURST_REPLICAS)]
  }

  /** How many pods the update step condemns: a burst of as many as are unhealthy, and a burst of a
      budget of the rest. */
  function Condemned(spec: Spec, pods: seq<Pod>, hash: string): nat {
    var unhealthy := CountUnhealthy(OldPods(pods, hash));
    Min(unhealthy, BURST_REPLICAS) + Min(UpdateBudget(spec, |OldPods(pods, hash)| - unhealthy), BURST_REPLICAS)
  }

  /** The NodeSet's own budget: condemned and unavailable pods together within maxUnavailable of
      all its pods, unless the unavailable ones alone exceed it. */
  ghost predicate WithinNodeSetBudget(spec: Spec, pods: seq<Pod>, hash: string, condemned: nat) {
    WithinBudgetOf(NodeSetMax(spec, pods), condemned, Unavailable(NewPods(pods, hash)))
  }

  ghost predicate WithinBudgetOf(max: int, condemned: nat, unavailable: nat) {
    condemned + unavailable <= Max(max, unavailable)
  }

  function NodeSetMax(spec: Spec, pods: seq<Pod>): int { ScaledValue(spec.maxUnavailable, Total(spec, pods)) }

  /** Exactly which counts the update step stays within budget for: `part` is what its own budget is
      taken to be. Either nothing can go, or what goes fits. */
  predicate Fits(max: int, part: int, unhealthy: nat, healthy: nat, unavailable: nat) {
    || (unhealthy == 0 && (part <= 0 || healthy == 0))
    || Min(unhealthy, BURST_REPLICAS) + Min(Min(Max(part, 0), healthy), BURST_REPLICAS) + unavailable <= max
  }

  /** Exactly when the update step keeps to the NodeSet's budget. */
  lemma UpdateWithinBudgetIff(spec: Spec, pods: seq<Pod>, hash: string)
    ensures var unhealthy := CountUnhealthy(OldPods(pods, hash));
            var healthy := |OldPods(pods, hash)| - unhealthy;
            WithinNodeSetBudget(spec, pods, hash, Condemned(spec, pods, hash)) <==>
            Fits(NodeSetMax(spec, pods), UpdateMax(spec, healthy), unhealthy, healthy, Unavailable(NewPods(pods, hash)))
  {
    var unhealthy := CountUnhealthy(OldPods(pods, hash));
    var healthy := |OldPods(pods, hash)| - unhealthy;
    CondemnedIs(spec, pods, hash);
    FitsIff(NodeSetMax(spec, pods), UpdateMax(spec, healthy), unhealthy, healthy, Unavailable(NewPods(pods, hash)));
  }

  lemma CondemnedIs(spec: Spec, pods: seq<Pod>, hash: string)
    ensures var unhealthy := CountUnhealthy(OldPods(pods, hash));
            var healthy := |OldPods(pods, hash)| - unhealthy;
            Condemned(spec, pods, hash) ==
            Min(unhealthy, BURST_REPLICAS) + Min(Min(Max(UpdateMax(spec, healthy), 0), healthy), BURST_REPLICAS)
  {
    BudgetIsMin(spec, |OldPods(pods, hash)| - CountUnhealthy(OldPods(pods, hash)));
  }

  lemma FitsIff(max: int, part: int, unhealthy: nat, healthy: nat, unavailable: nat)
    ensures var condemned := Min(unhealthy, BURST_REPLICAS) + Min(Min(Max(part, 0), healthy), BURST_REPLICAS);
            WithinBudgetOf(max, condemned, unavailable) <==> Fits(max, part, unhealthy, healthy, unavailable)
  {
  }

  /** Below the burst, and where the two budgets are one: nothing is unhealthy or unavailable, or
      nothing is unhealthy and no healthy old pod can go, or the old pods and the unavailable ones
      together are within it. */
  lemma FitsBelowBurst(max: int, unhealthy: nat, healthy: nat, unavailable: nat)
    requires unhealthy + healthy <= 250
    ensures Fits(max, max, unhealthy, healthy, unavailable) <==>
            || (unhealthy == 0 && (unavailable == 0 || max <= 0 || healthy == 0))
            || unhealthy + healthy + unavailable <= max
  {
  }

  /** The two budgets differ only for a percentage in DaemonSet mode, and then the update's is
      the smaller. */
  lemma UpdateMaxIsMax(spec: Spec, pods: seq<Pod>, healthy: nat)
    requires healthy <= |pods|
    ensures spec.mode == StatefulSet || !spec.maxUnavailable.Percent? ==>
              UpdateMax(spec, healthy) == NodeSetMax(spec, pods)
    ensures UpdateMax(spec, healthy) <= Max(NodeSetMax(spec, pods), 0)
  {
    if spec.mode == DaemonSet && spec.maxUnavailable.Percent? {
      ScaledMonotone(spec.maxUnavailable.p, healthy, |pods|);
    }
  }

  function UpdateMax(spec: Spec, healthy: nat): int {
    ScaledValue(spec.maxUnavailable, if spec.mode == DaemonSet then healthy else spec.replicas)
  }

  lemma BudgetIsMin(spec: Spec, healthy: nat)
    ensures UpdateBudget(spec, healthy) == Min(Max(UpdateMax(spec, healthy), 0), healthy)
  {
  }

  /** Unhealthy pods are not budgeted: up to a burst of them goes at once, new pods available or not. */
  lemma UnhealthyAreNotBudgeted(spec: Spec, pods: seq<Pod>, hash: string)
    requires Min(CountUnhealthy(OldPods(pods, hash)), BURST_REPLICAS) > Max(NodeSetMax(spec, pods), 0)
    ensures !WithinNodeSetBudget(spec, pods, hash, Condemned(spec, pods, hash))
  {
    UpdateWithinBudgetIff(spec, pods, hash);
  }

  // ---- The two budgets ----

  /** The two budgets of one reconcile: over all pods for the keep list, over the old pods alone
      for the update, which sees no new pods and so no unavailable ones. */
  lemma BudgetsAgree(spec: Spec, pods: seq<Pod>, hash: string, olds: nat)
    requires olds <= |pods| && Unavailable(NewPods(pods, hash)) == 0
    ensures UpdateBudget(spec, olds)
         <= Budget(spec, Total(spec, pods), Unavailable(NewPods(pods, hash)), olds)
  {
    var total := Total(spec, pods);
    var a := if spec.mode == DaemonSet then olds else spec.replicas;
    if spec.maxUnavailable.Percent? {
      ScaledMonotone(spec.maxUnavailable.p, a, total);
    }
  }

  /** A percentage of more is more, and a negative percentage is no budget at all. */
  lemma ScaledMonotone(p: int, a: nat, b: nat)
    requires a <= b
    ensures ScaledValue(Percent(p), a) <= ScaledValue(Percent(p), b) || ScaledValue(Percent(p), a) <= 0
    ensures p < 0 ==> ScaledValue(Percent(p), a) <= 0
  {
    if p >= 0 {
      assert p * a <= p * b;
      CeilMonotone(p * a, p * b);
    } else {
      assert p * a <= 0;
      CeilMonotone(p * a, 0);
    }
  }

  lemma CeilMonotone(x: int, y: int)
    requires x <= y
    ensures -((-x) / 100) <= -((-y) / 100)
  {
  }
}
