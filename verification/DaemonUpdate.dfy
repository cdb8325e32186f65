/** A condemned daemon pod and the rolling update: which of its reconciles pick it, and so whether it
    is ever deleted. */
module DaemonUpdate {
  import opened ActivePods
  import opened MathUtils
  import opened NodeSets
  import opened RollingUpdate
  import opened SlurmNodes
  import opened UpdateAndUncordon
  import Cordon

  /** What the update step of one reconcile works on: the pods, the wanted revision, and what the two
      sorts made of the old pods. */
  datatype View = View(spec: Spec, pods: seq<Pod>, hash: string, byAge: seq<Pod>, sorted: seq<Pod>)

  ghost predicate Valid(v: View) {
    var olds := OldPods(v.pods, v.hash);
    && IsAgeSort(olds, v.byAge) && |v.byAge| == |olds|
    && IsSortOf(v.byAge[CountUnhealthy(olds)..], v.sorted)
  }

  /** The two lists the update hands on, as SyncRollingUpdate promises them. */
  ghost function CondemnedBy(v: View): seq<Pod>
    requires Valid(v)
  {
    Burst(v.byAge[..CountUnhealthy(OldPods(v.pods, v.hash))]) + Burst(v.sorted[..UpdateBudget(v.spec, |v.sorted|)])
  }

  /** With OnDelete there is no update step. */
  ghost predicate Picks(v: View, uid: nat)
    requires Valid(v)
  {
    v.spec.strategy == RollingUpdateType && uid in Uids(CondemnedBy(v))
  }

  /** The update picks old pods only. */
  lemma PicksOldOnly(v: View, uid: nat)
    requires Valid(v) && Picks(v, uid)
    ensures exists p :: p in v.pods && p.uid == uid && IsOld(p, v.hash)
  {
    var n, k := CountUnhealthy(OldPods(v.pods, v.hash)), UpdateBudget(v.spec, |v.sorted|);
    CondemnedOnce(v.pods, v.hash, v.byAge, n, v.sorted, k);
    var p :| p in CondemnedBy(v) && p.uid == uid;
    assert p in v.byAge[..n] + v.sorted[..k];
  }

  /** The reconciles pick the pod only where the update step does. */
  ghost predicate PickedBy(rounds: seq<Cordon.Round>, views: seq<View>, uid: nat) {
    && |views| == |rounds|
    && forall i :: 0 <= i < |rounds| ==> Valid(views[i]) && (rounds[i].picked ==> Picks(views[i], uid))
  }

  /** Updates are on delete, or the pod is of the revision wanted. */
  ghost predicate NotUpdated(v: View, uid: nat) {
    v.spec.strategy == OnDeleteType || forall p :: p in v.pods && p.uid == uid ==> !IsOld(p, v.hash)
  }

  /** A condemned daemon pod that the update leaves alone, because it is of the revision wanted or
      pods are updated on delete, is never deleted, whatever its jobs do and whichever reads fail. */
  lemma UpToDateDaemonNeverGoes(w: Cordon.World, rounds: seq<Cordon.Round>, views: seq<View>, uid: nat)
    requires Cordon.Held(w) && Cordon.RoundsOfJobs(w, rounds) && PickedBy(rounds, views, uid)
    requires forall v :: v in views ==> NotUpdated(v, uid)
    ensures Cordon.Held(Cordon.DaemonRounds(w, rounds))
  {
    forall r | r in rounds ensures !r.picked {
      var i :| 0 <= i < |rounds| && rounds[i] == r;
      assert views[i] in views;
      if Picks(views[i], uid) { PicksOldOnly(views[i], uid); }
    }
    Cordon.DaemonCondemnedStays(w, rounds);
  }

  /** An old pod that is alone is picked by every percentage from one to a hundred, as a template edit
      brings it about that makes a pod old and its node unfit at once. */
  lemma LoneOldPodIsPicked(v: View, p: Pod)
    requires Valid(v) && v.pods == [p] && IsOld(p, v.hash)
    requires v.spec.strategy == RollingUpdateType && v.spec.mode == DaemonSet
    requires v.spec.maxUnavailable.Percent? && 1 <= v.spec.maxUnavailable.p <= 100
    ensures Picks(v, p.uid)
  {
    LoneView(v, p);
    LoneBudget(v.spec);
    LoneCondemned(v.spec, v.sorted, CountUnhealthy(OldPods(v.pods, v.hash)), p);
  }

  lemma LoneView(v: View, p: Pod)
    requires Valid(v) && v.pods == [p] && IsOld(p, v.hash)
    ensures v.byAge == [p] && CountUnhealthy(OldPods(v.pods, v.hash)) <= 1
    ensures CountUnhealthy(OldPods(v.pods, v.hash)) == 0 ==> v.sorted == [p]
  {
    AllOld([p], v.hash);
    LoneElement(v.byAge, p);
    LoneCount(p);
    if p.Healthy() {
      assert [p][0..] == [p];
      LoneElement(v.sorted, p);
    }
  }

  lemma LoneCondemned(spec: Spec, sorted: seq<Pod>, n: nat, p: Pod)
    requires n <= 1 && UpdateBudget(spec, 1) == 1 && (n == 0 ==> sorted == [p])
    ensures p.uid in Uids(Burst([p][..n]) + Burst(sorted[..UpdateBudget(spec, |sorted|)]))
  {
    var first, rest := Burst([p][..n]), Burst(sorted[..UpdateBudget(spec, |sorted|)]);
    if n == 0 {
      assert rest == [p];
    } else {
      assert first == [p];
    }
    InConcat(p, first, rest);
  }

  lemma LoneCount(p: Pod)
    ensures CountUnhealthy([p]) == if p.Healthy() then 0 else 1
  {
    assert [p][1..] == [];
  }

  lemma LoneBudget(spec: Spec)
    requires spec.mode == DaemonSet && spec.maxUnavailable.Percent? && 1 <= spec.maxUnavailable.p <= 100
    ensures UpdateBudget(spec, 1) == 1
  {
    UpdateProgresses(spec, 1, 1);
  }

  lemma InConcat(p: Pod, a: seq<Pod>, b: seq<Pod>)
    requires a == [p] || b == [p]
    ensures p.uid in Uids(a + b)
  {
    assert p in a + b;
  }

  lemma LoneElement(s: seq<Pod>, p: Pod)
    requires multiset(s) == multiset([p])
    ensures s == [p]
  {
    SameSize(s, [p]);
    assert s[0] in multiset(s);
  }

  /** Such a pod is deleted in the first calm reconcile that finds its node without work. */
  lemma OldDaemonGoes(w: Cordon.World, r: Cordon.Round, v: View, p: Pod)
    requires Cordon.HeldCalmly(w) && Cordon.CalmRound(r) && !IsBusy(r.before)
    requires Valid(v) && v.pods == [p] && IsOld(p, v.hash)
    requires v.spec.strategy == RollingUpdateType && v.spec.mode == DaemonSet
    requires v.spec.maxUnavailable.Percent? && 1 <= v.spec.maxUnavailable.p <= 100
    requires r.picked <==> Picks(v, p.uid)
    ensures Cordon.DaemonReconcile(w, r).deleted
  {
    LoneOldPodIsPicked(v, p);
    Cordon.CalmReconcile(w, r);
  }

  /** Exactly when a condemned daemon pod is deleted, over every sequence of calm reconciles: some
      update picks it while its node has no work. */
  lemma DaemonGoesIff(w: Cordon.World, rounds: seq<Cordon.Round>, views: seq<View>, uid: nat)
    requires Cordon.HeldCalmly(w) && (forall r :: r in rounds ==> Cordon.CalmRound(r))
    requires |views| == |rounds|
    requires forall i :: 0 <= i < |rounds| ==> Valid(views[i]) && (rounds[i].picked <==> Picks(views[i], uid))
    ensures Cordon.DaemonRounds(w, rounds).deleted <==>
            exists i :: 0 <= i < |rounds| && Picks(views[i], uid) && !IsBusy(rounds[i].before)
  {
    Cordon.DaemonCondemnedGoesIff(w, rounds);
    if r :| r in rounds && Cordon.Takes(r) {
      var i :| 0 <= i < |rounds| && rounds[i] == r;
    } else {
      forall i | 0 <= i < |rounds| ensures !(Picks(views[i], uid) && !IsBusy(rounds[i].before)) {
        assert rounds[i] in rounds;
      }
    }
  }
}
