/** Uncordon and update in one reconcile: when the rolling update spares what the same reconcile has
    just uncordoned, and when it does not. */
module UpdateAndUncordon {
  import opened ActivePods
  import opened MathUtils
  import opened NodeSets
  import opened RollingUpdate
  import opened Sets

  predicate SameUid(p: Pod, q: Pod) { p.uid == q.uid }

  function UncordonOne(p: Pod, ids: set<nat>): Pod {
    if p.uid in ids then p.(cordoned := false) else p
  }

  /** The pods after those in `ids` were uncordoned. */
  function Uncordoned(pods: seq<Pod>, ids: set<nat>): (r: seq<Pod>)
    ensures |r| == |pods| && forall i :: 0 <= i < |r| ==> r[i] == UncordonOne(pods[i], ids)
  {
    seq(|pods|, i requires 0 <= i < |pods| => UncordonOne(pods[i], ids))
  }

  ghost function Uids(pods: seq<Pod>): set<nat> { set p | p in pods :: p.uid }

  lemma {:induction false} UidsSize(pods: seq<Pod>)
    ensures |Uids(pods)| <= |pods|
    ensures Apart(SameUid, pods) ==> |Uids(pods)| == |pods|
  {
    if pods != [] {
      var n := |pods| - 1;
      UidsSize(pods[..n]);
      assert pods == pods[..n] + [pods[n]];
      assert Uids(pods) == Uids(pods[..n]) + {pods[n].uid};
    }
  }

  lemma UncordonOneLater(p: Pod, q: Pod, ids: set<nat>)
    requires Less(p, q)
    ensures Less(p, UncordonOne(q, ids))
  {
  }

  // ---- Which pods a cut of a sort can take ----

  /** The other pods that come before one in every sort. */
  ghost function Before(pods: seq<Pod>, q: Pod): set<nat> {
    set x | x in pods && x.uid != q.uid && Less(x, q) :: x.uid
  }

  /** The first `k` pods, however the list is sorted, hold none of the kept ones: each has `k` others
      before it; or, where Less is no order and sorting promises nothing, nothing is taken or
      nothing was kept. */
  ghost predicate Spared(pods: seq<Pod>, kept: set<nat>, k: nat) {
    if StrictOn(pods) then forall q :: q in pods && q.uid in kept ==> |Before(pods, q)| >= k
    else k == 0 || Uids(pods) !! kept
  }

  /** On a list without cordon ties, being sorted is being sorted by key. */
  lemma SortedIffByKey(s: seq<Pod>)
    requires StrictOn(s)
    ensures (forall i, j :: 0 <= i < j < |s| ==> !Less(s[j], s[i])) <==> SortedBy(KeyAtMost, s)
  {
    forall i, j | 0 <= i < j < |s| ensures Less(s[j], s[i]) <==> !KeyAtMost(s[i], s[j]) {
      LessIsKeyLess(s[j], s[i]);
      LessIsKeyLess(s[i], s[j]);
    }
  }

  lemma SortedByKeyIsSort(pods: seq<Pod>, sorted: seq<Pod>)
    requires StrictOn(pods) && multiset(sorted) == multiset(pods) && SortedBy(KeyAtMost, sorted)
    ensures IsSortOf(pods, sorted)
  {
    ApartPermutes(CordonTie, pods, sorted);
    SortedIffByKey(sorted);
  }

  lemma NotOvertaken(pods: seq<Pod>, second: seq<Pod>, q: Pod, k: nat)
    requires Apart(SameUid, pods) && StrictOn(pods) && IsSortOf(pods, second) && k <= |second|
    requires q in pods && |Before(pods, q)| >= k
    ensures q.uid !in Uids(second[..k])
  {
    ApartPermutes(SameUid, pods, second);
    assert q in multiset(pods);
    var i := PlaceOf(second, q);
    if i < k {
      forall u | u in Before(pods, q) ensures u in Uids(second[..i]) {
        var x :| x in pods && x.uid != q.uid && Less(x, q) && x.uid == u;
        assert x in multiset(pods);
        var j := PlaceOf(second, x);
        assert second[j] in second[..i];
      }
      SubsetSize(Before(pods, q), Uids(second[..i]));
      UidsSize(second[..i]);
    }
    OnlyPlace(second, i, k);
  }

  lemma OnlyPlace(s: seq<Pod>, i: nat, k: nat)
    requires Apart(SameUid, s) && k <= i < |s|
    ensures s[i].uid !in Uids(s[..k])
  {
    forall p | p in s[..k] ensures p.uid != s[i].uid {
      var j :| 0 <= j < k && s[j] == p;
      assert !SameUid(s[j], s[i]);
    }
  }

  /** By key, and of equal keys the pod of that UID first. */
  predicate Ahead(uid: nat, p: Pod, r: Pod) {
    KeyLess(KeyOf(p), KeyOf(r)) || (KeyOf(p) == KeyOf(r) && (p.uid == uid || r.uid != uid))
  }

  lemma AheadPreorder(uid: nat)
    ensures TotalPreorder((p, r) => Ahead(uid, p, r))
  {
    forall p, r ensures Ahead(uid, p, r) || Ahead(uid, r, p) {
      KeysSameShape(p, r);
      KeyLessTotal(KeyOf(p), KeyOf(r));
    }
    forall p, q, r | Ahead(uid, p, q) && Ahead(uid, q, r) ensures Ahead(uid, p, r) {
      if KeyLess(KeyOf(p), KeyOf(q)) && KeyLess(KeyOf(q), KeyOf(r)) {
        KeyLessTransitive(KeyOf(p), KeyOf(q), KeyOf(r));
      }
    }
  }

  lemma AheadIsAtMost(uid: nat, p: Pod, r: Pod)
    requires Ahead(uid, p, r)
    ensures KeyAtMost(p, r)
  {
    KeyLessIrreflexive(KeyOf(p));
    if KeyLess(KeyOf(p), KeyOf(r)) && KeyLess(KeyOf(r), KeyOf(p)) {
      KeyLessTransitive(KeyOf(p), KeyOf(r), KeyOf(p));
    }
  }

  /** A pod with fewer than `k` before it is among the first `k` of some sort. */
  lemma Overtakes(pods: seq<Pod>, q: Pod, k: nat) returns (second: seq<Pod>)
    requires Apart(SameUid, pods) && StrictOn(pods) && q in pods && |Before(pods, q)| < k <= |pods|
    ensures IsSortOf(pods, second) && |second| == |pods| && q.uid in Uids(second[..k])
  {
    AheadPreorder(q.uid);
    second := InsertionSort((p, r) => Ahead(q.uid, p, r), pods);
    assert |multiset(second)| == |multiset(pods)|;
    forall i, j | 0 <= i < j < |second| ensures KeyAtMost(second[i], second[j]) {
      AheadIsAtMost(q.uid, second[i], second[j]);
    }
    SortedByKeyIsSort(pods, second);
    assert q in multiset(pods);
    var i := PlaceOf(second, q);
    AheadOfHim(pods, second, i);
    assert i < k;
    assert second[i] in second[..k];
  }

  lemma AheadOfHim(pods: seq<Pod>, second: seq<Pod>, i: nat)
    requires Apart(SameUid, pods) && StrictOn(pods) && multiset(second) == multiset(pods) && i < |second|
    requires forall a, b :: 0 <= a < b < |second| ==> Ahead(second[i].uid, second[a], second[b])
    ensures i <= |Before(pods, second[i])|
  {
    var q := second[i];
    ApartPermutes(SameUid, pods, second);
    ApartPermutes(CordonTie, pods, second);
    forall u | u in Uids(second[..i]) ensures u in Before(pods, q) {
      var x :| x in second[..i] && x.uid == u;
      var j :| 0 <= j < i && second[j] == x;
      assert !SameUid(second[j], second[i]) && Ahead(q.uid, second[j], second[i]);
      LessIsKeyLess(x, q);
      assert x in multiset(second);
    }
    SubsetSize(Uids(second[..i]), Before(pods, q));
    PrefixUids(second, i);
  }

  lemma PrefixUids(s: seq<Pod>, k: nat)
    requires Apart(SameUid, s) && k <= |s|
    ensures |Uids(s[..k])| == k
  {
    UidsSize(s[..k]);
  }

  /** Where sorting promises nothing, any pod can come first. */
  lemma AnyoneFirst(pods: seq<Pod>, q: Pod, k: nat) returns (second: seq<Pod>)
    requires !StrictOn(pods) && q in pods && 0 < k <= |pods|
    ensures IsSortOf(pods, second) && |second| == |pods| && q.uid in Uids(second[..k])
  {
    assert q in multiset(pods);
    var i := PlaceOf(pods, q);
    WithoutOne(pods, i);
    second := [q] + Without(pods, i);
    assert second[..k][0] == q;
  }

  /** Exactly when the first `k` pods of a list hold none of the kept ones, however the list is
      sorted: for every list of distinct pods, cordon ties or not. */
  lemma SparedIff(pods: seq<Pod>, kept: set<nat>, k: nat)
    requires Apart(SameUid, pods) && k <= |pods|
    ensures (forall second :: IsSortOf(pods, second) && |second| == |pods| ==> Uids(second[..k]) !! kept)
       <==> Spared(pods, kept, k)
  {
    if Spared(pods, kept, k) {
      forall second | IsSortOf(pods, second) && |second| == |pods| ensures Uids(second[..k]) !! kept {
        SparedHolds(pods, kept, k, second);
      }
    } else if StrictOn(pods) {
      var q :| q in pods && q.uid in kept && |Before(pods, q)| < k;
      var second := Overtakes(pods, q, k);
      assert !(Uids(second[..k]) !! kept);
    } else {
      var u :| u in Uids(pods) && u in kept;
      var q :| q in pods && q.uid == u;
      var second := AnyoneFirst(pods, q, k);
      assert !(Uids(second[..k]) !! kept);
    }
  }

  lemma SparedHolds(pods: seq<Pod>, kept: set<nat>, k: nat, second: seq<Pod>)
    requires Apart(SameUid, pods) && Spared(pods, kept, k) && IsSortOf(pods, second) && k <= |second|
    ensures Uids(second[..k]) !! kept
  {
    forall u | u in Uids(second[..k]) ensures u !in kept {
      var p :| p in second[..k] && p.uid == u;
      assert p in multiset(second);
      assert p in pods && u in Uids(pods);
      if StrictOn(pods) && u in kept { NotOvertaken(pods, second, p, k); }
    }
  }

  /** Taking more pods than were held back takes a kept one, whatever the orders. */
  lemma OverlapWhenLarger(first: seq<Pod>, k1: nat, second: seq<Pod>, k2: nat)
    requires Apart(SameUid, first) && Apart(SameUid, second) && Uids(second) <= Uids(first)
    requires k1 < k2 <= |second| && k1 <= |first|
    ensures !(Uids(second[..k2]) !! Uids(first[k1..]))
  {
    PrefixUids(second, k2);
    PrefixUids(first, k1);
    assert first == first[..k1] + first[k1..] && second == second[..k2] + second[k2..];
    UidsConcat(first[..k1], first[k1..]);
    UidsConcat(second[..k2], second[k2..]);
    if Uids(second[..k2]) !! Uids(first[k1..]) {
      SubsetSize(Uids(second[..k2]), Uids(first[..k1]));
    }
  }

  // ---- The cut of a strict order ----

  /** No tie reaches across the cut: the first `k2` pods come strictly before all that were kept. */
  ghost predicate CutDecided(first: seq<Pod>, k1: nat, k2: nat) {
    forall i, j :: 0 <= i < k2 && i < |first| && k1 <= j < |first| ==> Less(first[i], first[j])
  }

  lemma StrictAfterUncordon(olds: seq<Pod>, ids: set<nat>)
    requires StrictOn(olds)
    ensures StrictOn(Uncordoned(olds, ids))
  {
  }

  lemma UncordonRaisesKey(p: Pod, ids: set<nat>)
    ensures KeyAtMost(p, UncordonOne(p, ids))
  {
    var a, b := KeyOf(p), KeyOf(UncordonOne(p, ids));
    KeyLessIrreflexive(a);
    var c, d := a.rest.rest.rest.rest.rest, b.rest.rest.rest.rest.rest;
    KeyHead(b.first, b.rest, a.first, a.rest);
    KeyHead(b.rest.first, b.rest.rest, a.rest.first, a.rest.rest);
    KeyHead(b.rest.rest.first, b.rest.rest.rest, a.rest.rest.first, a.rest.rest.rest);
    KeyHead(b.rest.rest.rest.first, b.rest.rest.rest.rest, a.rest.rest.rest.first, a.rest.rest.rest.rest);
    KeyHead(b.rest.rest.rest.rest.first, d, a.rest.rest.rest.rest.first, c);
    KeyHead(d.first, d.rest, c.first, c.rest);
    KeyLessIrreflexive(c.rest);
  }

  /** Two tied places of a sorted list have one key and are not cordoned. */
  lemma TieHasOneKey(first: seq<Pod>, i: nat, j: nat)
    requires StrictOn(first) && SortedBy(KeyAtMost, first) && i < j < |first| && !Less(first[i], first[j])
    ensures KeyOf(first[i]) == KeyOf(first[j]) && !first[i].cordoned && !first[j].cordoned
  {
    var p, q := first[i], first[j];
    LessIsKeyLess(p, q);
    LessIsKeyLess(q, p);
    KeysSameShape(p, q);
    KeyLessTotal(KeyOf(p), KeyOf(q));
    assert KeyAtMost(p, q);
  }

  /** Where Less is strict on the old pods, what was kept is spared exactly when the update takes no
      more than were held back and no tie reaches across the cut. */
  lemma SparedByCutIff(olds: seq<Pod>, first: seq<Pod>, k1: nat, ids: set<nat>, k2: nat)
    requires Apart(SameUid, olds) && StrictOn(olds) && IsSortOf(olds, first) && k1 <= |first|
    requires ids <= Uids(first[k1..]) && k2 <= |first|
    ensures Spared(Uncordoned(olds, ids), Uids(first[k1..]), k2) <==> k2 <= k1 && CutDecided(first, k1, k2)
  {
    var after, kept := Uncordoned(olds, ids), Uids(first[k1..]);
    assert |multiset(first)| == |multiset(olds)|;
    StrictAfterUncordon(olds, ids);
    ApartPermutes(SameUid, olds, first);
    if k2 > k1 {
      var second := SortExists(after);
      LargerIsNotSpared(olds, first, k1, ids, second, k2);
    } else if CutDecided(first, k1, k2) {
      forall q | q in after && q.uid in kept ensures |Before(after, q)| >= k2 {
        DecidedAreBefore(olds, first, k1, ids, k2, q);
      }
    } else {
      var i, j :| 0 <= i < k2 && i < |first| && k1 <= j < |first| && !Less(first[i], first[j]);
      TieIsEarly(olds, first, k1, ids, i, j);
      assert first[j] in first[k1..];
    }
  }

  lemma LargerIsNotSpared(olds: seq<Pod>, first: seq<Pod>, k1: nat, ids: set<nat>, second: seq<Pod>, k2: nat)
    requires Apart(SameUid, olds) && multiset(first) == multiset(olds) && IsSortOf(Uncordoned(olds, ids), second)
    requires k1 < k2 <= |first|
    ensures !Spared(Uncordoned(olds, ids), Uids(first[k1..]), k2)
  {
    var after := Uncordoned(olds, ids);
    assert |multiset(first)| == |multiset(olds)| && |multiset(second)| == |multiset(after)|;
    ApartPermutes(SameUid, olds, first);
    ApartPermutes(SameUid, after, second);
    SameUids(olds, first);
    UidsOfUncordoned(olds, ids, second);
    assert second[..|second|] == second;
    OverlapWhenLarger(first, k1, second, k2);
    if Spared(after, Uids(first[k1..]), k2) { SparedHolds(after, Uids(first[k1..]), k2, second); }
  }

  lemma DecidedAreBefore(olds: seq<Pod>, first: seq<Pod>, k1: nat, ids: set<nat>, k2: nat, q: Pod)
    requires Apart(SameUid, olds) && Apart(SameUid, first) && multiset(first) == multiset(olds)
    requires k2 <= k1 <= |first| && ids <= Uids(first[k1..]) && CutDecided(first, k1, k2)
    requires q in Uncordoned(olds, ids) && q.uid in Uids(first[k1..])
    ensures |Before(Uncordoned(olds, ids), q)| >= k2
  {
    var after := Uncordoned(olds, ids);
    var j := KeptPlace(olds, first, k1, ids, q);
    forall u | u in Uids(first[..k2]) ensures u in Before(after, q) {
      var x :| x in first[..k2] && x.uid == u;
      var i :| 0 <= i < k2 && first[i] == x;
      assert !SameUid(first[i], first[j]);
      UncordonOneLater(x, first[j], ids);
      HeldBackStays(olds, first, k1, ids, i);
    }
    SubsetSize(Uids(first[..k2]), Before(after, q));
    PrefixUids(first, k2);
  }

  /** Where a kept pod of the uncordoned list stood at first. */
  lemma KeptPlace(olds: seq<Pod>, first: seq<Pod>, k1: nat, ids: set<nat>, q: Pod) returns (j: nat)
    requires Apart(SameUid, first) && multiset(first) == multiset(olds) && k1 <= |first|
    requires q in Uncordoned(olds, ids) && q.uid in Uids(first[k1..])
    ensures k1 <= j < |first| && q == UncordonOne(first[j], ids)
  {
    var after := Uncordoned(olds, ids);
    var o :| 0 <= o < |after| && after[o] == q;
    assert olds[o] in multiset(olds);
    j := PlaceOf(first, olds[o]);
    var p :| p in first[k1..] && p.uid == q.uid;
    var m :| k1 <= m < |first| && first[m] == p;
    SamePlace(first, j, m);
  }

  lemma SamePlace(s: seq<Pod>, i: nat, j: nat)
    requires Apart(SameUid, s) && i < |s| && j < |s| && s[i].uid == s[j].uid
    ensures i == j
  {
  }

  /** A pod that was held back is not uncordoned. */
  lemma HeldBackStays(olds: seq<Pod>, first: seq<Pod>, k1: nat, ids: set<nat>, i: nat)
    requires Apart(SameUid, first) && multiset(first) == multiset(olds)
    requires i < k1 <= |first| && ids <= Uids(first[k1..])
    ensures first[i] in Uncordoned(olds, ids)
  {
    assert first[i] in multiset(first);
    var o := PlaceOf(olds, first[i]);
    assert first[i] in first[..k1];
    HeadNotInTail(first, k1, first[i].uid);
    assert Uncordoned(olds, ids)[o] == first[i];
  }

  /** A kept pod tied with one at place `i` has at most `i` pods before it. */
  lemma TieIsEarly(olds: seq<Pod>, first: seq<Pod>, k1: nat, ids: set<nat>, i: nat, j: nat)
    requires Apart(SameUid, olds) && StrictOn(olds) && IsSortOf(olds, first)
    requires i < k1 <= j < |first| && !Less(first[i], first[j])
    ensures first[j] in Uncordoned(olds, ids) && |Before(Uncordoned(olds, ids), first[j])| <= i
  {
    var q, after := first[j], Uncordoned(olds, ids);
    ApartPermutes(CordonTie, olds, first);
    SortedIffByKey(first);
    TieHasOneKey(first, i, j);
    assert q in multiset(first);
    var o := PlaceOf(olds, q);
    assert after[o] == q;
    forall u | u in Before(after, q) ensures u in Uids(first[..i]) {
      var x :| x in after && x.uid != q.uid && Less(x, q) && x.uid == u;
      var t := BeforeTie(olds, first, ids, i, j, x);
      assert first[t] in first[..i];
    }
    SubsetSize(Before(after, q), Uids(first[..i]));
    UidsSize(first[..i]);
  }

  lemma BeforeTie(olds: seq<Pod>, first: seq<Pod>, ids: set<nat>, i: nat, j: nat, x: Pod) returns (t: nat)
    requires multiset(first) == multiset(olds) && SortedBy(KeyAtMost, first) && i < j < |first|
    requires KeyOf(first[i]) == KeyOf(first[j]) && !first[j].cordoned
    requires x in Uncordoned(olds, ids) && Less(x, first[j])
    ensures t < i && first[t].uid == x.uid
  {
    var q := first[j];
    var after := Uncordoned(olds, ids);
    var o :| 0 <= o < |after| && after[o] == x;
    assert olds[o] in multiset(olds);
    t := PlaceOf(first, olds[o]);
    LessIsKeyLess(x, q);
    UncordonRaisesKey(first[t], ids);
    if t >= i { AtMostLater(first, i, t, x); }
  }

  lemma AtMostLater(first: seq<Pod>, i: nat, t: nat, x: Pod)
    requires SortedBy(KeyAtMost, first) && i <= t < |first| && KeyAtMost(first[t], x)
    ensures KeyAtMost(first[i], x)
  {
    if i < t { KeyAtMostTransitive(first[i], first[t], x); }
  }

  lemma HeadNotInTail(s: seq<Pod>, k: nat, u: nat)
    requires Apart(SameUid, s) && k <= |s| && u in Uids(s[..k])
    ensures u !in Uids(s[k..])
  {
    var p :| p in s[..k] && p.uid == u;
    var i :| 0 <= i < k && s[i] == p;
    assert forall j :: k <= j < |s| ==> !SameUid(s[i], s[j]);
    assert forall j :: 0 <= j < |s[k..]| ==> s[k..][j] == s[k + j];
  }

  /** Daemon pods made at once are such a tie: of two pods alike but for UID and name, one of which was
      kept, the update may take either. */
  lemma TiedPodsMaySwap(p: Pod, q: Pod)
    requires p.uid != q.uid && !p.cordoned && q == p.(uid := q.uid, name := q.name)
    ensures Apart(SameUid, [p, q]) && StrictOn([p, q]) && IsSortOf([p, q], [p, q]) && IsSortOf([p, q], [q, p])
    ensures !Spared([p, q], {q.uid}, 1)
  {
    KeyLessIrreflexive(KeyOf(p));
    LessIsKeyLess(p, q);
    LessIsKeyLess(q, p);
    assert multiset([q, p]) == multiset([p, q]);
    assert Before([p, q], q) == {};
    assert q in [p, q];
  }

  /** And two cordoned pods that are still draining are a cordon tie, where nothing is spared. */
  lemma CordonTieSparesNothing(pods: seq<Pod>, i: nat, j: nat, kept: set<nat>, k: nat)
    requires i < j < |pods| && CordonTie(pods[i], pods[j])
    ensures Spared(pods, kept, k) <==> k == 0 || Uids(pods) !! kept
  {
  }

  // ---- The two splits of one reconcile ----

  lemma {:induction false} OldPodsUncordoned(pods: seq<Pod>, ids: set<nat>, hash: string)
    ensures OldPods(Uncordoned(pods, ids), hash) == Uncordoned(OldPods(pods, hash), ids)
  {
    if pods != [] {
      var n := |pods| - 1;
      OldPodsUncordoned(pods[..n], ids, hash);
      assert Uncordoned(pods, ids)[..n] == Uncordoned(pods[..n], ids);
      var before := OldPods(pods[..n], hash);
      assert Uncordoned(before + [pods[n]], ids) == Uncordoned(before, ids) + [UncordonOne(pods[n], ids)];
    }
  }

  lemma {:induction false} CountUnhealthyUncordoned(pods: seq<Pod>, ids: set<nat>)
    ensures CountUnhealthy(Uncordoned(pods, ids)) == CountUnhealthy(pods)
  {
    if pods != [] {
      CountUnhealthyUncordoned(pods[1..], ids);
      assert Uncordoned(pods, ids)[1..] == Uncordoned(pods[1..], ids);
    }
  }

  /** New and old pods of a list have different UIDs, and so have any two old ones. */
  lemma OldAndNewApart(pods: seq<Pod>, hash: string)
    requires Apart(SameUid, pods)
    ensures Apart(SameUid, OldPods(pods, hash))
    ensures Uids(OldPods(pods, hash)) !! Uids(NewPods(pods, hash))
  {
    OldApart(pods, hash);
    forall u | u in Uids(OldPods(pods, hash)) ensures u !in Uids(NewPods(pods, hash)) {
      var p :| p in OldPods(pods, hash) && p.uid == u;
      forall q | q in NewPods(pods, hash) ensures q.uid != u {
        SameUidSamePod(pods, p, q);
      }
    }
  }

  lemma SameUidSamePod(pods: seq<Pod>, p: Pod, q: Pod)
    requires Apart(SameUid, pods) && p in pods && q in pods
    ensures p.uid == q.uid ==> p == q
  {
    var i :| 0 <= i < |pods| && pods[i] == p;
    var j :| 0 <= j < |pods| && pods[j] == q;
    assert i < j ==> !SameUid(pods[i], pods[j]);
    assert j < i ==> !SameUid(pods[j], pods[i]);
  }

  lemma {:induction false} OldApart(pods: seq<Pod>, hash: string)
    requires Apart(SameUid, pods)
    ensures Apart(SameUid, OldPods(pods, hash))
  {
    if pods != [] {
      var n := |pods| - 1;
      OldApart(pods[..n], hash);
      var before := OldPods(pods[..n], hash);
      forall i | 0 <= i < |before| ensures !SameUid(before[i], pods[n]) {
        assert before[i] in pods[..n];
        var k :| 0 <= k < n && pods[k] == before[i];
      }
    }
  }

  /** Only the old pods among the uncordoned ones matter to the old pods. */
  lemma UncordonOldOnly(olds: seq<Pod>, ids: set<nat>, some: set<nat>)
    requires forall p :: p in olds ==> (p.uid in ids <==> p.uid in some)
    ensures Uncordoned(olds, ids) == Uncordoned(olds, some)
  {
  }

  lemma SortOfPermutation(a: seq<Pod>, b: seq<Pod>, sorted: seq<Pod>)
    requires multiset(a) == multiset(b) && IsSortOf(b, sorted)
    ensures IsSortOf(a, sorted)
  {
    if StrictOn(a) { ApartPermutes(CordonTie, a, b); }
  }

  /** What a reconcile's update does to what its uncordons kept: the old pods kept are spared, however
      ties are sorted, exactly under this condition; new pods always are. */
  ghost predicate KeepsSpared(spec: Spec, pods: seq<Pod>, hash: string, first: seq<Pod>, ids: set<nat>) {
    var n := Budget(spec, Total(spec, pods), Unavailable(NewPods(pods, hash)), |first|);
    Spared(OldPods(Uncordoned(pods, ids), hash), Uids(first[n..]), UpdateBudget(spec, |first|))
  }

  /** The doPodProcessing branch of one reconcile: the split that decides what to uncordon, the
      uncordons, and the update step on the pods as they are then. With every old pod healthy the
      update condemns no pod that was just kept, if those are spared. */
  method UpdateAfterUncordon(
    spec: Spec, pods: seq<Pod>, hash: string, first: seq<Pod>, ids: set<nat>, byAge: seq<Pod>, second: seq<Pod>)
    returns (podsToKeep: seq<Pod>, unhealthy: seq<Pod>, podsToDelete: seq<Pod>)
    requires spec.strategy == RollingUpdateType && IsSortOf(OldPods(pods, hash), first)
    requires var n := Budget(spec, Total(spec, pods), Unavailable(NewPods(pods, hash)), |first|);
             ids <= Uids(NewPods(pods, hash) + first[n..])
    requires var olds := OldPods(Uncordoned(pods, ids), hash);
             IsAgeSort(olds, byAge) && |byAge| == |olds| && IsSortOf(byAge[CountUnhealthy(olds)..], second)
    ensures var n := Budget(spec, Total(spec, pods), Unavailable(NewPods(pods, hash)), |first|);
            podsToKeep == NewPods(pods, hash) + first[n..]
    ensures |unhealthy| == CountUnhealthy(OldPods(pods, hash)) && |unhealthy| <= |byAge|
    ensures unhealthy == byAge[..|unhealthy|] && podsToDelete == second[..UpdateBudget(spec, |second|)]
    ensures Apart(SameUid, pods) && CountUnhealthy(OldPods(pods, hash)) == 0
            && KeepsSpared(spec, pods, hash, first, ids)
            ==> unhealthy == [] && Uids(podsToDelete) !! Uids(podsToKeep)
  {
    var held, condemned;
    held, podsToKeep := SplitUpdatePods(spec, pods, hash, first);
    unhealthy, podsToDelete, condemned := SyncRollingUpdate(spec, Uncordoned(pods, ids), hash, byAge, second);
    OldPodsUncordoned(pods, ids, hash);
    CountUnhealthyUncordoned(OldPods(pods, hash), ids);
    if Apart(SameUid, pods) && CountUnhealthy(OldPods(pods, hash)) == 0 && KeepsSpared(spec, pods, hash, first, ids) {
      assert byAge[0..] == byAge;
      UpdateSparesKept(spec, pods, hash, first, ids, byAge, second);
    }
  }

  /** The update spares what was kept, in both scaling modes. */
  lemma UpdateSparesKept(
    spec: Spec, pods: seq<Pod>, hash: string, first: seq<Pod>, ids: set<nat>, byAge: seq<Pod>, second: seq<Pod>)
    requires Apart(SameUid, pods) && IsSortOf(OldPods(pods, hash), first) && KeepsSpared(spec, pods, hash, first, ids)
    requires multiset(byAge) == multiset(OldPods(Uncordoned(pods, ids), hash)) && IsSortOf(byAge, second)
    ensures var n := Budget(spec, Total(spec, pods), Unavailable(NewPods(pods, hash)), |first|);
            |second| == |first| &&
            Uids(second[..UpdateBudget(spec, |second|)]) !! Uids(NewPods(pods, hash) + first[n..])
  {
    var olds, after := OldPods(pods, hash), OldPods(Uncordoned(pods, ids), hash);
    var n := Budget(spec, Total(spec, pods), Unavailable(NewPods(pods, hash)), |first|);
    OldAndNewApart(pods, hash);
    OldPodsUncordoned(pods, ids, hash);
    SortOfPermutation(after, byAge, second);
    SameSize(first, olds);
    SameSize(second, after);
    SparesAlsoNew(olds, ids, NewPods(pods, hash), first[n..], second, UpdateBudget(spec, |first|));
  }

  lemma SameSize(a: seq<Pod>, b: seq<Pod>)
    requires multiset(a) == multiset(b)
    ensures |a| == |b|
  {
    assert |multiset(a)| == |multiset(b)|;
  }

  lemma SparesAlsoNew(olds: seq<Pod>, ids: set<nat>, news: seq<Pod>, kept: seq<Pod>, second: seq<Pod>, k: nat)
    requires Apart(SameUid, olds) && Uids(olds) !! Uids(news) && k <= |second|
    requires IsSortOf(Uncordoned(olds, ids), second) && Spared(Uncordoned(olds, ids), Uids(kept), k)
    ensures Uids(second[..k]) !! Uids(news + kept)
  {
    SparedHolds(Uncordoned(olds, ids), Uids(kept), k, second);
    UidsConcat(news, kept);
    UidsOfUncordoned(olds, ids, second);
  }

  /** Update and uncordon do not fight, in both scaling modes: with distinct UIDs, an order that is
      strict on the old pods and decided across the cut, and every new pod available. */
  lemma UpdateDoesNotFightUncordon(spec: Spec, pods: seq<Pod>, hash: string, first: seq<Pod>, ids: set<nat>)
    requires Apart(SameUid, pods) && StrictOn(OldPods(pods, hash)) && Unavailable(NewPods(pods, hash)) == 0
    requires IsSortOf(OldPods(pods, hash), first)
    requires var k1 := Budget(spec, Total(spec, pods), 0, |first|);
             CutDecided(first, k1, UpdateBudget(spec, |first|)) && ids <= Uids(NewPods(pods, hash) + first[k1..])
    ensures KeepsSpared(spec, pods, hash, first, ids)
  {
    var olds, news := OldPods(pods, hash), NewPods(pods, hash);
    var k1 := Budget(spec, Total(spec, pods), 0, |first|);
    assert |multiset(first)| == |multiset(olds)|;
    OldAndNewApart(pods, hash);
    OldPodsUncordoned(pods, ids, hash);
    var mine := ids * Uids(first[k1..]);
    UidsConcat(news, first[k1..]);
    SameUids(olds, first);
    UncordonOldOnly(olds, ids, mine);
    BudgetsAgree(spec, pods, hash, |olds|);
    SparedByCutIff(olds, first, k1, mine, UpdateBudget(spec, |olds|));
  }

  lemma UidsConcat(a: seq<Pod>, b: seq<Pod>)
    ensures Uids(a + b) == Uids(a) + Uids(b)
  {
    assert forall p :: p in a + b <==> p in a || p in b;
  }

  lemma SameUids(a: seq<Pod>, b: seq<Pod>)
    requires multiset(a) == multiset(b)
    ensures Uids(a) == Uids(b)
  {
    assert forall p :: p in a <==> p in multiset(a);
    assert forall p :: p in b <==> p in multiset(b);
  }

  /** Uncordoning and sorting leave the UIDs those of the old pods. */
  lemma UidsOfUncordoned(olds: seq<Pod>, ids: set<nat>, second: seq<Pod>)
    requires multiset(second) == multiset(Uncordoned(olds, ids))
    ensures forall k :: 0 <= k <= |second| ==> Uids(second[..k]) <= Uids(olds)
  {
    forall k, u | 0 <= k <= |second| && u in Uids(second[..k]) ensures u in Uids(olds) {
      var p :| p in second[..k] && p.uid == u;
      assert p in multiset(second);
      var m := PlaceOf(Uncordoned(olds, ids), p);
      assert olds[m] in olds && olds[m].uid == u;
    }
  }

  /** While a new pod is unavailable the two do fight: a StatefulSet-mode update with a positive
      budget and enough old pods condemns a pod that the same reconcile keeps uncordoned. */
  lemma FightWhileUnavailable(
    spec: Spec, olds: seq<Pod>, unavailable: nat, first: seq<Pod>, ids: set<nat>, second: seq<Pod>)
    requires spec.mode == StatefulSet && unavailable > 0 && Apart(SameUid, olds)
    requires 0 < ScaledValue(spec.maxUnavailable, spec.replicas) <= |olds| == |first| == |second|
    requires multiset(first) == multiset(olds) && multiset(second) == multiset(Uncordoned(olds, ids))
    ensures var k1, k2 := Budget(spec, spec.replicas, unavailable, |olds|), UpdateBudget(spec, |olds|);
            !(Uids(second[..k2]) !! Uids(first[k1..]))
  {
    ApartPermutes(SameUid, olds, first);
    ApartPermutes(SameUid, Uncordoned(olds, ids), second);
    SameUids(olds, first);
    UidsOfUncordoned(olds, ids, second);
    assert second[..|second|] == second;
    OverlapWhenLarger(first, Budget(spec, spec.replicas, unavailable, |olds|), second, UpdateBudget(spec, |olds|));
  }

  // ---- The other branches ----

  /** In a scale-in of old pods the reconcile uncordons all but the surplus, and the update at its end
      sees them all again, some cordoned by then: with a budget above the surplus it condemns a pod
      that was just uncordoned, whatever the orders. */
  lemma ScaleInFights(first: seq<Pod>, surplus: nat, second: seq<Pod>, budget: nat)
    requires Apart(SameUid, first) && Apart(SameUid, second) && Uids(second) == Uids(first)
    requires surplus < budget <= |second| && surplus <= |first|
    ensures !(Uids(second[..budget]) !! Uids(first[surplus..]))
  {
    OverlapWhenLarger(first, surplus, second, budget);
  }

  /** In DaemonSet mode a reconcile that creates or deletes uncordons every pod, so its update fights
      it exactly when it condemns any pod at all. */
  lemma DaemonScaleFightsIff(pods: seq<Pod>, condemned: seq<Pod>)
    requires Uids(condemned) <= Uids(pods)
    ensures Uids(condemned) !! Uids(pods) <==> condemned == []
  {
    if condemned != [] { assert condemned[0] in condemned && condemned[0].uid in Uids(condemned); }
  }
}
