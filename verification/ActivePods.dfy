/** The order in which pods are picked for deletion, and the splits built on it. */
module ActivePods {
  import opened MathUtils
  import opened Sets

  datatype PodPhase = Pending | Unknown | Running | Succeeded | Failed | NoPhase

  /** A pod with what the order looks at. Times count from the zero time, which is 0. */
  datatype Pod = Pod(
    uid: nat, name: string, nodeName: string, phase: PodPhase, ready: bool, readyTime: int,
    deletionCost: int, deadline: int, cordoned: bool, ordinal: int, created: int,
    terminating: bool, revision: string, available: bool)
  {
    predicate Healthy() { phase.Running? && ready && !terminating }
  }

  function PhaseWeight(p: PodPhase): int {
    match p case Unknown => 1 case Running => 2 case _ => 0
  }

  predicate AfterOrZero(t1: int, t2: int) {
    if t1 == 0 || t2 == 0 then t1 == 0 else t1 > t2
  }

  /** Less: the first pod is preferred for deletion. */
  predicate Less(p: Pod, q: Pod) {
    if p.nodeName != q.nodeName && (p.nodeName == "" || q.nodeName == "") then p.nodeName == ""
    else if PhaseWeight(p.phase) != PhaseWeight(q.phase) then PhaseWeight(p.phase) < PhaseWeight(q.phase)
    else if p.ready != q.ready then !p.ready
    else if p.deletionCost != q.deletionCost then p.deletionCost < q.deletionCost
    else if p.deadline != q.deadline then p.deadline < q.deadline
    else if p.cordoned || q.cordoned then p.cordoned
    else if p.ordinal != q.ordinal then p.ordinal > q.ordinal
    else if p.ready && q.ready && p.readyTime != q.readyTime then AfterOrZero(p.readyTime, q.readyTime)
    else if p.created != q.created then AfterOrZero(p.created, q.created)
    else false
  }

  // ---- Reference: a lexicographic order on integer keys ----

  datatype Key = End | Then(first: int, rest: Key)

  predicate KeyLess(a: Key, b: Key) {
    a.Then? && b.Then? &&
    if a.first != b.first then a.first < b.first else KeyLess(a.rest, b.rest)
  }

  ghost predicate SameShape(a: Key, b: Key) {
    if a.Then? then b.Then? && SameShape(a.rest, b.rest) else b.End?
  }

  function Flag(b: bool): int { if b then 1 else 0 }

  /** The keys compared after the cordon key. */
  function LateKey(p: Pod): Key {
    var readyTime := if p.ready then p.readyTime else 0;
    Then(-p.ordinal,
      Then(Flag(readyTime != 0), Then(-readyTime,
        Then(Flag(p.created != 0), Then(-p.created, End)))))
  }

  function KeyOf(p: Pod): Key {
    Then(Flag(p.nodeName != ""), Then(PhaseWeight(p.phase), Then(Flag(p.ready),
      Then(p.deletionCost, Then(p.deadline, Then(Flag(!p.cordoned), LateKey(p)))))))
  }

  /** Two cordoned pods that no earlier key tells apart. */
  predicate CordonTie(p: Pod, q: Pod) {
    && p.cordoned && q.cordoned
    && (p.nodeName == "" <==> q.nodeName == "") && PhaseWeight(p.phase) == PhaseWeight(q.phase)
    && p.ready == q.ready && p.deletionCost == q.deletionCost && p.deadline == q.deadline
  }

  lemma KeyHead(a: int, x: Key, b: int, y: Key)
    ensures KeyLess(Then(a, x), Then(b, y)) == if a != b then a < b else KeyLess(x, y)
  {
  }

  lemma LateKeyLess(p: Pod, q: Pod)
    requires p.ready == q.ready
    ensures KeyLess(LateKey(p), LateKey(q)) ==
            if p.ordinal != q.ordinal then p.ordinal > q.ordinal
            else if p.ready && q.ready && p.readyTime != q.readyTime then AfterOrZero(p.readyTime, q.readyTime)
            else if p.created != q.created then AfterOrZero(p.created, q.created)
            else false
  {
    var a, b := LateKey(p), LateKey(q);
    KeyHead(a.first, a.rest, b.first, b.rest);
    KeyHead(a.rest.first, a.rest.rest, b.rest.first, b.rest.rest);
    var c, d := a.rest.rest, b.rest.rest;
    KeyHead(c.first, c.rest, d.first, d.rest);
    KeyHead(c.rest.first, c.rest.rest, d.rest.first, d.rest.rest);
    KeyHead(c.rest.rest.first, End, d.rest.rest.first, End);
  }

  /** Less is the lexicographic order on the keys, except between two cordoned pods tied before
      the cordon key; there it answers true both ways. */
  lemma LessIsKeyLess(p: Pod, q: Pod)
    ensures if CordonTie(p, q) then Less(p, q) && Less(q, p) else Less(p, q) == KeyLess(KeyOf(p), KeyOf(q))
  {
    var a, b := KeyOf(p), KeyOf(q);
    KeyHead(a.first, a.rest, b.first, b.rest);
    KeyHead(a.rest.first, a.rest.rest, b.rest.first, b.rest.rest);
    var c, d := a.rest.rest, b.rest.rest;
    KeyHead(c.first, c.rest, d.first, d.rest);
    KeyHead(c.rest.first, c.rest.rest, d.rest.first, d.rest.rest);
    var e, f := c.rest.rest, d.rest.rest;
    KeyHead(e.first, e.rest, f.first, f.rest);
    KeyHead(e.rest.first, LateKey(p), f.rest.first, LateKey(q));
    if p.ready == q.ready { LateKeyLess(p, q); }
  }

  lemma {:induction false} KeyLessIrreflexive(a: Key)
    ensures !KeyLess(a, a)
  {
    if a.Then? { KeyLessIrreflexive(a.rest); }
  }

  lemma {:induction false} KeyLessTransitive(a: Key, b: Key, c: Key)
    requires KeyLess(a, b) && KeyLess(b, c)
    ensures KeyLess(a, c)
  {
    if a.first == b.first == c.first { KeyLessTransitive(a.rest, b.rest, c.rest); }
  }

  lemma {:induction false} KeyLessTotal(a: Key, b: Key)
    requires SameShape(a, b)
    ensures a == b || KeyLess(a, b) || KeyLess(b, a)
  {
    if a.Then? && a.first == b.first { KeyLessTotal(a.rest, b.rest); }
  }

  lemma LateKeysSameShape(p: Pod, q: Pod)
    ensures SameShape(LateKey(p), LateKey(q))
  {
    var a, b := LateKey(p), LateKey(q);
    assert SameShape(a.rest.rest.rest.rest, b.rest.rest.rest.rest);
    assert SameShape(a.rest.rest.rest, b.rest.rest.rest);
    assert SameShape(a.rest.rest, b.rest.rest);
    assert SameShape(a.rest, b.rest);
  }

  lemma KeysSameShape(p: Pod, q: Pod)
    ensures SameShape(KeyOf(p), KeyOf(q))
  {
    LateKeysSameShape(p, q);
    var a, b := KeyOf(p), KeyOf(q);
    assert SameShape(a.rest.rest.rest.rest.rest, b.rest.rest.rest.rest.rest);
    assert SameShape(a.rest.rest.rest.rest, b.rest.rest.rest.rest);
    assert SameShape(a.rest.rest.rest, b.rest.rest.rest);
    assert SameShape(a.rest.rest, b.rest.rest);
    assert SameShape(a.rest, b.rest);
  }

  /** Exactly where Less fails to be an order. */
  lemma AsymmetricIff(p: Pod, q: Pod)
    ensures Less(p, q) && Less(q, p) <==> CordonTie(p, q)
    ensures Less(p, p) <==> p.cordoned
  {
    LessIsKeyLess(p, q);
    LessIsKeyLess(q, p);
    LessIsKeyLess(p, p);
    KeyLessIrreflexive(KeyOf(p));
    if KeyLess(KeyOf(p), KeyOf(q)) && KeyLess(KeyOf(q), KeyOf(p)) {
      KeyLessTransitive(KeyOf(p), KeyOf(q), KeyOf(p));
    }
  }

  /** Away from cordon ties Less is transitive, and so is being incomparable. */
  lemma StrictWeakOrder(p: Pod, q: Pod, r: Pod)
    requires !CordonTie(p, q) && !CordonTie(q, r) && !CordonTie(p, r)
    ensures Less(p, q) && Less(q, r) ==> Less(p, r)
    ensures !Less(p, q) && !Less(q, p) && !Less(q, r) && !Less(r, q) ==> !Less(p, r) && !Less(r, p)
  {
    LessIsKeyLess(p, q);
    LessIsKeyLess(q, p);
    LessIsKeyLess(q, r);
    LessIsKeyLess(r, q);
    LessIsKeyLess(p, r);
    LessIsKeyLess(r, p);
    var a, b, c := KeyOf(p), KeyOf(q), KeyOf(r);
    if KeyLess(a, b) && KeyLess(b, c) { KeyLessTransitive(a, b, c); }
    KeysSameShape(p, q);
    KeysSameShape(q, r);
    KeyLessTotal(a, b);
    KeyLessTotal(b, c);
    KeyLessIrreflexive(a);
  }

  // ---- What the order prefers ----

  /** An unassigned pod goes before an assigned one, whatever else they are. */
  lemma UnassignedFirst(p: Pod, q: Pod)
    requires p.nodeName == "" && q.nodeName != ""
    ensures Less(p, q) && !Less(q, p)
  {
  }

  /** Otherwise the phase decides first: a running pod goes last, one of unknown phase after any other
      that is not running. */
  lemma PhaseDecides(p: Pod, q: Pod)
    requires p.nodeName == "" <==> q.nodeName == ""
    ensures p.phase == Running && q.phase != Running ==> Less(q, p) && !Less(p, q)
    ensures p.phase == Unknown && q.phase != Running && q.phase != Unknown ==> Less(q, p) && !Less(p, q)
  {
  }

  /** The other keys, each deciding where all before it are equal: a pod that is not ready, the lower
      deletion cost, the earlier deadline, the cordoned pod, the higher ordinal, the one ready for
      less long, and the younger go first; a time that was never set goes before one that was. */
  lemma KeysDecide(p: Pod, q: Pod)
    requires (p.nodeName == "" <==> q.nodeName == "") && p.phase == q.phase
    ensures !p.ready && q.ready ==> Less(p, q) && !Less(q, p)
    ensures p.ready == q.ready ==>
              && (p.deletionCost < q.deletionCost ==> Less(p, q) && !Less(q, p))
              && (p.deletionCost == q.deletionCost && p.deadline < q.deadline ==> Less(p, q) && !Less(q, p))
              && (p.deletionCost == q.deletionCost && p.deadline == q.deadline && p.cordoned && !q.cordoned ==>
                    Less(p, q) && !Less(q, p))
  {
  }

  lemma LateKeysDecide(p: Pod, q: Pod)
    requires (p.nodeName == "" <==> q.nodeName == "") && p.phase == q.phase && p.ready == q.ready
    requires p.deletionCost == q.deletionCost && p.deadline == q.deadline && !p.cordoned && !q.cordoned
    ensures p.ordinal > q.ordinal ==> Less(p, q) && !Less(q, p)
    ensures p.ordinal == q.ordinal && p.ready && LaterOrUnset(p.readyTime, q.readyTime) ==> Less(p, q) && !Less(q, p)
    ensures p.ordinal == q.ordinal && (p.ready ==> p.readyTime == q.readyTime) ==>
              && (LaterOrUnset(p.created, q.created) ==> Less(p, q) && !Less(q, p))
              && (p.created == q.created ==> !Less(p, q) && !Less(q, p))
  {
  }

  predicate LaterOrUnset(s: int, t: int) { t != 0 && (s == 0 || s > t) }

  /** A cut never gives up a running pod while it keeps one that is neither running nor unknown, nor one
      of unknown phase while it keeps one that is neither. */
  ghost predicate RunningGoLast(pods1: seq<Pod>, pods2: seq<Pod>) {
    forall p, q :: p in pods1 && q in pods2 && q.phase != Running ==>
      p.phase != Running && (q.phase != Unknown ==> p.phase != Unknown)
  }

  lemma CutSparesRunning(pods1: seq<Pod>, pods2: seq<Pod>)
    requires forall p, q :: p in pods1 && q in pods2 ==> !Less(q, p)
    requires forall p :: p in pods1 + pods2 ==> p.nodeName != ""
    ensures RunningGoLast(pods1, pods2)
  {
    forall p, q | p in pods1 && q in pods2 && q.phase != Running
      ensures p.phase != Running && (q.phase != Unknown ==> p.phase != Unknown)
    {
      assert p in pods1 + pods2 && q in pods1 + pods2;
      PhaseDecides(p, q);
    }
  }

  // ---- Sorting ----

  /** No two pods of the list tie while cordoned: Less orders the list strictly. */
  ghost predicate StrictOn(pods: seq<Pod>) {
    forall i, j :: 0 <= i < j < |pods| ==> !CordonTie(pods[i], pods[j])
  }

  /** What sorting with Less gives: a permutation always, and an order if Less is one. */
  ghost predicate IsSortOf(pods: seq<Pod>, sorted: seq<Pod>) {
    && multiset(sorted) == multiset(pods)
    && (StrictOn(pods) ==> forall i, j :: 0 <= i < j < |sorted| ==> !Less(sorted[j], sorted[i]))
  }

  predicate KeyAtMost(p: Pod, q: Pod) { !KeyLess(KeyOf(q), KeyOf(p)) }

  lemma KeyAtMostTransitive(p: Pod, q: Pod, r: Pod)
    requires KeyAtMost(p, q) && KeyAtMost(q, r)
    ensures KeyAtMost(p, r)
  {
    KeysSameShape(p, q);
    KeyLessTotal(KeyOf(p), KeyOf(q));
    if KeyLess(KeyOf(r), KeyOf(p)) && KeyLess(KeyOf(p), KeyOf(q)) {
      KeyLessTransitive(KeyOf(r), KeyOf(p), KeyOf(q));
    }
  }

  lemma KeyAtMostPreorder()
    ensures TotalPreorder(KeyAtMost)
  {
    forall p, q ensures KeyAtMost(p, q) || KeyAtMost(q, p) {
      if KeyLess(KeyOf(p), KeyOf(q)) && KeyLess(KeyOf(q), KeyOf(p)) {
        KeyLessTransitive(KeyOf(p), KeyOf(q), KeyOf(p));
        KeyLessIrreflexive(KeyOf(p));
      }
    }
    forall p, q, r | KeyAtMost(p, q) && KeyAtMost(q, r) ensures KeyAtMost(p, r) {
      KeyAtMostTransitive(p, q, r);
    }
  }

  /** An order a list can be sorted by. */
  ghost predicate TotalPreorder(atMost: (Pod, Pod) -> bool) {
    && (forall p, q :: atMost(p, q) || atMost(q, p))
    && (forall p, q, r :: atMost(p, q) && atMost(q, r) ==> atMost(p, r))
  }

  ghost predicate SortedBy(atMost: (Pod, Pod) -> bool, s: seq<Pod>) {
    forall i, j :: 0 <= i < j < |s| ==> atMost(s[i], s[j])
  }

  ghost function Insert(atMost: (Pod, Pod) -> bool, p: Pod, s: seq<Pod>): (r: seq<Pod>)
    ensures multiset(r) == multiset(s) + multiset{p}
  {
    if s == [] || atMost(p, s[0]) then [p] + s
    else
      assert s == [s[0]] + s[1..];
      [s[0]] + Insert(atMost, p, s[1..])
  }

  lemma {:induction false} InsertSorted(atMost: (Pod, Pod) -> bool, p: Pod, s: seq<Pod>)
    requires TotalPreorder(atMost) && SortedBy(atMost, s)
    ensures SortedBy(atMost, Insert(atMost, p, s))
  {
    if s == [] {
    } else if atMost(p, s[0]) {
      assert forall j :: 0 <= j < |s| ==> atMost(p, s[j]);
    } else {
      InsertSorted(atMost, p, s[1..]);
      var rest := Insert(atMost, p, s[1..]);
      forall x | x in rest ensures atMost(s[0], x) {
        assert x in multiset(rest);
        assert x == p || x in s[1..];
      }
    }
  }

  lemma {:induction false} InsertionSort(atMost: (Pod, Pod) -> bool, pods: seq<Pod>) returns (sorted: seq<Pod>)
    requires TotalPreorder(atMost)
    ensures multiset(sorted) == multiset(pods) && SortedBy(atMost, sorted)
  {
    if pods == [] {
      sorted := [];
    } else {
      var rest := InsertionSort(atMost, pods[1..]);
      InsertSorted(atMost, pods[0], rest);
      sorted := Insert(atMost, pods[0], rest);
      assert pods == [pods[0]] + pods[1..];
    }
  }

  /** No two places of the list are related by `bad`. */
  ghost predicate Apart(bad: (Pod, Pod) -> bool, s: seq<Pod>) {
    forall i, j :: 0 <= i < j < |s| ==> !bad(s[i], s[j])
  }

  ghost predicate Symmetric(bad: (Pod, Pod) -> bool) {
    forall p, q :: bad(p, q) ==> bad(q, p)
  }

  /** Two places of a permutation come from two places of the original. */
  lemma ApartPermutes(bad: (Pod, Pod) -> bool, pods: seq<Pod>, sorted: seq<Pod>)
    requires Symmetric(bad) && Apart(bad, pods) && multiset(sorted) == multiset(pods)
    ensures Apart(bad, sorted)
  {
    forall i, j | 0 <= i < j < |sorted| ensures !bad(sorted[i], sorted[j]) {
      var p, q := sorted[i], sorted[j];
      assert sorted == sorted[..i] + [p] + sorted[i + 1..j] + [q] + sorted[j + 1..];
      assert multiset(pods) >= multiset{p, q};
      TwoPlaces(bad, pods, p, q);
    }
  }

  lemma TwoPlaces(bad: (Pod, Pod) -> bool, pods: seq<Pod>, p: Pod, q: Pod)
    requires Symmetric(bad) && Apart(bad, pods) && multiset(pods) >= multiset{p, q}
    ensures !bad(p, q)
  {
    var i := PlaceOf(pods, p);
    var others := Without(pods, i);
    WithoutOne(pods, i);
    var j := PlaceOf(others, q);
    var k := if j < i then j else j + 1;
    assert pods[k] == others[j] == q && k != i;
  }

  /** Every list has a sort result, so what is proved of all of them is not void. */
  lemma SortExists(pods: seq<Pod>) returns (sorted: seq<Pod>)
    ensures IsSortOf(pods, sorted)
  {
    KeyAtMostPreorder();
    sorted := InsertionSort(KeyAtMost, pods);
    if StrictOn(pods) {
      ApartPermutes(CordonTie, pods, sorted);
      forall i, j | 0 <= i < j < |sorted| ensures !Less(sorted[j], sorted[i]) {
        assert KeyAtMost(sorted[i], sorted[j]);
        LessIsKeyLess(sorted[j], sorted[i]);
      }
    }
  }

  // ---- Lists sorted in place ----

  /** A list of its own with the given pods. */
  method Slice(pods: seq<Pod>) returns (a: array<Pod>)
    ensures fresh(a) && a[..] == pods
  {
    a := new Pod[|pods|](i requires 0 <= i < |pods| => pods[i]);
  }

  /** What the library's sort does to a list: it leaves it in the order that sorting gave. */
  method SortInPlace(a: array<Pod>, sorted: seq<Pod>)
    requires multiset(sorted) == multiset(a[..])
    modifies a
    ensures a[..] == sorted
  {
    assert |multiset(sorted)| == |multiset(a[..])|;
    for i := 0 to a.Length
      invariant a[..i] == sorted[..i]
    {
      a[i] := sorted[i];
    }
  }

  /** SplitActivePods: sorts the caller's list in place, and copies its first `partition` pods,
      clamped, and the rest. */
  method SplitActivePods(pods: array<Pod>, partition: int, sorted: seq<Pod>)
    returns (pods1: seq<Pod>, pods2: seq<Pod>)
    requires IsSortOf(pods[..], sorted)
    modifies pods
    ensures pods[..] == sorted
    ensures var pivot := Clamp(partition, 0, pods.Length);
            pods1 == sorted[..pivot] && pods2 == sorted[pivot..]
    ensures multiset(pods1) + multiset(pods2) == multiset(old(pods[..]))
    ensures StrictOn(old(pods[..])) ==> forall p, q :: p in pods1 && q in pods2 ==> !Less(q, p)
    ensures StrictOn(old(pods[..])) && (forall p :: p in old(pods[..]) ==> p.nodeName != "") ==>
              RunningGoLast(pods1, pods2)
  {
    var pivot := Clamp(partition, 0, pods.Length);
    ghost var before := pods[..];
    SortInPlace(pods, sorted);
    pods1, pods2 := pods[..pivot], pods[pivot..];
    SplitOfSort(before, sorted, pivot);
    if StrictOn(before) && (forall p :: p in before ==> p.nodeName != "") {
      forall p | p in pods1 + pods2 ensures p.nodeName != "" {
        assert p in multiset(pods1) + multiset(pods2);
        assert p in multiset(before);
      }
      CutSparesRunning(pods1, pods2);
    }
  }

  /** Any cut of a sort result conserves the pods, and where Less is strict no pod behind the cut is
      preferred for deletion over one before it. */
  lemma SplitOfSort(pods: seq<Pod>, sorted: seq<Pod>, pivot: nat)
    requires IsSortOf(pods, sorted) && pivot <= |sorted|
    ensures multiset(sorted[..pivot]) + multiset(sorted[pivot..]) == multiset(pods)
    ensures StrictOn(pods) ==> forall p, q :: p in sorted[..pivot] && q in sorted[pivot..] ==> !Less(q, p)
  {
    assert sorted == sorted[..pivot] + sorted[pivot..];
    if StrictOn(pods) { FrontBeforeBack(sorted, pivot); }
  }

  lemma FrontBeforeBack(sorted: seq<Pod>, pivot: nat)
    requires pivot <= |sorted| && forall i, j :: 0 <= i < j < |sorted| ==> !Less(sorted[j], sorted[i])
    ensures forall p, q :: p in sorted[..pivot] && q in sorted[pivot..] ==> !Less(q, p)
  {
    forall p, q | p in sorted[..pivot] && q in sorted[pivot..] ensures !Less(q, p) {
      var i :| 0 <= i < pivot && sorted[i] == p;
      var j :| pivot <= j < |sorted| && sorted[j] == q;
    }
  }

  // ---- SplitUnhealthyPods ----

  function CountUnhealthy(pods: seq<Pod>): (n: nat)
    ensures n <= |pods|
  {
    if pods == [] then 0 else (if pods[0].Healthy() then 0 else 1) + CountUnhealthy(pods[1..])
  }

  lemma {:induction false} CountUnhealthyConcat(a: seq<Pod>, b: seq<Pod>)
    ensures CountUnhealthy(a + b) == CountUnhealthy(a) + CountUnhealthy(b)
  {
    if a == [] {
      assert a + b == b;
    } else {
      assert (a + b)[1..] == a[1..] + b;
      CountUnhealthyConcat(a[1..], b);
    }
  }

  /** A list without its element at `i`. */
  ghost function Without(s: seq<Pod>, i: nat): seq<Pod>
    requires i < |s|
  {
    s[..i] + s[i + 1..]
  }

  lemma WithoutOne(s: seq<Pod>, i: nat)
    requires i < |s|
    ensures multiset(Without(s, i)) == multiset(s) - multiset{s[i]}
  {
    assert s == s[..i] + [s[i]] + s[i + 1..];
  }

  lemma CountWithout(s: seq<Pod>, i: nat)
    requires i < |s|
    ensures CountUnhealthy(s) == CountUnhealthy(Without(s, i)) + (if s[i].Healthy() then 0 else 1)
  {
    SplitAt(s, i);
    CountAround(s[..i], s[i], s[i + 1..]);
  }

  lemma SplitAt(s: seq<Pod>, i: nat)
    requires i < |s|
    ensures s == s[..i] + ([s[i]] + s[i + 1..])
  {
  }

  lemma CountAround(a: seq<Pod>, p: Pod, b: seq<Pod>)
    ensures CountUnhealthy(a + ([p] + b)) == CountUnhealthy(a + b) + (if p.Healthy() then 0 else 1)
  {
    assert ([p] + b)[1..] == b;
    CountUnhealthyConcat(a, [p] + b);
    CountUnhealthyConcat(a, b);
  }

  lemma {:induction false} CountUnhealthyPermutes(a: seq<Pod>, b: seq<Pod>)
    requires multiset(a) == multiset(b)
    ensures CountUnhealthy(a) == CountUnhealthy(b)
    decreases |a|
  {
    if a == [] {
      assert |multiset(b)| == 0;
    } else {
      assert a[0] in multiset(b);
      var i :| 0 <= i < |b| && b[i] == a[0];
      CountWithout(a, 0);
      CountWithout(b, i);
      WithoutOne(a, 0);
      WithoutOne(b, i);
      CountUnhealthyPermutes(Without(a, 0), Without(b, i));
    }
  }

  // ---- Age ----

  /** Strings in byte order. */
  predicate StringLess(a: string, b: string) {
    b != "" && (a == "" || a[0] < b[0] || (a[0] == b[0] && StringLess(a[1..], b[1..])))
  }

  lemma {:induction false} StringLessTotal(a: string, b: string)
    ensures a == b || StringLess(a, b) || StringLess(b, a)
    ensures !(StringLess(a, b) && StringLess(b, a)) && !StringLess(a, a)
    decreases |a| + |b|
  {
    if a != "" && b != "" {
      StringLessTotal(a[1..], b[1..]);
      assert a == [a[0]] + a[1..] && b == [b[0]] + b[1..];
    }
    if a != "" { StringLessIrreflexive(a); }
  }

  lemma {:induction false} StringLessIrreflexive(a: string)
    ensures !StringLess(a, a)
  {
    if a != "" { StringLessIrreflexive(a[1..]); }
  }

  lemma {:induction false} StringLessTransitive(a: string, b: string, c: string)
    requires StringLess(a, b) && StringLess(b, c)
    ensures StringLess(a, c)
  {
    if a != "" && a[0] == b[0] == c[0] { StringLessTransitive(a[1..], b[1..], c[1..]); }
  }

  /** PodsByCreationTimestamp: created earlier, or at the same time under a smaller name. */
  predicate Older(p: Pod, q: Pod) {
    if p.created == q.created then StringLess(p.name, q.name) else p.created < q.created
  }

  predicate NotYounger(p: Pod, q: Pod) { !Older(q, p) }

  /** Age is a strict weak order on all pods, and tells pods of different names apart. */
  lemma AgeIsOrder(p: Pod, q: Pod, r: Pod)
    ensures !(Older(p, q) && Older(q, p))
    ensures p.name != q.name ==> Older(p, q) || Older(q, p)
    ensures Older(p, q) && Older(q, r) ==> Older(p, r)
    ensures NotYounger(p, q) && NotYounger(q, r) ==> NotYounger(p, r)
  {
    StringLessTotal(p.name, q.name);
    StringLessTotal(q.name, r.name);
    StringLessTotal(p.name, r.name);
    if StringLess(p.name, q.name) && StringLess(q.name, r.name) { StringLessTransitive(p.name, q.name, r.name); }
    if StringLess(r.name, p.name) && StringLess(p.name, q.name) { StringLessTransitive(r.name, p.name, q.name); }
    if StringLess(q.name, r.name) && StringLess(r.name, p.name) { StringLessTransitive(q.name, r.name, p.name); }
  }

  ghost predicate IsAgeSort(pods: seq<Pod>, sorted: seq<Pod>) {
    multiset(sorted) == multiset(pods) && SortedBy(NotYounger, sorted)
  }

  lemma AgeSortExists(pods: seq<Pod>) returns (sorted: seq<Pod>)
    ensures IsAgeSort(pods, sorted)
  {
    forall p, q, r
      ensures NotYounger(p, q) || NotYounger(q, p)
      ensures NotYounger(p, q) && NotYounger(q, r) ==> NotYounger(p, r)
    {
      AgeIsOrder(p, q, r);
    }
    sorted := InsertionSort(NotYounger, pods);
  }

  /** What older means: created earlier; and of pods created together, the smaller name, where a name
      comes before its extensions and otherwise the first character that differs decides. */
  lemma OlderMeans(p: Pod, q: Pod, front: string, a: char, rest: string, b: char, tail: string)
    ensures p.created < q.created ==> Older(p, q) && !Older(q, p)
    ensures p.created == q.created && p.name == front && q.name == front + [b] + tail ==> Older(p, q)
    ensures p.created == q.created && p.name == front + [a] + rest && q.name == front + [b] + tail && a < b ==>
              Older(p, q)
  {
    PrefixLess(front, [b] + tail);
    FirstDifferenceDecides(front, a, rest, b, tail);
    assert front + ([b] + tail) == front + [b] + tail;
  }

  lemma {:induction false} PrefixLess(front: string, tail: string)
    requires tail != ""
    ensures StringLess(front, front + tail)
  {
    if front != "" {
      assert (front + tail)[1..] == front[1..] + tail;
      PrefixLess(front[1..], tail);
    }
  }

  lemma {:induction false} FirstDifferenceDecides(front: string, a: char, rest: string, b: char, tail: string)
    ensures a < b ==> StringLess(front + [a] + rest, front + [b] + tail)
  {
    var s, t := front + [a] + rest, front + [b] + tail;
    if front == "" {
      assert s[0] == a && t[0] == b;
    } else {
      assert s[1..] == front[1..] + [a] + rest && t[1..] == front[1..] + [b] + tail;
      FirstDifferenceDecides(front[1..], a, rest, b, tail);
    }
  }

  predicate SameName(p: Pod, q: Pod) { p.name == q.name }

  /** Running, ready and not on its way out. */
  predicate IsHealthy(p: Pod) { p.phase == Running && p.ready && !p.terminating }

  /** Every unhealthy pod of the list is older than every healthy one. */
  ghost predicate UnhealthyAreOlder(pods: seq<Pod>) {
    forall p, q :: p in pods && q in pods && IsHealthy(p) && !IsHealthy(q) ==> Older(q, p)
  }

  method CountUnhealthyPods(pods: array<Pod>) returns (numUnhealthy: nat)
    ensures numUnhealthy == CountUnhealthy(pods[..])
  {
    numUnhealthy := 0;
    assert pods[..0] == [];
    for i := 0 to pods.Length
      invariant numUnhealthy == CountUnhealthy(pods[..i])
    {
      assert pods[..i + 1] == pods[..i] + [pods[i]];
      CountUnhealthyConcat(pods[..i], [pods[i]]);
      assert [pods[i]][1..] == [];
      if !pods[i].Healthy() { numUnhealthy := numUnhealthy + 1; }
    }
    assert pods[..pods.Length] == pods[..];
  }

  /** SplitUnhealthyPods: sorts the caller's list by age in place, and copies as many pods as are
      unhealthy, the oldest of all, and the rest; the first are the unhealthy ones exactly when every
      unhealthy pod is older than every healthy one. */
  method SplitUnhealthyPods(pods: array<Pod>, sorted: seq<Pod>)
    returns (unhealthyPods: seq<Pod>, healthyPods: seq<Pod>)
    requires IsAgeSort(pods[..], sorted)
    modifies pods
    ensures pods[..] == sorted == unhealthyPods + healthyPods
    ensures |unhealthyPods| == CountUnhealthy(old(pods[..]))
    ensures multiset(unhealthyPods) + multiset(healthyPods) == multiset(old(pods[..]))
    ensures forall p, q :: p in unhealthyPods && q in healthyPods ==> NotYounger(p, q)
    ensures Apart(SameName, old(pods[..])) ==>
              ((forall p :: p in unhealthyPods ==> !p.Healthy()) <==> UnhealthyAreOlder(old(pods[..])))
  {
    ghost var before := pods[..];
    var numUnhealthy := CountUnhealthyPods(pods);
    SortInPlace(pods, sorted);
    unhealthyPods, healthyPods := pods[..numUnhealthy], pods[numUnhealthy..];
    OldestTaken(before, sorted, numUnhealthy);
  }

  lemma OldestTaken(pods: seq<Pod>, sorted: seq<Pod>, n: nat)
    requires IsAgeSort(pods, sorted) && n == CountUnhealthy(pods) && n <= |sorted|
    ensures sorted == sorted[..n] + sorted[n..]
    ensures multiset(sorted[..n]) + multiset(sorted[n..]) == multiset(pods)
    ensures forall p, q :: p in sorted[..n] && q in sorted[n..] ==> NotYounger(p, q)
    ensures Apart(SameName, pods) ==>
              ((forall p :: p in sorted[..n] ==> !p.Healthy()) <==> UnhealthyAreOlder(pods))
  {
    assert sorted == sorted[..n] + sorted[n..];
    FrontIsOlder(sorted, n);
    UnhealthyTakenIff(pods, sorted, n);
  }

  lemma FrontIsOlder(sorted: seq<Pod>, n: nat)
    requires SortedBy(NotYounger, sorted) && n <= |sorted|
    ensures forall p, q :: p in sorted[..n] && q in sorted[n..] ==> NotYounger(p, q)
  {
    forall p, q | p in sorted[..n] && q in sorted[n..] ensures NotYounger(p, q) {
      var i :| 0 <= i < n && sorted[i] == p;
      var j :| n <= j < |sorted| && sorted[j] == q;
    }
  }

  /** The oldest pods, as many as are unhealthy, are the unhealthy ones exactly when every
      unhealthy pod is older than every healthy one. */
  lemma UnhealthyTakenIff(pods: seq<Pod>, sorted: seq<Pod>, n: nat)
    requires IsAgeSort(pods, sorted) && n == CountUnhealthy(pods) && n <= |sorted|
    ensures Apart(SameName, pods) ==>
              ((forall p :: p in sorted[..n] ==> !p.Healthy()) <==> UnhealthyAreOlder(pods))
  {
    CountUnhealthyPermutes(pods, sorted);
    UnhealthyFirstIff(sorted, n);
    if Apart(SameName, pods) { FirstMeansOlder(pods, sorted); }
  }

  lemma FirstMeansOlder(pods: seq<Pod>, sorted: seq<Pod>)
    requires IsAgeSort(pods, sorted) && Apart(SameName, pods)
    ensures UnhealthyFirst(sorted) <==> UnhealthyAreOlder(pods)
  {
    ApartPermutes(SameName, pods, sorted);
    if UnhealthyFirst(sorted) {
      forall p, q | p in pods && q in pods && p.Healthy() && !q.Healthy() ensures Older(q, p) {
        assert p in multiset(pods) && q in multiset(pods);
        var i := PlaceOf(sorted, p);
        var j := PlaceOf(sorted, q);
        assert j < i;
        assert !SameName(sorted[j], sorted[i]) && NotYounger(sorted[j], sorted[i]);
        AgeIsOrder(q, p, p);
      }
    }
    if UnhealthyAreOlder(pods) {
      forall i, j | 0 <= i < j < |sorted| && sorted[i].Healthy() ensures sorted[j].Healthy() {
        assert sorted[i] in multiset(sorted) && sorted[j] in multiset(sorted);
        assert sorted[i] in pods && sorted[j] in pods;
        assert NotYounger(sorted[i], sorted[j]);
      }
    }
  }

  /** Healthy pods come last. */
  ghost predicate UnhealthyFirst(sorted: seq<Pod>) {
    forall i, j :: 0 <= i < j < |sorted| && sorted[i].Healthy() ==> sorted[j].Healthy()
  }

  lemma EarlyHealthy(sorted: seq<Pod>, i: nat)
    requires i < |sorted| && sorted[i].Healthy() && UnhealthyFirst(sorted)
    ensures CountUnhealthy(sorted) <= i
  {
    var back := sorted[i..];
    assert sorted == sorted[..i] + back;
    CountUnhealthyConcat(sorted[..i], back);
    assert forall k :: 0 <= k < |back| ==> back[k] == sorted[i + k];
    AllHealthy(back);
  }

  lemma FrontUnhealthy(sorted: seq<Pod>, n: nat)
    requires n == CountUnhealthy(sorted) && forall p :: p in sorted[..n] ==> !p.Healthy()
    ensures UnhealthyFirst(sorted)
  {
    var front, back := sorted[..n], sorted[n..];
    assert sorted == front + back;
    CountUnhealthyConcat(front, back);
    AllUnhealthy(front);
    AllHealthy(back);
    forall k | 0 <= k < n ensures !sorted[k].Healthy() { assert sorted[k] == front[k]; }
    forall k | n <= k < |sorted| ensures sorted[k].Healthy() { assert sorted[k] == back[k - n]; }
  }

  /** A front of the length of the unhealthy pods holds only such pods exactly when the healthy
      ones come last. */
  lemma UnhealthyFirstIff(sorted: seq<Pod>, n: nat)
    requires n == CountUnhealthy(sorted)
    ensures (forall p :: p in sorted[..n] ==> !p.Healthy()) <==> UnhealthyFirst(sorted)
  {
    if UnhealthyFirst(sorted) {
      forall p | p in sorted[..n] ensures !p.Healthy() {
        var i :| 0 <= i < n && sorted[i] == p;
        if sorted[i].Healthy() { EarlyHealthy(sorted, i); }
      }
    } else if forall p :: p in sorted[..n] ==> !p.Healthy() {
      FrontUnhealthy(sorted, n);
    }
  }

  lemma {:induction false} AllUnhealthy(s: seq<Pod>)
    ensures CountUnhealthy(s) == |s| <==> forall p :: p in s ==> !p.Healthy()
  {
    if s != [] { AllUnhealthy(s[1..]); assert s == [s[0]] + s[1..]; }
  }

  lemma {:induction false} AllHealthy(s: seq<Pod>)
    ensures CountUnhealthy(s) == 0 <==> forall p :: p in s ==> p.Healthy()
  {
    if s != [] { AllHealthy(s[1..]); assert s == [s[0]] + s[1..]; }
  }
}
