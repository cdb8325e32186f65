/** Ordinal allocation of a scale-out: the loop that walks upwards from zero and
    skips every ordinal a listed pod already uses. */
module Ordinals {
  import opened Sets

  /** The first ordinal at or after `from` that is not in use. */
  function NextFree(used: set<int>, from: nat): (o: nat)
    ensures from <= o && o !in used
    ensures forall k :: from <= k < o ==> k in used
    decreases |Above(used, from)|
  {
    if from in used then
      AboveShrinks(used, from);
      NextFree(used, from + 1)
    else from
  }

  ghost function Above(used: set<int>, from: int): set<int> {
    set u | u in used && from <= u
  }

  lemma AboveShrinks(used: set<int>, from: int)
    requires from in used
    ensures |Above(used, from + 1)| < |Above(used, from)|
  {
    assert Above(used, from) == Above(used, from + 1) + {from};
  }

  /** The ordinals handed out by `count` rounds of the loop. */
  function LeastFree(used: set<int>, count: nat): (s: seq<nat>)
    ensures |s| == count
    decreases count
  {
    if count == 0 then [] else
      var o := NextFree(used, 0);
      [o] + LeastFree(used + {o}, count - 1)
  }

  /** Reference definition, independent of the loop: increasing, unused, and no
      unused natural is skipped. */
  ghost predicate IsLeastFree(used: set<int>, s: seq<nat>) {
    && (forall i, j :: 0 <= i < j < |s| ==> s[i] < s[j])
    && (forall o :: o in s ==> o !in used)
    && (forall o, k: nat :: o in s && k < o ==> k in used || k in s)
  }

  lemma {:induction false} LeastFreeIsLeast(used: set<int>, count: nat)
    ensures IsLeastFree(used, LeastFree(used, count))
    decreases count
  {
    if count > 0 {
      var o := NextFree(used, 0);
      var rest := LeastFree(used + {o}, count - 1);
      LeastFreeIsLeast(used + {o}, count - 1);
      forall x | x in rest ensures o < x { assert x !in used + {o}; }
      LeastFirst(used, o, rest);
    }
  }

  /** The least unused ordinal before the least of the others. */
  lemma LeastFirst(used: set<int>, o: nat, rest: seq<nat>)
    requires o !in used && (forall k: nat :: k < o ==> k in used)
    requires IsLeastFree(used + {o}, rest) && forall x :: x in rest ==> o < x
    ensures IsLeastFree(used, [o] + rest)
  {
    var s := [o] + rest;
    assert forall x :: x in s <==> x == o || x in rest;
    assert forall i :: 0 < i < |s| ==> s[i] == rest[i - 1] && s[i] in rest;
  }

  lemma TailIsLeast(used: set<int>, s: seq<nat>)
    requires |s| > 0 && IsLeastFree(used, s)
    ensures s[0] == NextFree(used, 0)
    ensures IsLeastFree(used + {s[0]}, s[1..])
  {
    var rest := s[1..];
    assert s == [s[0]] + rest;
    assert forall x :: x in s <==> x == s[0] || x in rest;
    forall x | x in rest ensures s[0] < x {}
    assert s[0] in s;
    var o := NextFree(used, 0);
    assert !(o < s[0]);
  }

  /** The reference definition pins the allocation down. */
  lemma {:induction false} LeastFreeUnique(used: set<int>, s: seq<nat>)
    requires IsLeastFree(used, s)
    ensures s == LeastFree(used, |s|)
    decreases |s|
  {
    if |s| > 0 {
      TailIsLeast(used, s);
      LeastFreeUnique(used + {s[0]}, s[1..]);
      assert s == [s[0]] + s[1..];
    }
  }

  /** Allocating `a + b` ordinals is allocating `a`, observing them, and allocating `b` more. */
  lemma {:induction false} LeastFreeSplits(used: set<int>, a: nat, b: nat)
    ensures var first := LeastFree(used, a);
            LeastFree(used, a + b) == first + LeastFree(used + Elems(first), b)
    decreases a
  {
    if a == 0 {
      assert used + Elems(LeastFree(used, 0)) == used;
    } else {
      var o := NextFree(used, 0);
      LeastFreeSplits(used + {o}, a - 1, b);
      var tail := LeastFree(used + {o}, a - 1);
      var first := LeastFree(used, a);
      assert first == [o] + tail;
      assert used + {o} + Elems(tail) == used + Elems(first);
    }
  }

  /** Ordinals in use after reconciling until `count` more pods exist, creating at most
      `burst` per reconcile and observing them before the next one. */
  ghost function Reconciled(used: set<int>, count: nat, burst: nat): (after: set<int>)
    requires burst > 0
    decreases count
  {
    if count == 0 then used else
      var n := if count <= burst then count else burst;
      Reconciled(used + Elems(LeastFree(used, count)[..n]), count - n, burst)
  }

  lemma ElemsConcat(a: seq<nat>, b: seq<nat>)
    ensures Elems(a + b) == Elems(a) + Elems(b)
  {
  }

  /** Bursts do not change which ordinals a NodeSet ends up with. */
  lemma {:induction false} BurstsAgree(used: set<int>, count: nat, burst: nat)
    requires burst > 0
    ensures Reconciled(used, count, burst) == used + Elems(LeastFree(used, count))
    decreases count
  {
    if count == 0 {
      assert used + Elems([]) == used;
    } else {
      var n := if count <= burst then count else burst;
      var first, s := LeastFree(used, n), LeastFree(used, count);
      var seen := used + Elems(first);
      var rest := LeastFree(seen, count - n);
      assert s == first + rest by { LeastFreeSplits(used, n, count - n); }
      assert s[..n] == first;
      ElemsConcat(first, rest);
      BurstsAgree(seen, count - n, burst);
    }
  }

  /** The allocation loop of syncNodeSet. */
  method AllocateOrdinals(inUse: set<int>, diff: nat) returns (ordinals: seq<nat>)
    ensures |ordinals| == diff
    ensures IsLeastFree(inUse, ordinals)
    ensures ordinals == LeastFree(inUse, diff)
  {
    var used := inUse;
    var ordinal: nat := 0;
    ordinals := [];
    for i := 0 to diff
      invariant |ordinals| == i
      invariant used == inUse + Elems(ordinals)
      invariant forall k: nat :: k < ordinal ==> k in used
      invariant forall o :: o in ordinals ==> o <= ordinal
      invariant IsLeastFree(inUse, ordinals)
    {
      while ordinal in used
        invariant forall k: nat :: k < ordinal ==> k in used
        invariant forall o :: o in ordinals ==> o <= ordinal
        decreases |Above(used, ordinal)|
      {
        AboveShrinks(used, ordinal);
        ordinal := ordinal + 1;
      }
      assert forall o :: o in ordinals ==> o in used;
      ghost var before := ordinals;
      used := used + {ordinal};
      ordinals := ordinals + [ordinal];
      assert forall o :: o in ordinals <==> o in before || o == ordinal;
      assert forall j :: 0 <= j < i ==> ordinals[j] == before[j] && before[j] in before;
    }
    LeastFreeUnique(inUse, ordinals);
  }
}
