/** Finite-set facts shared by the other modules. */
module Sets {

  ghost function Elems<T>(s: seq<T>): set<T> {
    set x | x in s
  }

  /** Where an element of a list's multiset stands in the list. */
  lemma PlaceOf<T>(s: seq<T>, x: T) returns (i: nat)
    requires x in multiset(s)
    ensures i < |s| && s[i] == x
  {
    i :| 0 <= i < |s| && s[i] == x;
  }

  lemma {:induction false} SubsetSize<T>(a: set<T>, b: set<T>)
    requires a <= b
    ensures |a| <= |b|
  {
    if a != {} {
      var x :| x in a;
      SubsetSize(a - {x}, b - {x});
    }
  }

  lemma {:induction false} ElemsSize<T>(s: seq<T>)
    ensures |Elems(s)| <= |s|
  {
    if |s| > 0 {
      var n := |s| - 1;
      ElemsSize(s[..n]);
      assert s == s[..n] + [s[n]];
      assert Elems(s) == Elems(s[..n]) + {s[n]};
    }
  }

  lemma Pick<T>(s: set<T>) returns (x: T)
    requires s != {}
    ensures x in s
  {
    x :| x in s;
  }

  /** A finite non-empty set of integers has a greatest element. */
  lemma Greatest(s: set<int>, x: int) returns (m: int)
    requires x in s
    ensures m in s && forall k :: k in s ==> k <= m
    decreases |s|
  {
    var rest := s - {x};
    assert s == rest + {x};
    if rest == {} {
      m := x;
    } else {
      var y := Pick(rest);
      var n := Greatest(rest, y);
      m := if n < x then x else n;
    }
  }
}
