/** Facts about finite sets of integers that the three labelings rely on:
    the minimum and maximum of a non-empty set (Python's `min`/`max`),
    the size of an integer range (`set(range(lo, hi + 1))`) and the size of
    the image of a set under a function. */
module Sets {

  /** Some element of a non-empty set. */
  lemma Pick<A>(s: set<A>) returns (x: A)
    requires s != {}
    ensures x in s
  {
    x :| x in s;
  }

  /** `w` is the least element of `s`. */
  predicate IsMin(w: int, s: set<int>) {
    w in s && forall x :: x in s ==> w <= x
  }

  /** `w` is the greatest element of `s`. */
  predicate IsMax(w: int, s: set<int>) {
    w in s && forall x :: x in s ==> x <= w
  }

  /** `min` of a non-empty set. */
  function MinOf(s: set<int>): (r: int)
    requires s != {}
    ensures IsMin(r, s)
  {
    MinExists(s);
    var x :| IsMin(x, s);
    x
  }

  /** A set has at most one least element. */
  lemma MinUnique(a: int, b: int, s: set<int>)
    requires IsMin(a, s) && IsMin(b, s)
    ensures a == b
  {
  }

  /** A set has at most one greatest element. */
  lemma MaxUnique(a: int, b: int, s: set<int>)
    requires IsMax(a, s) && IsMax(b, s)
    ensures a == b
  {
  }

  /** Every non-empty finite set has a least element. */
  lemma {:induction false} MinExists(s: set<int>)
    requires s != {}
    ensures exists w :: IsMin(w, s)
  {
    var x := Pick(s);
    if s == {x} {
      assert IsMin(x, s);
    } else {
      var rest := s - {x};
      MinExists(rest);
      var y :| IsMin(y, rest);
      var w := if x < y then x else y;
      forall z | z in s
        ensures w <= z
      {
        if z != x {
          assert z in rest;
        }
      }
      assert IsMin(w, s);
    }
  }

  /** Every non-empty finite set has a greatest element. */
  lemma {:induction false} MaxExists(s: set<int>)
    requires s != {}
    ensures exists w :: IsMax(w, s)
  {
    var x := Pick(s);
    if s == {x} {
      assert IsMax(x, s);
    } else {
      var rest := s - {x};
      MaxExists(rest);
      var y :| IsMax(y, rest);
      var w := if x > y then x else y;
      forall z | z in s
        ensures w >= z
      {
        if z != x {
          assert z in rest;
        }
      }
      assert IsMax(w, s);
    }
  }

  /** The integers `lo..hi`, both included. */
  function Interval(lo: int, hi: int): (r: set<int>)
    ensures forall x :: x in r <==> lo <= x <= hi
    decreases hi - lo
  {
    if lo > hi then {} else Interval(lo, hi - 1) + {hi}
  }

  /** `lo..hi` has `hi - lo + 1` elements, or none when `hi < lo`. */
  lemma {:induction false} IntervalSize(lo: int, hi: int)
    ensures |Interval(lo, hi)| == if lo <= hi then hi - lo + 1 else 0
    decreases hi - lo
  {
    if lo > hi {
    } else {
      IntervalSize(lo, hi - 1);
    }
  }

  /** The image `{ f(x) | x in s }`. */
  function Image<A, B>(s: set<A>, f: A -> B): (r: set<B>)
    ensures forall x :: x in s ==> f(x) in r
    ensures forall y :: y in r ==> exists x :: x in s && f(x) == y
  {
    set x | x in s :: f(x)
  }

  predicate InjectiveOn<A, B(==)>(s: set<A>, f: A -> B) {
    forall x, y :: x in s && y in s && f(x) == f(y) ==> x == y
  }

  /** An image is never larger than its domain, and it is exactly as large
      precisely when the function is one-to-one on the domain. */
  lemma {:induction false} ImageSize<A, B>(s: set<A>, f: A -> B)
    ensures |Image(s, f)| <= |s|
    ensures |Image(s, f)| == |s| <==> InjectiveOn(s, f)
  {
    if s == {} {
      assert Image(s, f) == {};
    } else {
      var x := Pick(s);
      var rest := s - {x};
      ImageSize(rest, f);
      assert Image(s, f) == Image(rest, f) + {f(x)};
      if f(x) in Image(rest, f) {
        var y :| y in rest && f(y) == f(x);
        assert !InjectiveOn(s, f);
      } else {
        assert InjectiveOn(s, f) <==> InjectiveOn(rest, f);
      }
    }
  }

  /** Removing a set `b` from `a` removes at most `|b|` elements. */
  lemma DifferenceSize<A>(a: set<A>, b: set<A>)
    ensures |a - b| >= |a| - |b|
  {
    assert a == (a - b) + (a * b);
    assert a * b <= b;
    SubsetSize(a * b, b);
  }

  /** Removing a subset `b` of `a` removes exactly `|b|` elements. */
  lemma SubsetDifferenceSize<A>(a: set<A>, b: set<A>)
    requires b <= a
    ensures |a - b| == |a| - |b|
  {
    assert a == (a - b) + b;
  }

  lemma {:induction false} SubsetSize<A>(a: set<A>, b: set<A>)
    requires a <= b
    ensures |a| <= |b|
  {
    if a != {} {
      var x := Pick(a);
      SubsetSize(a - {x}, b - {x});
    }
  }
}
