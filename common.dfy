/** Small value types shared by the coordinator and the worker models. */
module Common {

  /** A value that may be absent (JavaScript `undefined`, or `false` for an unset address). */
  datatype Option<T> = None | Some(value: T)

  /** A JavaScript argument as seen by `isNaN`: an integer, or something that is not a
      number (NaN, `undefined`, a non-numeric string). */
  datatype Numeric = Num(n: int) | NaN

  /** Strictly increasing, hence free of repeats. */
  predicate Increasing(s: seq<int>)
  {
    forall i, j :: 0 <= i < j < |s| ==> s[i] < s[j]
  }

  /** No element occurs twice. */
  predicate NoRepeats(s: seq<int>)
  {
    forall i, j :: 0 <= i < j < |s| ==> s[i] != s[j]
  }

  /** The integers from `lo` to `hi` inclusive. The bounds are written out so that Dafny
      sees the set is finite, and again as `Between` so that the comprehension has a term
      to trigger on (bare comparisons give it none). */
  ghost function Interval(lo: int, hi: int): set<int>
  {
    set p | lo <= p <= hi && Between(lo, p, hi)
  }

  predicate Between(lo: int, p: int, hi: int)
  {
    lo <= p <= hi
  }

  lemma {:induction false} IntervalSize(lo: int, hi: int)
    requires lo <= hi + 1
    ensures |Interval(lo, hi)| == hi - lo + 1
    decreases hi - lo + 1
  {
    if lo <= hi {
      IntervalSize(lo, hi - 1);
      assert Interval(lo, hi) == Interval(lo, hi - 1) + {hi};
    } else {
      assert Interval(lo, hi) == {};
    }
  }

  /** A sequence without repeats has as many distinct elements as it is long. */
  lemma {:induction false} NoRepeatsSize(s: seq<int>)
    requires NoRepeats(s)
    ensures |set x | x in s| == |s|
  {
    if s != [] {
      var t := s[1..];
      assert NoRepeats(t);
      NoRepeatsSize(t);
      assert (set x | x in s) == (set x | x in t) + {s[0]};
      assert s[0] !in (set x | x in t);
    } else {
      assert (set x | x in s) == {};
    }
  }

  /** A subset is no larger, and a proper subset is strictly smaller. */
  lemma SubsetSize(a: set<int>, b: set<int>)
    requires a <= b
    ensures |a| <= |b|
    ensures a != b ==> |a| < |b|
  {
    assert b == a + (b - a);
    assert a * (b - a) == {};
    if a != b {
      assert b - a != {};
    }
  }

  /** A non-empty set has an element. */
  lemma HasElement(s: set<int>)
    requires s != {}
    ensures exists m :: m in s
  {
    if forall m :: m !in s {
      assert false;
    }
  }

  /** A finite non-empty set of integers has a least element. */
  lemma {:induction false} HasMinimum(s: set<int>)
    requires s != {}
    ensures exists m :: m in s && forall q :: q in s ==> m <= q
  {
    HasElement(s);
    var x :| x in s;
    if s != {x} {
      var rest := s - {x};
      HasMinimum(rest);
      var m :| m in rest && forall q :: q in rest ==> m <= q;
      var least := if x < m then x else m;
      forall q | q in s
        ensures least <= q
      {
        if q != x {
          assert q in rest;
        }
      }
      assert least in s;
    } else {
      assert forall q :: q in s ==> x <= q;
    }
  }
}
