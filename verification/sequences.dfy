/** Order-preserving filtering of sequences, the shape of a Python list
    comprehension `[x for x in xs if keep(x)]`. */
module Sequences {

  /** `b` contains the elements of `a` in the same order, possibly with others between. */
  predicate IsSubsequence<T(==)>(a: seq<T>, b: seq<T>)
    decreases |b|
  {
    |a| == 0 || (|b| > 0 && if a[0] == b[0] then IsSubsequence(a[1..], b[1..]) else IsSubsequence(a, b[1..]))
  }

  function Filter<T(==)>(xs: seq<T>, keep: T -> bool): (kept: seq<T>)
    ensures |kept| <= |xs|
    ensures forall i :: 0 <= i < |kept| ==> keep(kept[i]) && kept[i] in xs
    ensures forall i :: 0 <= i < |xs| && keep(xs[i]) ==> xs[i] in kept
  {
    if xs == [] then []
    else if keep(xs[0]) then [xs[0]] + Filter(xs[1..], keep)
    else Filter(xs[1..], keep)
  }

  /** The kept elements appear in the input, in the input's order. */
  lemma {:induction false} FilterIsSubsequence<T>(xs: seq<T>, keep: T -> bool)
    ensures IsSubsequence(Filter(xs, keep), xs)
  {
    if xs != [] {
      FilterIsSubsequence(xs[1..], keep);
      var rest := Filter(xs[1..], keep);
      if !keep(xs[0]) && rest != [] {
        assert rest[0] in rest;
      }
    }
  }

  /** Filtering distributes over concatenation: nothing is reordered. */
  lemma {:induction false} FilterAppend<T>(a: seq<T>, b: seq<T>, keep: T -> bool)
    ensures Filter(a + b, keep) == Filter(a, keep) + Filter(b, keep)
  {
    if a == [] {
      assert a + b == b;
    } else {
      assert (a + b)[0] == a[0];
      assert (a + b)[1..] == a[1..] + b;
      FilterAppend(a[1..], b, keep);
    }
  }

  /** Every kept element is kept as often as it occurs; the others never are. */
  lemma {:induction false} FilterMultiplicity<T>(xs: seq<T>, keep: T -> bool, x: T)
    ensures multiset(Filter(xs, keep))[x] == if keep(x) then multiset(xs)[x] else 0
  {
    if xs != [] {
      FilterMultiplicity(xs[1..], keep, x);
      assert xs == [xs[0]] + xs[1..];
    }
  }

  /** A sequence whose every element is kept passes the filter unchanged. */
  lemma {:induction false} FilterKeepsAll<T>(xs: seq<T>, keep: T -> bool)
    requires forall i :: 0 <= i < |xs| ==> keep(xs[i])
    ensures Filter(xs, keep) == xs
  {
    if xs != [] {
      FilterKeepsAll(xs[1..], keep);
    }
  }

  /** Of three elements where only the middle one is dropped, the outer two remain. */
  lemma FilterDropsMiddle<T>(a: T, b: T, c: T, keep: T -> bool)
    requires keep(a) && !keep(b) && keep(c)
    ensures Filter([a, b, c], keep) == [a, c]
  {
    assert [a, b, c][1..] == [b, c];
    assert [b, c][1..] == [c];
    assert [c][1..] == [];
    assert Filter([c], keep) == [c] + Filter([], keep) == [c];
    assert Filter([b, c], keep) == Filter([c], keep);
    assert Filter([a, b, c], keep) == [a] + Filter([b, c], keep);
  }

  /** A sequence none of whose elements is kept filters to nothing. */
  lemma {:induction false} FilterKeepsNone<T>(xs: seq<T>, keep: T -> bool)
    requires forall i :: 0 <= i < |xs| ==> !keep(xs[i])
    ensures Filter(xs, keep) == []
  {
    if xs != [] {
      FilterKeepsNone(xs[1..], keep);
    }
  }
}
