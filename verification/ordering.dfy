/**
 Descending enumerations of a finite set of ids, the order in which the post
 list is returned.
 */
module Ordering {

  predicate StrictlyDescending(xs: seq<int>) {
    forall i, j :: 0 <= i < j < |xs| ==> xs[i] > xs[j]
  }

  /** `xs` lists every key of `keys` exactly once, largest first. */
  ghost predicate EnumeratesDescending(xs: seq<int>, keys: set<int>) {
    && StrictlyDescending(xs)
    && (forall i :: 0 <= i < |xs| ==> xs[i] in keys)
    && (forall k :: k in keys ==> k in xs)
  }

  /** Two descending enumerations of the same keys are the same sequence. */
  lemma {:induction false} DescendingEnumerationUnique(xs: seq<int>, ys: seq<int>, keys: set<int>)
    requires EnumeratesDescending(xs, keys)
    requires EnumeratesDescending(ys, keys)
    ensures xs == ys
    decreases |xs|
  {
    assert forall k :: k in keys ==> k in xs;
    assert forall k :: k in keys ==> k in ys;
    if xs == [] {
      assert keys == {};
    } else {
      assert xs[0] in keys;
      assert xs[0] in ys;
      assert ys[0] in keys;
      assert ys[0] in xs;
      var rest := keys - {xs[0]};
      forall k | k in rest
        ensures k in xs[1..] && k in ys[1..]
      {
        assert k in xs && k in ys;
      }
      DescendingEnumerationUnique(xs[1..], ys[1..], rest);
    }
  }

  /** A strictly descending list of exactly the keys of `keys` has one entry per key. */
  lemma {:induction false} DistinctLength(xs: seq<int>, keys: set<int>)
    requires EnumeratesDescending(xs, keys)
    ensures |xs| == |keys|
    decreases |xs|
  {
    assert forall k :: k in keys ==> k in xs;
    if xs != [] {
      var rest := keys - {xs[0]};
      assert xs[0] in keys;
      forall k | k in rest
        ensures k in xs[1..]
      {
        assert k in xs;
      }
      DistinctLength(xs[1..], rest);
    } else {
      assert keys == {};
    }
  }
}
