/**
 * The order in which a JavaScript object reports its keys: `Object.keys`
 * lists string keys in the order they were first assigned.  A table filled by
 * assigning keys `xs[0], xs[1], ...` therefore reports `InsertionKeys(xs)`.
 */
module ObjectKeys {

  /** No key occurs twice. */
  predicate Distinct(ks: seq<string>)
  {
    forall i, j :: 0 <= i < j < |ks| ==> ks[i] != ks[j]
  }

  /** The distinct values of `xs`, each at the place where it first occurs. */
  function InsertionKeys(xs: seq<string>): (ks: seq<string>)
    ensures forall k :: k in ks <==> k in xs
    ensures Distinct(ks)
  {
    if xs == [] then []
    else
      var ks0 := InsertionKeys(xs[..|xs| - 1]);
      var x := xs[|xs| - 1];
      assert forall k :: k in xs <==> k in xs[..|xs| - 1] || k == x;
      if x in ks0 then ks0 else ks0 + [x]
  }

  /** The position at which `x` first occurs in `xs`. */
  function FirstIndex(xs: seq<string>, x: string): (i: nat)
    requires x in xs
    ensures i < |xs| && xs[i] == x
    ensures forall j :: 0 <= j < i ==> xs[j] != x
  {
    if xs[0] == x then 0 else 1 + FirstIndex(xs[1..], x)
  }

  /** A position holding `x` with no `x` before it is the first index of `x`. */
  lemma FirstIndexUnique(xs: seq<string>, x: string, i: nat)
    requires i < |xs| && xs[i] == x
    requires forall j :: 0 <= j < i ==> xs[j] != x
    ensures FirstIndex(xs, x) == i
  {
  }

  /** Extending `xs` does not move the first occurrence of a value already in `xs`. */
  lemma FirstIndexOfPrefix(xs: seq<string>, n: nat, x: string)
    requires n <= |xs| && x in xs[..n]
    ensures FirstIndex(xs, x) == FirstIndex(xs[..n], x)
  {
    var f := FirstIndex(xs[..n], x);
    FirstIndexUnique(xs, x, f);
  }

  /**
   * The keys are listed in the order in which they are first met in `xs`:
   * of two keys, the one listed first occurs first.
   */
  lemma {:induction false} InsertionKeysInFirstSeenOrder(xs: seq<string>)
    ensures forall a, b :: 0 <= a < b < |InsertionKeys(xs)| ==>
      FirstIndex(xs, InsertionKeys(xs)[a]) < FirstIndex(xs, InsertionKeys(xs)[b])
  {
    if xs != [] {
      var n := |xs| - 1;
      var p := xs[..n];
      var x := xs[n];
      var ks0 := InsertionKeys(p);
      var ks := InsertionKeys(xs);
      InsertionKeysInFirstSeenOrder(p);
      forall k | k in ks0
        ensures FirstIndex(xs, k) == FirstIndex(p, k) < n
      {
        FirstIndexOfPrefix(xs, n, k);
      }
      if x !in ks0 {
        assert x !in p;
        FirstIndexUnique(xs, x, n);
      }
      forall a, b | 0 <= a < b < |ks|
        ensures FirstIndex(xs, ks[a]) < FirstIndex(xs, ks[b])
      {
        assert ks[a] == ks0[a] && ks0[a] in ks0;
        if b < |ks0| {
          assert ks[b] == ks0[b] && ks0[b] in ks0;
          assert FirstIndex(p, ks0[a]) < FirstIndex(p, ks0[b]);
        } else {
          assert ks[b] == x && x !in ks0;
        }
      }
    }
  }

  /** There are as many keys as there are distinct values in `xs`. */
  lemma InsertionKeysCardinality(xs: seq<string>)
    ensures |InsertionKeys(xs)| == |set x | x in xs|
  {
    var ks := InsertionKeys(xs);
    assert (set x | x in xs) == (set k | k in ks);
    DistinctCardinality(ks);
  }

  /** A sequence without repetitions has as many elements as its set. */
  lemma {:induction false} DistinctCardinality(ks: seq<string>)
    requires Distinct(ks)
    ensures |set k | k in ks| == |ks|
  {
    if ks != [] {
      var n := |ks| - 1;
      var p := ks[..n];
      assert Distinct(p);
      DistinctCardinality(p);
      assert ks[n] !in p;
      assert (set k | k in ks) == (set k | k in p) + {ks[n]};
    }
  }
}
