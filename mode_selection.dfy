/**
 * The "most common value" of a day (src/components/Forecast.jsx:107-121):
 * a count table filled by one pass over the values, then a `reduce` over the
 * table's keys that keeps the running key `a` only when it is strictly more
 * frequent than the next key `b`.
 */
module ModeSelection {
  import opened ObjectKeys

  /** Number of occurrences of `x` in `xs`. */
  function Count(xs: seq<string>, x: string): nat
  {
    multiset(xs)[x]
  }

  /** The count table `{ value: occurrences }` of `xs`, as a map. */
  function CountTable(xs: seq<string>): (t: map<string, nat>)
    ensures forall x :: x in t ==> 0 < t[x] <= |xs|
  {
    map x | x in xs :: Count(xs, x)
  }

  /** Adding one value to the end of the input adds one to its entry (or creates it with 1). */
  lemma CountTableAppend(xs: seq<string>, x: string)
    ensures CountTable(xs + [x]) ==
      CountTable(xs)[x := (if x in CountTable(xs) then CountTable(xs)[x] else 0) + 1]
  {
    var l := CountTable(xs + [x]);
    var r := CountTable(xs)[x := (if x in CountTable(xs) then CountTable(xs)[x] else 0) + 1];
    assert multiset(xs + [x]) == multiset(xs) + multiset{x};
    assert forall y :: y in xs + [x] <==> y in xs || y == x;
    assert l.Keys == r.Keys;
    forall y | y in l.Keys
      ensures l[y] == r[y]
    {
      if y != x && y !in xs {
        assert false;
      }
    }
  }

  /**
   * `values.reduce((acc, v) => { acc[v] = (acc[v] || 0) + 1; return acc }, {})`,
   * returning the table together with the order `Object.keys` reports its keys in.
   */
  method CountValues(values: seq<string>) returns (keys: seq<string>, counts: map<string, nat>)
    ensures keys == InsertionKeys(values)
    ensures counts == CountTable(values)
  {
    keys, counts := [], map[];
    for i := 0 to |values|
      invariant keys == InsertionKeys(values[..i])
      invariant counts == CountTable(values[..i])
    {
      var v := values[i];
      assert values[..i + 1] == values[..i] + [v];
      assert values[..i + 1][..i] == values[..i];
      CountTableAppend(values[..i], v);
      if v !in counts {
        keys := keys + [v];
      }
      counts := counts[v := (if v in counts then counts[v] else 0) + 1];
    }
    assert values[..|values|] == values;
  }

  /**
   * `keys.reduce((a, b) => counts[a] > counts[b] ? a : b)`: a left fold without
   * an initial value, written here on the last key.
   */
  function MostCommon(keys: seq<string>, counts: map<string, nat>): (r: string)
    requires |keys| > 0
    requires forall k :: k in keys ==> k in counts
    ensures r in keys
  {
    if |keys| == 1 then keys[0]
    else
      var a := MostCommon(keys[..|keys| - 1], counts);
      var b := keys[|keys| - 1];
      if counts[a] > counts[b] then a else b
  }

  /**
   * The reduce returns a key of maximal count, and every key listed after it
   * has a strictly smaller count; so among keys of equal maximal count the
   * last one listed wins.
   */
  lemma {:induction false} MostCommonIsLastMaximal(keys: seq<string>, counts: map<string, nat>)
    requires |keys| > 0
    requires forall k :: k in keys ==> k in counts
    requires Distinct(keys)
    ensures forall k :: k in keys ==> counts[k] <= counts[MostCommon(keys, counts)]
    ensures forall i, j :: 0 <= i < j < |keys| && keys[i] == MostCommon(keys, counts) ==>
      counts[keys[j]] < counts[keys[i]]
  {
    if |keys| > 1 {
      var n := |keys| - 1;
      var p := keys[..n];
      assert forall k :: k in keys <==> k in p || k == keys[n];
      assert Distinct(p);
      MostCommonIsLastMaximal(p, counts);
      var a := MostCommon(p, counts);
      forall i, j | 0 <= i < j < |keys| && keys[i] == MostCommon(keys, counts)
        ensures counts[keys[j]] < counts[keys[i]]
      {
        if counts[a] > counts[keys[n]] {
          assert i < n;
          if j < n {
            assert p[i] == a && p[j] == keys[j];
          }
        }
      }
    }
  }

  /**
   * `m` is a modal value of `xs` and, among the values sharing its count,
   * the one whose first occurrence is latest.
   */
  predicate IsLatestMode(xs: seq<string>, m: string)
  {
    && m in xs
    && (forall x :: x in xs ==> Count(xs, x) <= Count(xs, m))
    && (forall x :: x in xs && Count(xs, x) == Count(xs, m) ==> FirstIndex(xs, x) <= FirstIndex(xs, m))
  }

  /** The modal value the forecast shows for a non-empty list of values. */
  function Mode(xs: seq<string>): (m: string)
    requires |xs| > 0
    ensures m in xs
  {
    assert xs[0] in InsertionKeys(xs);
    MostCommon(InsertionKeys(xs), CountTable(xs))
  }

  /** The value the reduce returns is a modal value, first seen latest among the tied ones. */
  lemma ModeSatisfiesLatestMode(xs: seq<string>)
    requires |xs| > 0
    ensures IsLatestMode(xs, Mode(xs))
  {
    var ks := InsertionKeys(xs);
    var table := CountTable(xs);
    var r := Mode(xs);
    MostCommonIsLastMaximal(ks, table);
    assert forall k :: k in ks ==> table[k] == Count(xs, k);
    forall x | x in xs && Count(xs, x) == Count(xs, r)
      ensures FirstIndex(xs, x) <= FirstIndex(xs, r)
    {
      InsertionKeysInFirstSeenOrder(xs);
      var a :| 0 <= a < |ks| && ks[a] == x;
      var b :| 0 <= b < |ks| && ks[b] == r;
    }
  }

  /** At most one value is modal and first seen latest among the tied ones. */
  lemma LatestModeUnique(xs: seq<string>, m: string, m': string)
    requires IsLatestMode(xs, m) && IsLatestMode(xs, m')
    ensures m == m'
  {
    assert Count(xs, m) == Count(xs, m');
    FirstIndexUnique(xs, m, FirstIndex(xs, m'));
  }

  /**
   * The shown value occurs in `xs`, no value occurs more often, and ties go to
   * the value first seen latest; and it is the only value with these properties.
   */
  lemma ModeIsLatestMode(xs: seq<string>, m: string)
    requires |xs| > 0
    ensures IsLatestMode(xs, m) <==> m == Mode(xs)
  {
    ModeSatisfiesLatestMode(xs);
    if IsLatestMode(xs, m) {
      LatestModeUnique(xs, m, Mode(xs));
    }
  }

  /**
   * Two icons seen twice each, `a` first: the reduce keeps `a` only while its
   * count is strictly larger, so `b`, first seen later, is shown.
   */
  lemma TieGoesToLaterFirstSeen()
    ensures Mode(["a", "b", "a", "b"]) == "b"
  {
    var xs := ["a", "b", "a", "b"];
    assert multiset(xs) == multiset{"a", "a", "b", "b"};
    assert Count(xs, "a") == 2 && Count(xs, "b") == 2;
    assert FirstIndex(xs, "a") == 0;
    FirstIndexUnique(xs, "b", 1);
    forall x | x in xs
      ensures Count(xs, x) <= Count(xs, "b")
      ensures Count(xs, x) == Count(xs, "b") ==> FirstIndex(xs, x) <= FirstIndex(xs, "b")
    {
      assert x == "a" || x == "b";
    }
    assert IsLatestMode(xs, "b");
    ModeIsLatestMode(xs, "b");
  }
}
