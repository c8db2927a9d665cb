/**
 * The Cartesian-product machinery shared by every StateGenerator:
 * combnk/combnkRec (all tuples of a length over one domain),
 * addIntegerToCombination (extend every tuple by every value of a further
 * domain) and filterStates/isValid.
 *
 * The outer loop runs over the new values and the inner loop over the
 * existing tuples, so the first position varies fastest: the list built over
 * domains d0, ..., dn-1 is the mixed-radix enumeration Enum, and the tuple
 * picking positions p0, ..., pn-1 sits at Index = p0 + |d0| * (p1 + |d1| * (...)).
 */
module Combinations {

  /** Every tuple of C with v appended, in the order of C. */
  function Appended(C: seq<seq<int>>, v: int): seq<seq<int>>
  {
    seq(|C|, i requires 0 <= i < |C| => C[i] + [v])
  }

  /**
   * What addIntegerToCombination returns: for each value of V in turn, every
   * tuple of C with that value appended.
   */
  function Extend(C: seq<seq<int>>, V: seq<int>): (r: seq<seq<int>>)
    ensures |r| == |V| * |C|
    decreases |V|
  {
    if |V| == 0 then []
    else Extend(C, V[..|V| - 1]) + Appended(C, V[|V| - 1])
  }

  lemma MulLe(a: int, b: int, c: nat)
    requires a <= b
    ensures a * c <= b * c
  {
  }

  /** A digit below `size` over a lower part below `radix` stays below radix * size. */
  lemma MixedRadixBound(lower: int, radix: int, p: int, size: int)
    requires 0 <= lower < radix && 0 <= p < size
    ensures lower + radix * p < radix * size
  {
    MulLe(p, size - 1, radix);
    assert (size - 1) * radix == size * radix - radix;
  }

  /** The tuple C[i] extended by V[j] sits at j * |C| + i. */
  lemma {:induction false} ExtendAt(C: seq<seq<int>>, V: seq<int>, j: int, i: int)
    requires 0 <= j < |V| && 0 <= i < |C|
    ensures j * |C| + i < |Extend(C, V)|
    ensures Extend(C, V)[j * |C| + i] == C[i] + [V[j]]
    decreases |V|
  {
    var n := |V| - 1;
    var init := V[..n];
    assert Extend(C, V) == Extend(C, init) + Appended(C, V[n]);
    assert |Extend(C, init)| == n * |C|;
    if j < n {
      ExtendAt(C, init, j, i);
      assert init[j] == V[j];
    } else {
      assert j * |C| + i == n * |C| + i;
      assert (n + 1) * |C| == n * |C| + |C|;
    }
  }

  /** Every tuple of Extend(C, V) is a tuple of C followed by a value of V. */
  lemma {:induction false} ExtendMember(C: seq<seq<int>>, V: seq<int>, x: seq<int>)
    requires x in Extend(C, V)
    ensures |x| >= 1 && x[..|x| - 1] in C && x[|x| - 1] in V
    decreases |V|
  {
    var n := |V| - 1;
    var init := V[..n];
    if x in Extend(C, init) {
      ExtendMember(C, init, x);
    } else {
      assert x in Appended(C, V[n]);
      var i :| 0 <= i < |C| && Appended(C, V[n])[i] == x;
      assert x[..|x| - 1] == C[i];
    }
  }

  /** Every tuple of C followed by every value of V is in Extend(C, V). */
  lemma ExtendContains(C: seq<seq<int>>, V: seq<int>, c: seq<int>, v: int)
    requires c in C && v in V
    ensures c + [v] in Extend(C, V)
  {
    var i :| 0 <= i < |C| && C[i] == c;
    var j :| 0 <= j < |V| && V[j] == v;
    ExtendAt(C, V, j, i);
  }

  /** No element occurs twice. */
  predicate Distinct<T(==)>(s: seq<T>)
  {
    forall i, j :: 0 <= i < j < |s| ==> s[i] != s[j]
  }

  lemma DistinctConcat<T>(a: seq<T>, b: seq<T>)
    requires Distinct(a) && Distinct(b) && forall x :: x in a ==> x !in b
    ensures Distinct(a + b)
  {
    forall i, j | 0 <= i < j < |a + b|
      ensures (a + b)[i] != (a + b)[j]
    {
      if i < |a| && j >= |a| {
        assert (a + b)[i] in a;
        assert (a + b)[j] == b[j - |a|];
      }
    }
  }

  /** Extending distinct tuples by distinct values gives distinct tuples. */
  lemma {:induction false} ExtendDistinct(C: seq<seq<int>>, V: seq<int>)
    requires Distinct(C) && Distinct(V)
    ensures Distinct(Extend(C, V))
    decreases |V|
  {
    if |V| > 0 {
      var n := |V| - 1;
      var init := V[..n];
      ExtendDistinct(C, init);
      var tail := Appended(C, V[n]);
      forall i, j | 0 <= i < j < |tail|
        ensures tail[i] != tail[j]
      {
        assert tail[i][..|tail[i]| - 1] == C[i];
        assert tail[j][..|tail[j]| - 1] == C[j];
      }
      forall x | x in Extend(C, init)
        ensures x !in tail
      {
        ExtendMember(C, init, x);
        var k :| 0 <= k < n && init[k] == x[|x| - 1];
        assert V[k] == init[k];
        forall i | 0 <= i < |tail|
          ensures tail[i] != x
        {
          assert tail[i][|tail[i]| - 1] == V[n];
        }
      }
      DistinctConcat(Extend(C, init), tail);
    }
  }

  /**
   * The mixed-radix enumeration of ds[0] x ... x ds[n-1], first position
   * fastest: the empty product has the one empty tuple, and each further
   * domain extends the enumeration of the ones before it.
   */
  function Enum(ds: seq<seq<int>>): (r: seq<seq<int>>)
    ensures |r| == Radix(ds)
    decreases |ds|
  {
    if |ds| == 0 then [[]]
    else Extend(Enum(ds[..|ds| - 1]), ds[|ds| - 1])
  }

  /** The number of tuples: the product of the domain sizes. */
  function Radix(ds: seq<seq<int>>): nat
    decreases |ds|
  {
    if |ds| == 0 then 1 else Radix(ds[..|ds| - 1]) * |ds[|ds| - 1]|
  }

  /** t has one entry per domain, each drawn from its domain. */
  predicate IsTupleOf(t: seq<int>, ds: seq<seq<int>>)
  {
    |t| == |ds| && forall k :: 0 <= k < |ds| ==> t[k] in ds[k]
  }

  /** The enumeration holds exactly the tuples of the product. */
  lemma EnumMembership(ds: seq<seq<int>>, t: seq<int>)
    ensures t in Enum(ds) <==> IsTupleOf(t, ds)
  {
    if t in Enum(ds) {
      EnumOnlyTuples(ds, t);
    }
    if IsTupleOf(t, ds) {
      EnumHasTuples(ds, t);
    }
  }

  /** Every enumerated tuple draws each entry from its domain. */
  lemma {:induction false} EnumOnlyTuples(ds: seq<seq<int>>, t: seq<int>)
    requires t in Enum(ds)
    ensures IsTupleOf(t, ds)
    decreases |ds|
  {
    if |ds| > 0 {
      var n := |ds| - 1;
      var init := ds[..n];
      ExtendMember(Enum(init), ds[n], t);
      EnumOnlyTuples(init, t[..|t| - 1]);
      forall k | 0 <= k < n
        ensures t[k] in ds[k]
      {
        assert t[k] == t[..|t| - 1][k];
      }
    }
  }

  /** Every tuple drawing each entry from its domain is enumerated. */
  lemma {:induction false} EnumHasTuples(ds: seq<seq<int>>, t: seq<int>)
    requires IsTupleOf(t, ds)
    ensures t in Enum(ds)
    decreases |ds|
  {
    if |ds| > 0 {
      var n := |ds| - 1;
      var init := ds[..n];
      var p := t[..n];
      forall k | 0 <= k < n
        ensures p[k] in init[k]
      {
        assert p[k] == t[k];
      }
      EnumHasTuples(init, p);
      ExtendContains(Enum(init), ds[n], p, t[n]);
      assert p + [t[n]] == t;
    }
  }

  /** With every domain free of repeats, no tuple is enumerated twice. */
  lemma {:induction false} EnumDistinct(ds: seq<seq<int>>)
    requires forall k :: 0 <= k < |ds| ==> Distinct(ds[k])
    ensures Distinct(Enum(ds))
    decreases |ds|
  {
    if |ds| > 0 {
      var n := |ds| - 1;
      EnumDistinct(ds[..n]);
      ExtendDistinct(Enum(ds[..n]), ds[n]);
    }
  }

  /** Valid positions: one per domain, each inside its domain. */
  predicate Positions(ps: seq<int>, ds: seq<seq<int>>)
  {
    |ps| == |ds| && forall k :: 0 <= k < |ds| ==> 0 <= ps[k] < |ds[k]|
  }

  /** The tuple that takes, from each domain, the value at the given position. */
  function Pick(ps: seq<int>, ds: seq<seq<int>>): (t: seq<int>)
    requires Positions(ps, ds)
    ensures IsTupleOf(t, ds)
  {
    seq(|ds|, k requires 0 <= k < |ds| => ds[k][ps[k]])
  }

  /** The mixed-radix index: sum over k of ps[k] times the product of the sizes before k. */
  function Index(ps: seq<int>, ds: seq<seq<int>>): (r: nat)
    requires Positions(ps, ds)
    ensures r < Radix(ds)
    decreases |ds|
  {
    if |ds| == 0 then 0
    else
      var n := |ds| - 1;
      var lower := Index(ps[..n], ds[..n]);
      MixedRadixBound(lower, Radix(ds[..n]), ps[n], |ds[n]|);
      lower + Radix(ds[..n]) * ps[n]
  }

  /** The tuple at a position vector's index is the tuple it picks. */
  lemma {:induction false} EnumAt(ds: seq<seq<int>>, ps: seq<int>)
    requires Positions(ps, ds)
    ensures Enum(ds)[Index(ps, ds)] == Pick(ps, ds)
    decreases |ds|
  {
    if |ds| > 0 {
      var n := |ds| - 1;
      var init := ds[..n];
      var lower := Index(ps[..n], init);
      EnumAt(init, ps[..n]);
      ExtendAt(Enum(init), ds[n], ps[n], lower);
      assert Index(ps, ds) == ps[n] * |Enum(init)| + lower;
      assert Pick(ps, ds) == Pick(ps[..n], init) + [ds[n][ps[n]]];
    }
  }

  /** Every enumerated tuple is a tuple of the product. */
  lemma EnumTuple(ds: seq<seq<int>>, i: int)
    requires 0 <= i < |Enum(ds)|
    ensures IsTupleOf(Enum(ds)[i], ds)
  {
    EnumMembership(ds, Enum(ds)[i]);
  }

  /** One more domain multiplies the count by its size. */
  lemma RadixSnoc(ds: seq<seq<int>>, V: seq<int>)
    ensures Radix(ds + [V]) == Radix(ds) * |V|
  {
    assert (ds + [V])[..|ds|] == ds;
  }

  /** One more domain adds its position times the count of the domains before it. */
  lemma IndexSnoc(ps: seq<int>, ds: seq<seq<int>>, p: int, V: seq<int>)
    requires Positions(ps, ds) && 0 <= p < |V|
    ensures Positions(ps + [p], ds + [V])
    ensures Index(ps + [p], ds + [V]) == Index(ps, ds) + Radix(ds) * p
  {
    assert (ps + [p])[..|ps|] == ps;
    assert (ds + [V])[..|ds|] == ds;
  }

  /** The count over the first k + 1 domains. */
  lemma RadixPrefix(ds: seq<seq<int>>, k: int)
    requires 0 <= k < |ds|
    ensures Radix(ds[..k + 1]) == Radix(ds[..k]) * |ds[k]|
  {
    assert ds[..k + 1][..k] == ds[..k];
  }

  /** The index over the first k + 1 domains. */
  lemma IndexPrefix(ps: seq<int>, ds: seq<seq<int>>, k: int)
    requires Positions(ps, ds) && 0 <= k < |ds|
    ensures Positions(ps[..k], ds[..k]) && Positions(ps[..k + 1], ds[..k + 1])
    ensures Index(ps[..k + 1], ds[..k + 1]) == Index(ps[..k], ds[..k]) + Radix(ds[..k]) * ps[k]
  {
    assert ps[..k + 1][..k] == ps[..k];
    assert ds[..k + 1][..k] == ds[..k];
  }

  /** k copies of one domain: the domains combnk enumerates over. */
  function Repeat(V: seq<int>, k: nat): (ds: seq<seq<int>>)
    ensures |ds| == k && forall i :: 0 <= i < k ==> ds[i] == V
  {
    seq(k, i => V)
  }

  /** n to the power k. */
  function Pow(n: nat, k: nat): nat
  {
    if k == 0 then 1 else Pow(n, k - 1) * n
  }

  /** combnk's count: |V|^k tuples of length k. */
  lemma {:induction false} RepeatCount(V: seq<int>, k: nat)
    ensures |Enum(Repeat(V, k))| == Pow(|V|, k)
    decreases k
  {
    if k > 0 {
      RepeatCount(V, k - 1);
      assert Repeat(V, k)[..k - 1] == Repeat(V, k - 1);
    }
  }

  /**
   * combnk's result holds every tuple of length k over V and nothing else,
   * each exactly once when V has no repeats.
   */
  lemma RepeatEnum(V: seq<int>, k: nat, t: seq<int>)
    ensures t in Enum(Repeat(V, k)) <==> |t| == k && forall i :: 0 <= i < k ==> t[i] in V
    ensures Distinct(V) ==> Distinct(Enum(Repeat(V, k)))
  {
    EnumMembership(Repeat(V, k), t);
    if Distinct(V) {
      EnumDistinct(Repeat(V, k));
    }
  }

  /** The one-value tuples of combnkRec's base case are the enumeration of a single domain. */
  lemma {:induction false} SingletonsAreExtend(V: seq<int>)
    ensures Extend([[]], V) == seq(|V|, i requires 0 <= i < |V| => [V[i]])
    decreases |V|
  {
    if |V| > 0 {
      var n := |V| - 1;
      SingletonsAreExtend(V[..n]);
      var one: seq<seq<int>> := [[]];
      assert |Appended(one, V[n])| == 1;
      assert Appended(one, V[n])[0] == [] + [V[n]] == [V[n]];
    }
  }

  /** One more domain extends the enumeration of the ones before it. */
  lemma EnumSnoc(ds: seq<seq<int>>, V: seq<int>)
    ensures Enum(ds + [V]) == Extend(Enum(ds), V)
  {
    assert (ds + [V])[..|ds|] == ds;
  }

  /**
   * addIntegerToCombination: a fresh list holding, for each value in turn,
   * a copy of every tuple with that value appended. The inputs are values
   * and are not changed.
   */
  method AddIntegerToCombination(combStates: seq<seq<int>>, values: seq<int>) returns (output: seq<seq<int>>)
    ensures output == Extend(combStates, values)
    ensures |output| == |values| * |combStates|
  {
    output := [];
    var indexValues := 0;
    while indexValues < |values|
      invariant 0 <= indexValues <= |values|
      invariant output == Extend(combStates, values[..indexValues])
    {
      ghost var before := output;
      var indexArray := 0;
      while indexArray < |combStates|
        invariant 0 <= indexArray <= |combStates|
        invariant output == before + Appended(combStates[..indexArray], values[indexValues])
      {
        output := output + [combStates[indexArray] + [values[indexValues]]];
        indexArray := indexArray + 1;
        assert Appended(combStates[..indexArray], values[indexValues])
            == Appended(combStates[..indexArray - 1], values[indexValues]) + [combStates[indexArray - 1] + [values[indexValues]]];
      }
      assert combStates[..|combStates|] == combStates;
      assert values[..indexValues + 1][..indexValues] == values[..indexValues];
      indexValues := indexValues + 1;
    }
    assert values[..|values|] == values;
  }

  /**
   * combnkRec(length, values): all tuples of length + 1 over values. The
   * base case lists one singleton per value; otherwise every shorter tuple
   * is extended by every value, with the same nested loop as
   * addIntegerToCombination.
   */
  method CombnkRec(length: nat, values: seq<int>) returns (output: seq<seq<int>>)
    ensures output == Enum(Repeat(values, length + 1))
    decreases length
  {
    if length == 0 {
      output := [];
      var indexValues := 0;
      while indexValues < |values|
        invariant 0 <= indexValues <= |values|
        invariant output == seq(indexValues, i requires 0 <= i < indexValues => [values[i]])
      {
        output := output + [[values[indexValues]]];
        indexValues := indexValues + 1;
      }
      SingletonsAreExtend(values);
      assert Repeat(values, 1) == [] + [values];
      EnumSnoc([], values);
      return;
    }
    var aux := CombnkRec(length - 1, values);
    output := AddIntegerToCombination(aux, values);
    assert Repeat(values, length + 1) == Repeat(values, length) + [values];
    EnumSnoc(Repeat(values, length), values);
  }

  /** combnk(length, values): all tuples of the given length over values. */
  method Combnk(length: int, values: seq<int>) returns (output: seq<seq<int>>)
    requires length >= 1
    ensures output == Enum(Repeat(values, length))
  {
    output := CombnkRec(length - 1, values);
  }

  /** isValid: every tuple passes. */
  predicate IsValid(comb: seq<int>)
  {
    true
  }

  /** The tuples of s that pass the test, in order. */
  function Filter(s: seq<seq<int>>, isValid: seq<int> -> bool): (r: seq<seq<int>>)
    ensures |r| <= |s|
  {
    if |s| == 0 then []
    else Filter(s[..|s| - 1], isValid) + (if isValid(s[|s| - 1]) then [s[|s| - 1]] else [])
  }

  /** Filtering keeps exactly the tuples that pass the test. */
  lemma {:induction false} FilterKeeps(s: seq<seq<int>>, isValid: seq<int> -> bool, t: seq<int>)
    ensures t in Filter(s, isValid) <==> t in s && isValid(t)
    decreases |s|
  {
    if |s| > 0 {
      var n := |s| - 1;
      FilterKeeps(s[..n], isValid, t);
      assert s == s[..n] + [s[n]];
    }
  }

  /** With isValid always true, filtering changes nothing. */
  lemma {:induction false} FilterIsIdentity(s: seq<seq<int>>)
    ensures Filter(s, IsValid) == s
    decreases |s|
  {
    if |s| > 0 {
      FilterIsIdentity(s[..|s| - 1]);
    }
  }

  /** A list of tuples that filterStates edits in place. */
  class TupleList {
    var items: seq<seq<int>>

    constructor (items: seq<seq<int>>)
      ensures this.items == items
    {
      this.items := items;
    }
  }

  /**
   * filterStates: walks the list, removing each tuple that fails the test and
   * stepping back so that the tuple shifted into its place is examined next.
   * The generators pass IsValid.
   */
  method FilterStates(combStates: TupleList, isValid: seq<int> -> bool)
    modifies combStates
    ensures combStates.items == Filter(old(combStates.items), isValid)
  {
    ghost var original := combStates.items;
    ghost var seen := 0;
    var i := 0;
    while i < |combStates.items|
      invariant 0 <= seen <= |original|
      invariant Walked(original, seen, combStates.items, i, isValid)
      decreases |original| - seen
    {
      FilterAdvance(original, seen, combStates.items, i, isValid);
      if !isValid(combStates.items[i]) {
        combStates.items := combStates.items[..i] + combStates.items[i + 1..];
        i := i - 1;
      }
      i := i + 1;
      seen := seen + 1;
    }
    WalkDone(original, seen, combStates.items, i, isValid);
  }

  /**
   * The state of filterStates after examining `seen` original tuples: those
   * kept so far, then the ones not yet examined, with the walk's position
   * just after the kept ones.
   */
  predicate Walked(original: seq<seq<int>>, seen: nat, items: seq<seq<int>>, i: int, isValid: seq<int> -> bool)
    requires seen <= |original|
  {
    items == Filter(original[..seen], isValid) + original[seen..] && i == |Filter(original[..seen], isValid)|
  }

  /** A walk that has reached the end of the list has examined every original tuple. */
  lemma WalkDone(original: seq<seq<int>>, seen: nat, items: seq<seq<int>>, i: int, isValid: seq<int> -> bool)
    requires seen <= |original| && Walked(original, seen, items, i, isValid) && i >= |items|
    ensures items == Filter(original, isValid)
  {
    assert original[..|original|] == original;
  }

  /**
   * One step of filterStates: the tuple at the walk's position is the next
   * original one; keeping it or cutting it out leaves the list as Filter of
   * one more original tuple followed by the rest.
   */
  lemma FilterAdvance(original: seq<seq<int>>, seen: nat, items: seq<seq<int>>, i: int, isValid: seq<int> -> bool)
    requires seen < |original| && Walked(original, seen, items, i, isValid)
    ensures 0 <= i < |items| && items[i] == original[seen]
    ensures isValid(items[i]) ==> Walked(original, seen + 1, items, i + 1, isValid)
    ensures !isValid(items[i]) ==> Walked(original, seen + 1, items[..i] + items[i + 1..], i, isValid)
  {
    FilterStep(original, seen, isValid);
    var kept := Filter(original[..seen], isValid);
    var rest := original[seen + 1..];
    assert original[seen..] == [original[seen]] + rest;
    assert items == kept + ([original[seen]] + rest);
    assert items[..|kept|] == kept;
    assert items[|kept| + 1..] == rest;
  }

  /** One more examined tuple: Filter of the longer prefix. */
  lemma FilterStep(s: seq<seq<int>>, n: nat, isValid: seq<int> -> bool)
    requires n < |s|
    ensures Filter(s[..n + 1], isValid) == Filter(s[..n], isValid) + (if isValid(s[n]) then [s[n]] else [])
  {
    assert s[..n + 1][..n] == s[..n];
  }
}
