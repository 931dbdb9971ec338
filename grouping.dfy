/** Group-by over sequences: the distinct keys in first-appearance order (what
    `Series.unique()` and the insertion order of a Python dict give), and the
    facts that the groups of a key partition the input. */
module Grouping {
  import opened Sequences

  /** `[key(x) for x in s]` */
  function Keys<T, K>(s: seq<T>, key: T -> K): (r: seq<K>)
    ensures |r| == |s|
    ensures forall i :: 0 <= i < |s| ==> r[i] == key(s[i])
  {
    if |s| == 0 then [] else Keys(s[..|s| - 1], key) + [key(s[|s| - 1])]
  }

  /** The distinct elements of `s`, each where it first appears. */
  function Distinct<K(==)>(s: seq<K>): (r: seq<K>)
    ensures |r| <= |s|
    ensures forall x :: x in r ==> x in s
    ensures forall x :: x in s ==> x in r
    ensures forall i, j :: 0 <= i < j < |r| ==> r[i] != r[j]
  {
    if |s| == 0 then []
    else
      assert s == s[..|s| - 1] + [s[|s| - 1]];
      var d := Distinct(s[..|s| - 1]);
      if s[|s| - 1] in d then d else d + [s[|s| - 1]]
  }

  /** The position where `x` first occurs in `s`. */
  function FirstIndex<K(==)>(s: seq<K>, x: K): (i: nat)
    requires x in s
    ensures i < |s| && s[i] == x
    ensures forall j :: 0 <= j < i ==> s[j] != x
  {
    if s[0] == x then 0 else 1 + FirstIndex(s[1..], x)
  }

  lemma FirstIndexPrefix<K>(s: seq<K>, x: K, y: K)
    requires y in s
    ensures FirstIndex(s + [x], y) == FirstIndex(s, y)
  {
    var k, k' := FirstIndex(s + [x], y), FirstIndex(s, y);
    assert (s + [x])[k'] == y;
    assert k <= k';
    assert s[k] == y;
  }

  /** `Distinct` lists the keys in the order in which they first appear. */
  lemma {:induction false} DistinctInFirstAppearanceOrder<K>(s: seq<K>, i: nat, j: nat)
    requires i < j < |Distinct(s)|
    ensures FirstIndex(s, Distinct(s)[i]) < FirstIndex(s, Distinct(s)[j])
    decreases |s|
  {
    var s', x := s[..|s| - 1], s[|s| - 1];
    assert s == s' + [x];
    var d, d' := Distinct(s), Distinct(s');
    assert d[i] in s' && d[i] in d' by {
      if x in d' { assert d == d'; } else { assert d == d' + [x]; assert d[i] in d'; }
    }
    FirstIndexPrefix(s', x, d[i]);
    if x in d' {
      assert d == d';
      FirstIndexPrefix(s', x, d[j]);
      DistinctInFirstAppearanceOrder(s', i, j);
    } else if j < |d'| {
      assert d == d' + [x];
      FirstIndexPrefix(s', x, d[j]);
      DistinctInFirstAppearanceOrder(s', i, j);
    } else {
      assert d == d' + [x] && d[j] == x;
      assert x !in s';
      assert FirstIndex(s, x) == |s'|;
    }
  }

  /** The mask selecting the elements whose key is `k`. */
  function WithKey<T, K(==)>(key: T -> K, k: K): T -> bool {
    x => key(x) == k
  }

  /** The total size of the groups of the keys `ks`. */
  function GroupSizes<T, K(==)>(s: seq<T>, key: T -> K, ks: seq<K>): nat {
    if |ks| == 0 then 0 else GroupSizes(s, key, ks[..|ks| - 1]) + Count(s, WithKey(key, ks[|ks| - 1]))
  }

  lemma {:induction false} GroupSizesSnoc<T, K>(s: seq<T>, x: T, key: T -> K, ks: seq<K>)
    requires forall i, j :: 0 <= i < j < |ks| ==> ks[i] != ks[j]
    ensures GroupSizes(s + [x], key, ks) == GroupSizes(s, key, ks) + (if key(x) in ks then 1 else 0)
    decreases |ks|
  {
    if |ks| > 0 {
      var ks', k := ks[..|ks| - 1], ks[|ks| - 1];
      assert ks == ks' + [k];
      GroupSizesSnoc(s, x, key, ks');
      FilterSnoc(s, x, WithKey(key, k));
      assert key(x) == k ==> key(x) !in ks';
    }
  }

  lemma KeyOfMember<T, K>(s: seq<T>, key: T -> K, x: T)
    requires x in s
    ensures key(x) in Keys(s, key)
  {
    var i :| 0 <= i < |s| && s[i] == x;
    assert Keys(s, key)[i] == key(x);
  }

  /** The distinct keys after one more element: the new key is appended when unseen. */
  lemma DistinctKeysSnoc<T, K>(s: seq<T>, x: T, key: T -> K)
    ensures Distinct(Keys(s + [x], key)) ==
      if key(x) in Distinct(Keys(s, key)) then Distinct(Keys(s, key)) else Distinct(Keys(s, key)) + [key(x)]
  {
    var ks := Keys(s + [x], key);
    assert ks == Keys(s, key) + [key(x)];
    assert ks[..|ks| - 1] == Keys(s, key);
  }

  /** The group of a key that appears first in the last element holds that element alone. */
  lemma NewKeyGroup<T, K>(s: seq<T>, x: T, key: T -> K)
    requires key(x) !in Distinct(Keys(s, key))
    ensures Filter(s + [x], WithKey(key, key(x))) == [x]
  {
    forall y | y in s ensures !WithKey(key, key(x))(y) {
      KeyOfMember(s, key, y);
    }
    CountNone(s, WithKey(key, key(x)));
    FilterSnoc(s, x, WithKey(key, key(x)));
  }

  /** Every element lies in exactly one group: the group sizes add up to the input length. */
  lemma {:induction false} GroupSizesCoverInput<T, K>(s: seq<T>, key: T -> K)
    ensures GroupSizes(s, key, Distinct(Keys(s, key))) == |s|
    decreases |s|
  {
    if |s| > 0 {
      var s', x := s[..|s| - 1], s[|s| - 1];
      var d := Distinct(Keys(s', key));
      GroupSizesCoverInput(s', key);
      DistinctKeysSnoc(s', x, key);
      if key(x) !in d {
        NewKeyGroup(s', x, key);
      }
      GroupSizesStep(s', x, key, d, Distinct(Keys(s' + [x], key)));
      SplitLast(s);
    }
  }

  lemma GroupSizesAppend<T, K>(s: seq<T>, key: T -> K, ks: seq<K>, k: K)
    ensures GroupSizes(s, key, ks + [k]) == GroupSizes(s, key, ks) + Count(s, WithKey(key, k))
  {
    assert (ks + [k])[..|ks|] == ks;
  }

  /** One more element adds one to the group sizes, over the keys seen so far
      extended by the element's key when it is new. */
  lemma GroupSizesStep<T, K>(s: seq<T>, x: T, key: T -> K, d: seq<K>, d1: seq<K>)
    requires forall i, j :: 0 <= i < j < |d| ==> d[i] != d[j]
    requires GroupSizes(s, key, d) == |s|
    requires d1 == if key(x) in d then d else d + [key(x)]
    requires key(x) !in d ==> |Filter(s + [x], WithKey(key, key(x)))| == 1
    ensures GroupSizes(s + [x], key, d1) == |s| + 1
  {
    GroupSizesSnoc(s, x, key, d);
    if key(x) !in d {
      GroupSizesAppend(s + [x], key, d, key(x));
    }
  }

  /** The total of a real-valued weight over a sequence. */
  function SumBy<T>(s: seq<T>, w: T -> real): real {
    if |s| == 0 then 0.0 else SumBy(s[..|s| - 1], w) + w(s[|s| - 1])
  }

  lemma SumBySnoc<T>(s: seq<T>, x: T, w: T -> real)
    ensures SumBy(s + [x], w) == SumBy(s, w) + w(x)
  {
    assert (s + [x])[..|s|] == s;
  }

  /** The weight total of each key's group, summed over the keys `ks`. */
  function GroupTotals<T, K(==)>(s: seq<T>, key: T -> K, w: T -> real, ks: seq<K>): real {
    if |ks| == 0 then 0.0 else GroupTotals(s, key, w, ks[..|ks| - 1]) + SumBy(Filter(s, WithKey(key, ks[|ks| - 1])), w)
  }

  lemma {:induction false} GroupTotalsSnoc<T, K>(s: seq<T>, x: T, key: T -> K, w: T -> real, ks: seq<K>)
    requires forall i, j :: 0 <= i < j < |ks| ==> ks[i] != ks[j]
    ensures GroupTotals(s + [x], key, w, ks) == GroupTotals(s, key, w, ks) + (if key(x) in ks then w(x) else 0.0)
    decreases |ks|
  {
    if |ks| > 0 {
      var ks', k := ks[..|ks| - 1], ks[|ks| - 1];
      assert ks == ks' + [k];
      GroupTotalsSnoc(s, x, key, w, ks');
      FilterSnoc(s, x, WithKey(key, k));
      if key(x) == k {
        assert WithKey(key, k)(x);
        assert Filter(s + [x], WithKey(key, k)) == Filter(s, WithKey(key, k)) + [x];
        SumBySnoc(Filter(s, WithKey(key, k)), x, w);
        assert key(x) !in ks';
      } else {
        assert !WithKey(key, k)(x);
        assert Filter(s + [x], WithKey(key, k)) == Filter(s, WithKey(key, k));
      }
    }
  }

  /** Splitting by key and adding up the groups' totals gives the total over the whole input. */
  lemma {:induction false} GroupTotalsCoverInput<T, K>(s: seq<T>, key: T -> K, w: T -> real)
    ensures GroupTotals(s, key, w, Distinct(Keys(s, key))) == SumBy(s, w)
    decreases |s|
  {
    if |s| > 0 {
      var s', x := s[..|s| - 1], s[|s| - 1];
      var d := Distinct(Keys(s', key));
      GroupTotalsCoverInput(s', key, w);
      DistinctKeysSnoc(s', x, key);
      if key(x) !in d {
        NewKeyGroup(s', x, key);
      }
      GroupTotalsStep(s', x, key, w, d, Distinct(Keys(s' + [x], key)));
      SplitLast(s);
    }
  }

  lemma GroupTotalsAppend<T, K>(s: seq<T>, key: T -> K, w: T -> real, ks: seq<K>, k: K)
    ensures GroupTotals(s, key, w, ks + [k]) == GroupTotals(s, key, w, ks) + SumBy(Filter(s, WithKey(key, k)), w)
  {
    assert (ks + [k])[..|ks|] == ks;
  }

  /** One more element adds its weight to the group totals, over the keys seen so
      far extended by the element's key when it is new. */
  lemma GroupTotalsStep<T, K>(s: seq<T>, x: T, key: T -> K, w: T -> real, d: seq<K>, d1: seq<K>)
    requires forall i, j :: 0 <= i < j < |d| ==> d[i] != d[j]
    requires GroupTotals(s, key, w, d) == SumBy(s, w)
    requires d1 == if key(x) in d then d else d + [key(x)]
    requires key(x) !in d ==> Filter(s + [x], WithKey(key, key(x))) == [x]
    ensures GroupTotals(s + [x], key, w, d1) == SumBy(s + [x], w)
  {
    GroupTotalsSnoc(s, x, key, w, d);
    SumBySnoc(s, x, w);
    if key(x) !in d {
      assert SumBy([x], w) == SumBy([], w) + w(x);
      GroupTotalsAppend(s + [x], key, w, d, key(x));
    }
  }
}
