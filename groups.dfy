/** Grouping rows by a key, as the aggregations of the system do with a
    `Map` filled in one pass: the keys in order of first insertion, and per
    key the sum of a value over the rows with that key. */
module Grouping {
  import opened Wrappers
  import opened Seqs

  /** The keys of the rows in order of first occurrence: the key order of
      a `Map` that one pass over `s` fills. */
  function Keys<T, K(==)>(s: seq<T>, key: T -> K): (ks: seq<K>)
    ensures NoDuplicates(ks)
  {
    if s == [] then []
    else
      var ks := Keys(s[..|s| - 1], key);
      var k := key(s[|s| - 1]);
      if k in ks then ks else ks + [k]
  }

  /** One more row adds its key at the end, unless the key is known. */
  lemma KeysSnoc<T, K>(p: seq<T>, x: T, key: T -> K)
    ensures Keys(p + [x], key) == if key(x) in Keys(p, key) then Keys(p, key) else Keys(p, key) + [key(x)]
  {
    assert (p + [x])[..|p|] == p;
  }

  /** The keys listed are exactly the keys of the rows. */
  lemma {:induction false} KeysMembers<T, K>(s: seq<T>, key: T -> K)
    ensures forall x :: x in s ==> key(x) in Keys(s, key)
    ensures forall k :: k in Keys(s, key) ==> exists x :: x in s && key(x) == k
  {
    if s != [] {
      var p := s[..|s| - 1];
      assert s == p + [s[|s| - 1]];
      KeysMembers(p, key);
    }
  }

  /** The sum of `f` over the rows whose key is `k`. */
  function KeySum<T, K(==)>(s: seq<T>, key: T -> K, k: K, f: T -> int): int
  {
    if s == [] then 0
    else KeySum(s[..|s| - 1], key, k, f) + (if key(s[|s| - 1]) == k then f(s[|s| - 1]) else 0)
  }

  lemma KeySumSnoc<T, K>(p: seq<T>, x: T, key: T -> K, k: K, f: T -> int)
    ensures KeySum(p + [x], key, k, f) == KeySum(p, key, k, f) + (if key(x) == k then f(x) else 0)
  {
    assert (p + [x])[..|p|] == p;
  }

  /** A key no row has sums to nothing. */
  lemma {:induction false} KeySumAbsent<T, K>(s: seq<T>, key: T -> K, k: K, f: T -> int)
    requires k !in Keys(s, key)
    ensures KeySum(s, key, k, f) == 0
  {
    if s != [] {
      var p := s[..|s| - 1];
      KeysSnoc(p, s[|s| - 1], key);
      assert s == p + [s[|s| - 1]];
      KeySumAbsent(p, key, k, f);
    }
  }

  /** The same sum for a value of type `real`. */
  function KeySumReal<T, K(==)>(s: seq<T>, key: T -> K, k: K, f: T -> real): real
  {
    if s == [] then 0.0
    else KeySumReal(s[..|s| - 1], key, k, f) + (if key(s[|s| - 1]) == k then f(s[|s| - 1]) else 0.0)
  }

  lemma KeySumRealSnoc<T, K>(p: seq<T>, x: T, key: T -> K, k: K, f: T -> real)
    ensures KeySumReal(p + [x], key, k, f) == KeySumReal(p, key, k, f) + (if key(x) == k then f(x) else 0.0)
  {
    assert (p + [x])[..|p|] == p;
  }

  lemma {:induction false} KeySumRealAbsent<T, K>(s: seq<T>, key: T -> K, k: K, f: T -> real)
    requires k !in Keys(s, key)
    ensures KeySumReal(s, key, k, f) == 0.0
  {
    if s != [] {
      var p := s[..|s| - 1];
      KeysSnoc(p, s[|s| - 1], key);
      assert s == p + [s[|s| - 1]];
      KeySumRealAbsent(p, key, k, f);
    }
  }

  /** The per-key sums added up over the keys `ks`. */
  function KeysSum<T, K(==)>(ks: seq<K>, s: seq<T>, key: T -> K, f: T -> int): int
  {
    if ks == [] then 0
    else KeysSum(ks[..|ks| - 1], s, key, f) + KeySum(s, key, ks[|ks| - 1], f)
  }

  lemma {:induction false} KeysSumSnoc<T, K>(ks: seq<K>, p: seq<T>, x: T, key: T -> K, f: T -> int)
    requires NoDuplicates(ks)
    ensures KeysSum(ks, p + [x], key, f) == KeysSum(ks, p, key, f) + (if key(x) in ks then f(x) else 0)
  {
    if ks != [] {
      var ks' := ks[..|ks| - 1];
      var k := ks[|ks| - 1];
      assert ks == ks' + [k];
      KeysSumSnoc(ks', p, x, key, f);
      KeySumSnoc(p, x, key, k, f);
      assert k !in ks';
    }
  }

  /** Adding up the groups gives the total over all rows: every row lands
      in exactly one group. */
  lemma {:induction false} KeysSumTotal<T, K>(s: seq<T>, key: T -> K, f: T -> int)
    ensures KeysSum(Keys(s, key), s, key, f) == SumOfInt(s, f)
  {
    if s != [] {
      var p := s[..|s| - 1];
      var x := s[|s| - 1];
      assert s == p + [x];
      var ks := Keys(p, key);
      KeysSumTotal(p, key, f);
      KeysSumSnoc(ks, p, x, key, f);
      KeysSnoc(p, x, key);
      if key(x) !in ks {
        assert (ks + [key(x)])[..|ks|] == ks;
        KeySumSnoc(p, x, key, key(x), f);
        KeySumAbsent(p, key, key(x), f);
      }
    }
  }

  /** Each listed key has at least one row, so counting its rows gives a
      positive number. */
  lemma {:induction false} KeyCountPositive<T, K>(s: seq<T>, key: T -> K, k: K)
    requires k in Keys(s, key)
    ensures KeySum(s, key, k, One()) >= 1
  {
    var p, x := s[..|s| - 1], s[|s| - 1];
    assert s == p + [x];
    KeysSnoc(p, x, key);
    KeySumSnoc(p, x, key, k, One());
    if k in Keys(p, key) {
      KeyCountPositive(p, key, k);
    } else {
      KeySumAbsent(p, key, k, One());
    }
  }

  /** The entries built one per key add up, field by field, to the sums of
      their groups. */
  lemma {:induction false} RowsSum<T, K, R>(ks: seq<K>, s: seq<T>, key: T -> K, f: T -> int, row: K -> R, field: R -> int)
    requires forall k :: k in ks ==> field(row(k)) == KeySum(s, key, k, f)
    ensures SumOfInt(Map(ks, row), field) == KeysSum(ks, s, key, f)
  {
    if ks != [] {
      var ks' := ks[..|ks| - 1];
      assert forall k :: k in ks' ==> k in ks;
      RowsSum(ks', s, key, f, row, field);
      MapPrefixStep(ks, |ks| - 1, row);
      assert ks[..|ks|] == ks;
      SumOfIntConcat(Map(ks', row), [row(ks[|ks| - 1])], field);
    }
  }

  /** The first row whose key is `k`: the row that creates the entry of
      `k` in a `Map` that keeps an existing entry's other fields. */
  function FirstWithKey<T, K(==)>(s: seq<T>, key: T -> K, k: K): (r: Option<T>)
    ensures r.Some? ==> r.value in s && key(r.value) == k
  {
    if s == [] then None
    else
      match FirstWithKey(s[..|s| - 1], key, k)
      case Some(x) => Some(x)
      case None => if key(s[|s| - 1]) == k then Some(s[|s| - 1]) else None
  }

  lemma FirstWithKeySnoc<T, K>(p: seq<T>, x: T, key: T -> K, k: K)
    ensures FirstWithKey(p + [x], key, k) ==
      if FirstWithKey(p, key, k).Some? then FirstWithKey(p, key, k)
      else if key(x) == k then Some(x) else None
  {
    assert (p + [x])[..|p|] == p;
  }

  /** A key has a first row exactly when it is listed. */
  lemma {:induction false} FirstWithKeyPresent<T, K>(s: seq<T>, key: T -> K, k: K)
    ensures FirstWithKey(s, key, k).Some? <==> k in Keys(s, key)
  {
    if s != [] {
      var p, x := s[..|s| - 1], s[|s| - 1];
      assert s == p + [x];
      FirstWithKeyPresent(p, key, k);
      FirstWithKeySnoc(p, x, key, k);
      KeysSnoc(p, x, key);
    }
  }

  /** The row found is the earliest row with key `k`. */
  lemma {:induction false} FirstWithKeyIsFirst<T, K>(s: seq<T>, key: T -> K, k: K)
    ensures FirstWithKey(s, key, k).None? ==> forall i :: 0 <= i < |s| ==> key(s[i]) != k
    ensures FirstWithKey(s, key, k).Some? ==>
      exists i :: 0 <= i < |s| && s[i] == FirstWithKey(s, key, k).value && forall j :: 0 <= j < i ==> key(s[j]) != k
  {
    if s != [] {
      var p, x := s[..|s| - 1], s[|s| - 1];
      assert s == p + [x];
      FirstWithKeyIsFirst(p, key, k);
      FirstWithKeySnoc(p, x, key, k);
      if FirstWithKey(p, key, k).Some? {
        var i :| 0 <= i < |p| && p[i] == FirstWithKey(p, key, k).value && forall j :: 0 <= j < i ==> key(p[j]) != k;
        assert s[i] == p[i];
      } else {
        assert forall i :: 0 <= i < |p| ==> s[i] == p[i];
      }
    }
  }
}
