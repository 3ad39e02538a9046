/** The array operations of JavaScript that the application leans on
    (`filter`, `reduce` to a sum, `slice`, a stable `sort` and the
    de-duplication done with a `Set`), as functions over sequences. */
module Seqs {
  import opened Wrappers

  // ---------------------------------------------------------------------
  // filter
  // ---------------------------------------------------------------------

  /** `s.filter(p)` */
  function Filter<T>(s: seq<T>, p: T -> bool): (r: seq<T>)
    ensures |r| <= |s|
    ensures forall x :: x in r ==> x in s && p(x)
    ensures forall x :: x in s && p(x) ==> x in r
  {
    if s == [] then []
    else if p(s[0]) then [s[0]] + Filter(s[1..], p)
    else Filter(s[1..], p)
  }

  /** Filtering keeps the order of the input: it distributes over `+`. */
  lemma {:induction false} FilterConcat<T>(a: seq<T>, b: seq<T>, p: T -> bool)
    ensures Filter(a + b, p) == Filter(a, p) + Filter(b, p)
  {
    if a == [] {
      assert a + b == b;
    } else {
      assert (a + b)[1..] == a[1..] + b;
      FilterConcat(a[1..], b, p);
    }
  }

  /** The step a loop that pushes the elements satisfying `p` needs. */
  lemma FilterSnoc<T>(s: seq<T>, x: T, p: T -> bool)
    ensures Filter(s + [x], p) == if p(x) then Filter(s, p) + [x] else Filter(s, p)
  {
    FilterConcat(s, [x], p);
    assert Filter([x], p) == if p(x) then [x] else [];
  }

  /** A prefix one element longer. */
  lemma PrefixSnoc<T>(s: seq<T>, i: nat)
    requires i < |s|
    ensures s[..i + 1] == s[..i] + [s[i]]
  {
    assert s[..i + 1] == s[..i] + [s[i]];
  }

  /** Filtering a prefix one element longer. */
  lemma FilterPrefixStep<T>(s: seq<T>, i: nat, p: T -> bool)
    requires i < |s|
    ensures Filter(s[..i + 1], p) == if p(s[i]) then Filter(s[..i], p) + [s[i]] else Filter(s[..i], p)
  {
    assert s[..i + 1] == s[..i] + [s[i]];
    FilterSnoc(s[..i], s[i], p);
  }

  /** Two complementary filters split a sequence between them. */
  lemma {:induction false} FilterPartition<T>(s: seq<T>, p: T -> bool, q: T -> bool)
    requires forall x :: x in s ==> p(x) == !q(x)
    ensures |Filter(s, p)| + |Filter(s, q)| == |s|
  {
    if s != [] {
      assert forall x :: x in s[1..] ==> x in s;
      FilterPartition(s[1..], p, q);
    }
  }

  /** The element at index `k` that satisfies `p` sits in the filtered
      sequence after the ones before it that satisfy `p`. */
  lemma FilterIndex<T>(s: seq<T>, p: T -> bool, k: nat)
    requires k < |s| && p(s[k])
    ensures |Filter(s[..k], p)| < |Filter(s, p)|
    ensures Filter(s, p)[|Filter(s[..k], p)|] == s[k]
  {
    assert s == s[..k + 1] + s[k + 1..];
    FilterConcat(s[..k + 1], s[k + 1..], p);
    FilterPrefixStep(s, k, p);
  }

  /** `a` is `b` with some elements left out, the rest in the same order. */
  ghost predicate IsSubsequence<T>(a: seq<T>, b: seq<T>)
    decreases |b|
  {
    a == [] || (b != [] && ((a[0] == b[0] && IsSubsequence(a[1..], b[1..])) || IsSubsequence(a, b[1..])))
  }

  /** Filtering keeps the order. */
  lemma {:induction false} FilterIsSubsequence<T>(s: seq<T>, p: T -> bool)
    ensures IsSubsequence(Filter(s, p), s)
  {
    if s != [] {
      FilterIsSubsequence(s[1..], p);
    }
  }

  /** A prefix of a subsequence is a subsequence. */
  lemma {:induction false} PrefixIsSubsequence<T>(a: seq<T>, b: seq<T>, n: nat)
    requires n <= |a| && IsSubsequence(a, b)
    ensures IsSubsequence(a[..n], b)
    decreases |b|
  {
    if n > 0 {
      if a[0] == b[0] && IsSubsequence(a[1..], b[1..]) {
        assert a[..n][1..] == a[1..][..n - 1];
        PrefixIsSubsequence(a[1..], b[1..], n - 1);
      } else {
        PrefixIsSubsequence(a, b[1..], n);
      }
    }
  }

  /** `s.filter(p).slice(0, n)` keeps the order of `s`, and keeps every
      element satisfying `p` that fewer than `n` such elements precede. */
  lemma TakeFilter<T>(s: seq<T>, p: T -> bool, n: int)
    ensures IsSubsequence(Take(Filter(s, p), n), s)
    ensures forall k :: 0 <= k < |s| && p(s[k]) && |Filter(s[..k], p)| < n ==> s[k] in Take(Filter(s, p), n)
  {
    var r := Take(Filter(s, p), n);
    FilterIsSubsequence(s, p);
    PrefixIsSubsequence(Filter(s, p), s, |r|);
    forall k | 0 <= k < |s| && p(s[k]) && |Filter(s[..k], p)| < n
      ensures s[k] in r
    {
      FilterIndex(s, p, k);
      assert r[|Filter(s[..k], p)|] == s[k];
    }
  }

  /** Number of elements satisfying `p`. */
  function Count<T>(s: seq<T>, p: T -> bool): (n: nat)
    ensures n <= |s|
  {
    |Filter(s, p)|
  }

  /** Some element satisfies `p` exactly when the count is positive. */
  lemma CountPositive<T>(s: seq<T>, p: T -> bool)
    ensures Count(s, p) > 0 <==> exists x :: x in s && p(x)
  {
    var r := Filter(s, p);
    if |r| > 0 {
      assert r[0] in r;
    }
  }

  /** Counting over a prefix one element longer. */
  lemma CountPrefixStep<T>(s: seq<T>, i: nat, p: T -> bool)
    requires i < |s|
    ensures Count(s[..i + 1], p) == Count(s[..i], p) + (if p(s[i]) then 1 else 0)
  {
    FilterPrefixStep(s, i, p);
  }

  /** Two conditions no element meets together count at most once each. */
  lemma {:induction false} CountDisjoint<T>(s: seq<T>, p: T -> bool, q: T -> bool)
    requires forall x :: x in s ==> !(p(x) && q(x))
    ensures Count(s, p) + Count(s, q) <= |s|
  {
    if s != [] {
      assert forall x :: x in s[1..] ==> x in s;
      CountDisjoint(s[1..], p, q);
    }
  }

  /** A condition implied by another counts at least as many elements. */
  lemma {:induction false} CountMonotone<T>(s: seq<T>, p: T -> bool, q: T -> bool)
    requires forall x :: x in s ==> p(x) ==> q(x)
    ensures Count(s, p) <= Count(s, q)
  {
    if s != [] {
      assert forall x :: x in s[1..] ==> x in s;
      CountMonotone(s[1..], p, q);
    }
  }

  // ---------------------------------------------------------------------
  // map
  // ---------------------------------------------------------------------

  /** `s.map(f)` */
  function Map<T, U>(s: seq<T>, f: T -> U): (r: seq<U>)
    ensures |r| == |s|
    ensures forall k :: 0 <= k < |s| ==> r[k] == f(s[k])
  {
    seq(|s|, k requires 0 <= k < |s| => f(s[k]))
  }

  /** The image of every element the filter keeps is in the mapped result. */
  lemma MapFilterHas<T, U>(s: seq<T>, p: T -> bool, f: T -> U, x: T)
    requires x in s && p(x)
    ensures f(x) in Map(Filter(s, p), f)
  {
    var kept := Filter(s, p);
    var k :| 0 <= k < |kept| && kept[k] == x;
    assert Map(kept, f)[k] == f(x);
  }

  /** Mapping a prefix one element longer. */
  lemma MapPrefixStep<T, U>(s: seq<T>, i: nat, f: T -> U)
    requires i < |s|
    ensures Map(s[..i + 1], f) == Map(s[..i], f) + [f(s[i])]
  {
  }

  // ---------------------------------------------------------------------
  // find
  // ---------------------------------------------------------------------

  /** The index of the first element satisfying `p`, as `findIndex` gives
      it, with `None` for -1. */
  function FirstIndex<T>(s: seq<T>, p: T -> bool): (k: Option<nat>)
    ensures k.Some? ==> k.value < |s| && p(s[k.value])
    ensures k.Some? ==> forall j :: 0 <= j < k.value ==> !p(s[j])
    ensures k.None? ==> forall j :: 0 <= j < |s| ==> !p(s[j])
  {
    if s == [] then None
    else if p(s[0]) then Some(0)
    else
      match FirstIndex(s[1..], p)
      case None => None
      case Some(k) => Some(k + 1)
  }

  /** No element before index `i` satisfies `p`. */
  ghost predicate NoneBefore<T>(s: seq<T>, p: T -> bool, i: nat)
    requires i <= |s|
  {
    forall j :: 0 <= j < i ==> !p(s[j])
  }

  /** The step of a search loop that moves past an element. */
  lemma NoneBeforeStep<T>(s: seq<T>, p: T -> bool, i: nat)
    requires i < |s| && NoneBefore(s, p, i) && !p(s[i])
    ensures NoneBefore(s, p, i + 1)
  {
  }

  /** An element satisfying `p` that no earlier element satisfies is the
      first one. */
  lemma FirstIndexIs<T>(s: seq<T>, p: T -> bool, i: nat)
    requires i < |s| && p(s[i])
    requires NoneBefore(s, p, i)
    ensures FirstIndex(s, p) == Some(i)
  {
  }

  /** A search that passed every element finds none. */
  lemma FirstIndexNone<T>(s: seq<T>, p: T -> bool)
    requires NoneBefore(s, p, |s|)
    ensures FirstIndex(s, p) == None
  {
  }

  // ---------------------------------------------------------------------
  // reduce((sum, x) => sum + f(x), 0)
  // ---------------------------------------------------------------------

  /** `s.reduce((sum, x) => sum + f(x), 0)` over reals, folded from the left
      as `reduce` does (the last element is added last). */
  function SumOf<T>(s: seq<T>, f: T -> real): real
  {
    if s == [] then 0.0 else SumOf(s[..|s| - 1], f) + f(s[|s| - 1])
  }

  /** The same sum over integers (money in cents, counters). */
  function SumOfInt<T>(s: seq<T>, f: T -> int): int
  {
    if s == [] then 0 else SumOfInt(s[..|s| - 1], f) + f(s[|s| - 1])
  }

  lemma {:induction false} SumOfConcat<T>(a: seq<T>, b: seq<T>, f: T -> real)
    ensures SumOf(a + b, f) == SumOf(a, f) + SumOf(b, f)
  {
    if b != [] {
      assert (a + b)[..|a + b| - 1] == a + b[..|b| - 1];
      SumOfConcat(a, b[..|b| - 1], f);
    } else {
      assert a + b == a;
    }
  }

  lemma {:induction false} SumOfIntConcat<T>(a: seq<T>, b: seq<T>, f: T -> int)
    ensures SumOfInt(a + b, f) == SumOfInt(a, f) + SumOfInt(b, f)
  {
    if b != [] {
      assert (a + b)[..|a + b| - 1] == a + b[..|b| - 1];
      SumOfIntConcat(a, b[..|b| - 1], f);
    } else {
      assert a + b == a;
    }
  }

  /** A sum does not depend on the order of its terms. */
  lemma {:induction false} SumOfIntPermutation<T>(a: seq<T>, b: seq<T>, f: T -> int)
    requires multiset(a) == multiset(b)
    ensures SumOfInt(a, f) == SumOfInt(b, f)
    decreases |a|
  {
    if a == [] {
      assert |b| == |multiset(b)| == 0;
    } else {
      var x := a[|a| - 1];
      var a' := a[..|a| - 1];
      assert a == a' + [x];
      assert x in multiset(b);
      var j :| 0 <= j < |b| && b[j] == x;
      var b' := b[..j] + b[j + 1..];
      assert b == b[..j] + [x] + b[j + 1..];
      assert multiset(b) == multiset(b') + multiset{x};
      assert multiset(a) == multiset(a') + multiset{x};
      assert multiset(b') == multiset(b) - multiset{x};
      assert multiset(a') == multiset(a) - multiset{x};
      SumOfIntPermutation(a', b', f);
      SumOfIntConcat(b[..j] + [x], b[j + 1..], f);
      SumOfIntConcat(b[..j], [x], f);
      SumOfIntConcat(b[..j], b[j + 1..], f);
      SumOfIntConcat(a', [x], f);
    }
  }

  /** The step a loop that accumulates `f(s[i])` needs. */
  lemma SumOfPrefixStep<T>(s: seq<T>, i: nat, f: T -> real)
    requires i < |s|
    ensures SumOf(s[..i + 1], f) == SumOf(s[..i], f) + f(s[i])
  {
    assert s[..i + 1][..i] == s[..i];
  }

  lemma SumOfIntPrefixStep<T>(s: seq<T>, i: nat, f: T -> int)
    requires i < |s|
    ensures SumOfInt(s[..i + 1], f) == SumOfInt(s[..i], f) + f(s[i])
  {
    assert s[..i + 1][..i] == s[..i];
  }

  /** `() => 1`: summing it counts the elements. */
  function One<T>(): T -> int
  {
    (x: T) => 1
  }

  lemma {:induction false} SumOfOne<T>(s: seq<T>)
    ensures SumOfInt(s, One()) == |s|
  {
    if s != [] {
      SumOfOne(s[..|s| - 1]);
    }
  }

  /** A sum of terms each at least `m` is at least `m` times their number. */
  lemma {:induction false} SumOfIntLowerBound<T>(s: seq<T>, f: T -> int, m: int)
    requires forall x :: x in s ==> f(x) >= m
    ensures SumOfInt(s, f) >= m * |s|
  {
    if s != [] {
      assert forall y :: y in s[..|s| - 1] ==> y in s;
      SumOfIntLowerBound(s[..|s| - 1], f, m);
      assert m * |s| == m * (|s| - 1) + m;
    }
  }

  /** Leaving out non-negative terms cannot make a sum larger. */
  lemma {:induction false} SumOfIntFilterBound<T>(s: seq<T>, p: T -> bool, f: T -> int)
    requires forall x :: x in s ==> f(x) >= 0
    ensures SumOfInt(Filter(s, p), f) <= SumOfInt(s, f)
  {
    if s != [] {
      var s', x := s[..|s| - 1], s[|s| - 1];
      assert s == s' + [x];
      assert forall y :: y in s' ==> y in s;
      FilterSnoc(s', x, p);
      SumOfIntFilterBound(s', p, f);
      if p(x) {
        SumOfIntConcat(Filter(s', p), [x], f);
      }
    }
  }

  /** A sum of non-negative terms is non-negative. */
  lemma {:induction false} SumOfNonNegative<T>(s: seq<T>, f: T -> real)
    requires forall x :: x in s ==> f(x) >= 0.0
    ensures SumOf(s, f) >= 0.0
  {
    if s != [] {
      assert forall x :: x in s[..|s| - 1] ==> x in s;
      SumOfNonNegative(s[..|s| - 1], f);
    }
  }

  // ---------------------------------------------------------------------
  // slice
  // ---------------------------------------------------------------------

  /** How `slice` reads one of its indices: a negative index counts from
      the end, and every index is clamped into `0..n`. */
  function RelativeIndex(i: int, n: nat): (k: nat)
    ensures k <= n
    ensures 0 <= i ==> k == if i < n then i else n
    ensures i < 0 ==> k == if n + i > 0 then n + i else 0
  {
    if i < 0 then (if n + i > 0 then n + i else 0) else if i < n then i else n
  }

  /** `s.slice(start, end)` */
  function JsSlice<T>(s: seq<T>, start: int, end: int): (r: seq<T>)
    ensures |r| <= |s|
    ensures 0 <= start <= end <= |s| ==> r == s[start..end]
  {
    var from, to := RelativeIndex(start, |s|), RelativeIndex(end, |s|);
    if from < to then s[from..to] else []
  }

  /** `s.slice(0, n)`: the first `n` elements when `n` is not negative. */
  function Take<T>(s: seq<T>, n: int): (r: seq<T>)
    ensures 0 <= n ==> |r| == (if n < |s| then n else |s|) && r == s[..|r|]
    ensures n < 0 ==> r == s[..RelativeIndex(n, |s|)]
  {
    JsSlice(s, 0, n)
  }

  // ---------------------------------------------------------------------
  // stable sort
  // ---------------------------------------------------------------------

  /** The comparator of a sort, read as "strictly before", must be a strict
      weak order for `Array.prototype.sort` to be well defined. */
  ghost predicate StrictWeakOrder<T(!new)>(before: (T, T) -> bool)
  {
    (forall a, b :: before(a, b) ==> !before(b, a)) &&
    (forall a, b, c :: !before(a, b) && !before(b, c) ==> !before(a, c))
  }

  /** No element is strictly before an element that precedes it. */
  ghost predicate SortedBy<T>(s: seq<T>, before: (T, T) -> bool)
  {
    forall i, j :: 0 <= i < j < |s| ==> !before(s[j], s[i])
  }

  /** Inserts `x` in front of the first element that is not strictly
      before it, so that `x` stays ahead of the elements it ties with. */
  function Insert<T(!new)>(x: T, s: seq<T>, before: (T, T) -> bool): (r: seq<T>)
    requires StrictWeakOrder(before)
    ensures multiset(r) == multiset(s) + multiset{x}
    ensures SortedBy(s, before) ==> SortedBy(r, before)
  {
    if s == [] || !before(s[0], x) then
      assert SortedBy(s, before) ==> SortedBy([x] + s, before) by {
        if SortedBy(s, before) {
          forall j | 0 <= j < |s| ensures !before(s[j], x) {
            assert !before(s[j], s[0]) || j == 0;
          }
          ConsSorted(x, s, before);
        }
      }
      [x] + s
    else
      var rest := Insert(x, s[1..], before);
      assert multiset([s[0]] + rest) == multiset(s) + multiset{x} by {
        assert s == [s[0]] + s[1..];
      }
      assert SortedBy(s, before) ==> SortedBy([s[0]] + rest, before) by {
        if SortedBy(s, before) {
          assert SortedBy(s[1..], before);
          NoneBeforeKept(rest, s[1..], x, s[0], before);
          ConsSorted(s[0], rest, before);
        }
      }
      [s[0]] + rest
  }

  /** A sorted sequence stays sorted behind a head nothing in it is
      strictly before. */
  lemma ConsSorted<T>(h: T, s: seq<T>, before: (T, T) -> bool)
    requires SortedBy(s, before) && forall k :: 0 <= k < |s| ==> !before(s[k], h)
    ensures SortedBy([h] + s, before)
  {
  }

  /** Nothing in `r`, made of the elements of `s` and `x`, is strictly
      before `y` when none of those is. */
  lemma NoneBeforeKept<T>(r: seq<T>, s: seq<T>, x: T, y: T, before: (T, T) -> bool)
    requires multiset(r) == multiset(s) + multiset{x}
    requires !before(x, y) && forall j :: 0 <= j < |s| ==> !before(s[j], y)
    ensures forall k :: 0 <= k < |r| ==> !before(r[k], y)
  {
    forall k | 0 <= k < |r| ensures !before(r[k], y) {
      assert r[k] in multiset(r);
      if r[k] != x {
        assert r[k] in multiset(s);
        var j :| 0 <= j < |s| && s[j] == r[k];
      }
    }
  }

  /** In a sorted sequence, an element strictly before another sits
      ahead of it. */
  lemma SortedPrecedes<T(!new)>(s: seq<T>, before: (T, T) -> bool, i: nat, j: nat)
    requires StrictWeakOrder(before)
    requires SortedBy(s, before) && i < |s| && j < |s| && before(s[i], s[j])
    ensures i < j
  {
  }

  /** Cutting a sorted sequence after `n` elements leaves out nothing
      strictly before an element kept: the kept ones are the top `n`. */
  lemma TakeSortedDominates<T>(s: seq<T>, before: (T, T) -> bool, n: int, x: T, y: T)
    requires SortedBy(s, before) && n >= 0
    requires x in s && x !in Take(s, n) && y in Take(s, n)
    ensures !before(x, y)
  {
    var t := Take(s, n);
    var i :| 0 <= i < |s| && s[i] == x;
    var j :| 0 <= j < |t| && t[j] == y;
    assert forall k :: 0 <= k < |t| ==> t[k] == s[k];
    assert i >= |t|;
    assert s[j] == y;
  }

  /** `s.sort(cmp)`, with `before(a, b)` standing for `cmp(a, b) < 0`:
      an insertion sort, stable as the language requires of `sort`. */
  function SortBy<T(!new)>(s: seq<T>, before: (T, T) -> bool): (r: seq<T>)
    requires StrictWeakOrder(before)
    ensures SortedBy(r, before)
    ensures multiset(r) == multiset(s)
    ensures |r| == |s|
  {
    if s == [] then []
    else
      assert s == [s[0]] + s[1..];
      Insert(s[0], SortBy(s[1..], before), before)
  }

  // ---------------------------------------------------------------------
  // [...new Set(s)]
  // ---------------------------------------------------------------------

  ghost predicate NoDuplicates<T>(s: seq<T>)
  {
    forall i, j :: 0 <= i < j < |s| ==> s[i] != s[j]
  }

  /** Without duplicates, every element occurs at most once. */
  lemma {:induction false} NoDuplicatesCount<T>(s: seq<T>)
    ensures NoDuplicates(s) <==> forall x :: multiset(s)[x] <= 1
  {
    if NoDuplicates(s) {
      NoDuplicatesCountAtMostOne(s);
    }
    if !NoDuplicates(s) {
      var i, j :| 0 <= i < j < |s| && s[i] == s[j];
      assert s == s[..j] + [s[j]] + s[j + 1..];
      assert s[i] in multiset(s[..j]);
      assert multiset(s)[s[j]] >= 2;
    }
  }

  lemma {:induction false} NoDuplicatesCountAtMostOne<T>(s: seq<T>)
    requires NoDuplicates(s)
    ensures forall x :: multiset(s)[x] <= 1
  {
    if s != [] {
      var s' := s[..|s| - 1];
      assert s == s' + [s[|s| - 1]];
      NoDuplicatesCountAtMostOne(s');
      assert s[|s| - 1] !in s';
    }
  }

  /** Reordering keeps a sequence free of duplicates. */
  lemma NoDuplicatesPermutation<T>(a: seq<T>, b: seq<T>)
    requires multiset(a) == multiset(b) && NoDuplicates(a)
    ensures NoDuplicates(b)
  {
    NoDuplicatesCount(a);
    NoDuplicatesCount(b);
  }

  /** `[...new Set(s)]`: the distinct elements in order of first occurrence. */
  function Distinct<T(==)>(s: seq<T>): (r: seq<T>)
    ensures NoDuplicates(r)
    ensures forall x :: x in r ==> x in s
    ensures forall x :: x in s ==> x in r
    ensures |r| <= |s|
  {
    var r := DistinctAfter(s, []);
    assert [] + r == r;
    r
  }

  /** Appends to `seen` the elements of `s` not met before. */
  function DistinctAfter<T(==)>(s: seq<T>, seen: seq<T>): (r: seq<T>)
    requires NoDuplicates(seen)
    ensures NoDuplicates(seen + r)
    ensures forall x :: x in r ==> x in s && x !in seen
    ensures forall x :: x in s && x !in seen ==> x in r
    ensures |r| <= |s|
  {
    if s == [] then []
    else if s[0] in seen then DistinctAfter(s[1..], seen)
    else
      var rest := DistinctAfter(s[1..], seen + [s[0]]);
      assert seen + ([s[0]] + rest) == (seen + [s[0]]) + rest;
      [s[0]] + rest
  }
}
