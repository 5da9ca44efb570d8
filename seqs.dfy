/**
 * The array operations the stores are built from: `filter`, `find`, `reduce` to a sum,
 * `reverse` and a stable `sort` by a numeric key, each as a function on sequences
 * together with the properties that characterise it.
 */
module Seqs {
  import opened Wrappers

  /** `xs` is obtained from `ys` by deleting elements, keeping the order of the rest. */
  ghost predicate IsSubsequence<T>(xs: seq<T>, ys: seq<T>)
    decreases |ys|
  {
    xs == [] ||
    (ys != [] &&
     ((xs[0] == ys[0] && IsSubsequence(xs[1..], ys[1..])) || IsSubsequence(xs, ys[1..])))
  }

  /**
   * `Array.prototype.filter`. The result is the subsequence of `s` made of exactly the
   * elements satisfying `p`, each with the multiplicity it has in `s`.
   */
  function Filter<T(!new)>(s: seq<T>, p: T -> bool): (r: seq<T>)
    ensures |r| <= |s|
    ensures forall x :: x in r <==> x in s && p(x)
    ensures forall x :: multiset(r)[x] == if p(x) then multiset(s)[x] else 0
    ensures IsSubsequence(r, s)
  {
    if s == [] then []
    else
      var rest := Filter(s[1..], p);
      assert s == [s[0]] + s[1..];
      if p(s[0]) then [s[0]] + rest else rest
  }

  /** Filtering by `p` and then by `q` is filtering once by their conjunction `c`. */
  lemma {:induction false} FilterThenFilter<T(!new)>(s: seq<T>, p: T -> bool, q: T -> bool, c: T -> bool)
    requires forall x :: c(x) == (p(x) && q(x))
    ensures Filter(Filter(s, p), q) == Filter(s, c)
  {
    if s != [] {
      FilterThenFilter(s[1..], p, q, c);
      var rest := Filter(s[1..], p);
      if p(s[0]) {
        assert Filter(s, p) == [s[0]] + rest;
        assert ([s[0]] + rest)[1..] == rest;
      }
    }
  }

  /** Filters by two predicates that agree everywhere are equal. */
  lemma {:induction false} FilterSame<T(!new)>(s: seq<T>, p: T -> bool, q: T -> bool)
    requires forall x :: p(x) == q(x)
    ensures Filter(s, p) == Filter(s, q)
  {
    if s != [] {
      FilterSame(s[1..], p, q);
    }
  }

  /** Length of `Filter(s, p)`: the number of elements satisfying `p`. */
  function Count<T(!new)>(s: seq<T>, p: T -> bool): (n: nat)
    ensures n <= |s|
    ensures n == 0 <==> forall i :: 0 <= i < |s| ==> !p(s[i])
  {
    var r := Filter(s, p);
    assert r != [] ==> r[0] in r;
    |r|
  }

  /**
   * The index `Array.prototype.findIndex` returns, with `|s|` for "none": every element
   * before it fails `p`, and the element at it satisfies `p`.
   */
  function FirstIndex<T>(s: seq<T>, p: T -> bool): (i: nat)
    ensures i <= |s|
    ensures i < |s| ==> p(s[i])
    ensures forall j :: 0 <= j < i ==> !p(s[j])
  {
    if s == [] then 0
    else if p(s[0]) then 0
    else 1 + FirstIndex(s[1..], p)
  }

  /** `Array.prototype.find`: the first element satisfying `p`, or none when no element does. */
  function Find<T>(s: seq<T>, p: T -> bool): (r: Option<T>)
    ensures r.None? <==> forall j :: 0 <= j < |s| ==> !p(s[j])
    ensures r.Some? ==> exists i :: 0 <= i < |s| && s[i] == r.value && p(s[i]) &&
                                (forall j :: 0 <= j < i ==> !p(s[j]))
  {
    var i := FirstIndex(s, p);
    if i < |s| then Some(s[i]) else None
  }

  /** `Array.prototype.reverse` on a copy. */
  function Reverse<T>(s: seq<T>): (r: seq<T>)
    ensures |r| == |s|
    ensures forall k :: 0 <= k < |s| ==> r[k] == s[|s| - 1 - k]
  {
    if s == [] then [] else Reverse(s[1..]) + [s[0]]
  }

  /** `s.reduce((sum, x) => sum + f(x), 0)` over integers, folded from the left. */
  function SumInt<T>(s: seq<T>, f: T -> int): int
  {
    if s == [] then 0 else SumInt(s[..|s| - 1], f) + f(s[|s| - 1])
  }

  /** `s.reduce((sum, x) => sum + f(x), 0)` over exact reals, folded from the left. */
  function SumReal<T>(s: seq<T>, f: T -> real): real
  {
    if s == [] then 0.0 else SumReal(s[..|s| - 1], f) + f(s[|s| - 1])
  }

  /** Prepending an element adds its term to the sum. */
  lemma {:induction false} SumIntCons<T>(x: T, s: seq<T>, f: T -> int)
    ensures SumInt([x] + s, f) == f(x) + SumInt(s, f)
  {
    if s != [] {
      assert ([x] + s)[..|[x] + s| - 1] == [x] + s[..|s| - 1];
      SumIntCons(x, s[..|s| - 1], f);
    }
  }

  /** Appending an element adds its term to the sum. */
  lemma SumIntSnoc<T>(s: seq<T>, x: T, f: T -> int)
    ensures SumInt(s + [x], f) == SumInt(s, f) + f(x)
  {
    assert (s + [x])[..|s + [x]| - 1] == s;
  }

  /**
   * Two sequences of the same length whose terms differ at index `j` only have sums
   * that differ by the change at `j`.
   */
  lemma {:induction false} SumIntChangeAt<T>(a: seq<T>, b: seq<T>, j: nat, f: T -> int)
    requires |a| == |b| && j < |a|
    requires forall k :: 0 <= k < |a| && k != j ==> f(a[k]) == f(b[k])
    ensures SumInt(b, f) == SumInt(a, f) - f(a[j]) + f(b[j])
  {
    var n := |a| - 1;
    if n == j {
      SumIntSame(a[..n], b[..n], f);
    } else {
      SumIntChangeAt(a[..n], b[..n], j, f);
    }
  }

  /** Sums of sequences whose terms agree pointwise are equal. */
  lemma {:induction false} SumIntSame<T>(a: seq<T>, b: seq<T>, f: T -> int)
    requires |a| == |b|
    requires forall k :: 0 <= k < |a| ==> f(a[k]) == f(b[k])
    ensures SumInt(a, f) == SumInt(b, f)
  {
    if a != [] {
      SumIntSame(a[..|a| - 1], b[..|b| - 1], f);
    }
  }

  /** A sum of non-negative terms is non-negative. */
  lemma {:induction false} SumIntNonNegative<T>(s: seq<T>, f: T -> int)
    ensures (forall k :: 0 <= k < |s| ==> f(s[k]) >= 0) ==> SumInt(s, f) >= 0
  {
    if s != [] {
      SumIntNonNegative(s[..|s| - 1], f);
      assert forall k :: 0 <= k < |s| - 1 ==> s[..|s| - 1][k] == s[k];
    }
  }

  /** A real sum of non-negative terms is non-negative. */
  lemma {:induction false} SumRealNonNegative<T>(s: seq<T>, f: T -> real)
    ensures (forall k :: 0 <= k < |s| ==> f(s[k]) >= 0.0) ==> SumReal(s, f) >= 0.0
  {
    if s != [] {
      SumRealNonNegative(s[..|s| - 1], f);
      assert forall k :: 0 <= k < |s| - 1 ==> s[..|s| - 1][k] == s[k];
    }
  }

  /** Appending an element adds its term to the real sum. */
  lemma SumRealSnoc<T>(s: seq<T>, x: T, f: T -> real)
    ensures SumReal(s + [x], f) == SumReal(s, f) + f(x)
  {
    assert (s + [x])[..|s + [x]| - 1] == s;
  }

  /** The real sum of sequences that differ at index `j` only differs by the change at `j`. */
  lemma {:induction false} SumRealChangeAt<T>(a: seq<T>, b: seq<T>, j: nat, f: T -> real)
    requires |a| == |b| && j < |a|
    requires forall k :: 0 <= k < |a| && k != j ==> f(a[k]) == f(b[k])
    ensures SumReal(b, f) == SumReal(a, f) - f(a[j]) + f(b[j])
  {
    var n := |a| - 1;
    if n == j {
      SumRealSame(a[..n], b[..n], f);
    } else {
      SumRealChangeAt(a[..n], b[..n], j, f);
    }
  }

  /** Real sums of sequences whose terms agree pointwise are equal. */
  lemma {:induction false} SumRealSame<T>(a: seq<T>, b: seq<T>, f: T -> real)
    requires |a| == |b|
    requires forall k :: 0 <= k < |a| ==> f(a[k]) == f(b[k])
    ensures SumReal(a, f) == SumReal(b, f)
  {
    if a != [] {
      SumRealSame(a[..|a| - 1], b[..|b| - 1], f);
    }
  }

  /** Every element's key is at most every later element's key. */
  ghost predicate SortedBy<T>(s: seq<T>, key: T -> real)
  {
    forall i, j :: 0 <= i < j < |s| ==> key(s[i]) <= key(s[j])
  }

  /** Inserts `x` into `s` before the first element whose key is not smaller than its own. */
  function InsertByKey<T>(x: T, s: seq<T>, key: T -> real): (r: seq<T>)
    ensures |r| == |s| + 1
    ensures multiset(r) == multiset(s) + multiset{x}
    ensures forall k :: 0 <= k < |r| ==> r[k] == x || r[k] in s
  {
    if s == [] then [x]
    else if key(x) <= key(s[0]) then [x] + s
    else
      assert s == [s[0]] + s[1..];
      [s[0]] + InsertByKey(x, s[1..], key)
  }

  /** Inserting into a sorted sequence keeps it sorted. */
  lemma {:induction false} InsertKeepsSorted<T>(x: T, s: seq<T>, key: T -> real)
    requires SortedBy(s, key)
    ensures SortedBy(InsertByKey(x, s, key), key)
  {
    if s != [] && key(x) > key(s[0]) {
      var rest := InsertByKey(x, s[1..], key);
      InsertKeepsSorted(x, s[1..], key);
      var r := [s[0]] + rest;
      assert r == InsertByKey(x, s, key);
      forall i, j | 0 <= i < j < |r| ensures key(r[i]) <= key(r[j]) {
        if i == 0 {
          assert r[j] == rest[j - 1];
          if rest[j - 1] != x {
            var k :| 0 <= k < |s[1..]| && s[1..][k] == rest[j - 1];
            assert s[1..][k] == s[k + 1];
          }
        } else {
          assert r[i] == rest[i - 1] && r[j] == rest[j - 1];
        }
      }
    }
  }

  /** The elements of `s` whose key is `v`, in their order in `s`. */
  function OfKey<T>(s: seq<T>, key: T -> real, v: real): seq<T>
  {
    if s == [] then [] else (if key(s[0]) == v then [s[0]] else []) + OfKey(s[1..], key, v)
  }

  lemma OfKeyCons<T>(y: T, s: seq<T>, key: T -> real, v: real)
    ensures OfKey([y] + s, key, v) == (if key(y) == v then [y] else []) + OfKey(s, key, v)
  {
    assert ([y] + s)[1..] == s;
  }

  lemma SortedTail<T>(s: seq<T>, key: T -> real)
    requires s != [] && SortedBy(s, key)
    ensures SortedBy(s[1..], key)
  {
    var tail := s[1..];
    forall i, j | 0 <= i < j < |tail| ensures key(tail[i]) <= key(tail[j]) {
      assert tail[i] == s[i + 1] && tail[j] == s[j + 1];
    }
  }

  /** An element with a smaller key than `x` can stand in front of `x`'s insertion. */
  lemma OfKeyPastSmaller<T>(x: T, y: T, tail: seq<T>, rest: seq<T>, key: T -> real, v: real)
    requires key(x) > key(y)
    requires OfKey(rest, key, v) == (if key(x) == v then [x] else []) + OfKey(tail, key, v)
    ensures OfKey([y] + rest, key, v) == (if key(x) == v then [x] else []) + OfKey([y] + tail, key, v)
  {
    OfKeyCons(y, rest, key, v);
    OfKeyCons(y, tail, key, v);
  }

  /**
   * Inserting into a sorted sequence puts `x` before every element with the same key, and
   * keeps the elements of that key in their order.
   */
  lemma {:induction false} InsertByKeyStable<T>(x: T, s: seq<T>, key: T -> real, v: real)
    requires SortedBy(s, key)
    ensures OfKey(InsertByKey(x, s, key), key, v) == (if key(x) == v then [x] else []) + OfKey(s, key, v)
  {
    if s != [] && key(x) > key(s[0]) {
      var tail := s[1..];
      SortedTail(s, key);
      InsertByKeyStable(x, tail, key, v);
      var rest := InsertByKey(x, tail, key);
      assert InsertByKey(x, s, key) == [s[0]] + rest;
      assert s == [s[0]] + tail;
      OfKeyPastSmaller(x, s[0], tail, rest, key, v);
    } else {
      assert InsertByKey(x, s, key) == [x] + s;
      OfKeyCons(x, s, key, v);
    }
  }

  /** The sort is stable: the elements of each key keep the order they have in `s`. */
  lemma {:induction false} SortByKeyStable<T>(s: seq<T>, key: T -> real, v: real)
    ensures OfKey(SortByKey(s, key), key, v) == OfKey(s, key, v)
  {
    if s != [] {
      var sorted := SortByKey(s[1..], key);
      SortByKeyStable(s[1..], key, v);
      InsertByKeyStable(s[0], sorted, key, v);
      assert SortByKey(s, key) == InsertByKey(s[0], sorted, key);
      assert OfKey(s, key, v) == (if key(s[0]) == v then [s[0]] else []) + OfKey(s[1..], key, v);
    }
  }

  /**
   * Stable insertion sort by ascending `key`: the model of `Array.prototype.sort` with the
   * comparator `(a, b) => key(a) - key(b)`. The result is a sorted permutation of `s`.
   */
  function SortByKey<T>(s: seq<T>, key: T -> real): (r: seq<T>)
    ensures multiset(r) == multiset(s)
    ensures SortedBy(r, key)
  {
    if s == [] then []
    else
      assert s == [s[0]] + s[1..];
      var sorted := SortByKey(s[1..], key);
      InsertKeepsSorted(s[0], sorted, key);
      InsertByKey(s[0], sorted, key)
  }
}
