/** Generic sequence operations that the pages and the store build on:
    the JavaScript array methods `filter`, `find`, `reduce`, `slice`,
    stable `sort`, and `Array.from(new Set(...))`, with their laws. */
module Seqs {

  datatype Option<+T> = None | Some(value: T)

  // ---------------------------------------------------------------- filter

  /** `s.filter(p)`: the elements of `s` satisfying `p`, in their order. */
  function Filter<T>(s: seq<T>, p: T -> bool): (r: seq<T>)
    ensures |r| <= |s|
    ensures forall i :: 0 <= i < |r| ==> r[i] in s && p(r[i])
    ensures forall i :: 0 <= i < |s| && p(s[i]) ==> s[i] in r
  {
    if s == [] then []
    else if p(s[0]) then [s[0]] + Filter(s[1..], p)
    else Filter(s[1..], p)
  }

  /** `r` is `s` with some elements deleted and the rest kept in order. */
  predicate Subseq<T(==)>(r: seq<T>, s: seq<T>)
    decreases |s|
  {
    if s == [] then r == []
    else (r != [] && r[0] == s[0] && Subseq(r[1..], s[1..])) || Subseq(r, s[1..])
  }

  lemma {:induction false} FilterIsSubseq<T>(s: seq<T>, p: T -> bool)
    ensures Subseq(Filter(s, p), s)
  {
    if s != [] {
      FilterIsSubseq(s[1..], p);
      if p(s[0]) {
        assert Filter(s, p)[1..] == Filter(s[1..], p);
      }
    }
  }

  lemma {:induction false} SubseqRefl<T>(s: seq<T>)
    ensures Subseq(s, s)
  {
    if s != [] {
      SubseqRefl(s[1..]);
    }
  }

  lemma {:induction false} SubseqEmpty<T>(s: seq<T>)
    ensures Subseq([], s)
  {
    if s != [] {
      SubseqEmpty(s[1..]);
    }
  }

  /** A prefix of a subsequence is a subsequence. */
  lemma {:induction false} SubseqPrefix<T>(r: seq<T>, s: seq<T>, t: seq<T>)
    requires r <= s && Subseq(s, t)
    ensures Subseq(r, t)
    decreases |t|
  {
    if r == [] {
      SubseqEmpty(t);
    } else if t != [] {
      if s != [] && s[0] == t[0] && Subseq(s[1..], t[1..]) {
        assert r[1..] <= s[1..];
        SubseqPrefix(r[1..], s[1..], t[1..]);
      } else {
        SubseqPrefix(r, s, t[1..]);
      }
    }
  }

  /** Deleting elements keeps their keys distinct and adds no element. */
  lemma {:induction false} SubseqKeysDistinct<T, K>(r: seq<T>, s: seq<T>, key: T -> K)
    requires Subseq(r, s) && NoDuplicates(Map(s, key))
    ensures NoDuplicates(Map(r, key))
    ensures forall x :: x in r ==> x in s
    decreases |s|
  {
    if s != [] {
      var ms := Map(s, key);
      var mt := Map(s[1..], key);
      assert forall i :: 0 <= i < |mt| ==> mt[i] == ms[i + 1];
      if r != [] && r[0] == s[0] && Subseq(r[1..], s[1..]) {
        SubseqKeysDistinct(r[1..], s[1..], key);
        var mr := Map(r, key);
        var mu := Map(r[1..], key);
        forall i, j | 0 <= i < j < |mr|
          ensures mr[i] != mr[j]
        {
          assert mr[j] == mu[j - 1];
          if i == 0 {
            assert r[1..][j - 1] in s[1..];
            var k :| 0 <= k < |s[1..]| && s[1..][k] == r[1..][j - 1];
            assert ms[k + 1] == mr[j];
          } else {
            assert mr[i] == mu[i - 1];
          }
        }
        forall x | x in r
          ensures x in s
        {
          if x != r[0] {
            assert x in r[1..];
          }
        }
      } else {
        SubseqKeysDistinct(r, s[1..], key);
      }
    }
  }

  /** A filter that every element passes keeps the whole sequence. */
  lemma {:induction false} FilterAll<T>(s: seq<T>, p: T -> bool)
    requires forall i :: 0 <= i < |s| ==> p(s[i])
    ensures Filter(s, p) == s
  {
    if s != [] {
      FilterAll(s[1..], p);
    }
  }

  /** A filter that no element passes yields the empty sequence. */
  lemma {:induction false} FilterNone<T>(s: seq<T>, p: T -> bool)
    requires forall i :: 0 <= i < |s| ==> !p(s[i])
    ensures Filter(s, p) == []
  {
    if s != [] {
      FilterNone(s[1..], p);
    }
  }

  lemma {:induction false} FilterConcat<T>(a: seq<T>, b: seq<T>, p: T -> bool)
    ensures Filter(a + b, p) == Filter(a, p) + Filter(b, p)
  {
    if a == [] {
      assert a + b == b;
    } else {
      assert (a + b)[1..] == a[1..] + b;
      FilterConcat(a[1..], b, p);
    }
  }

  lemma SplitLast<T>(s: seq<T>)
    requires s != []
    ensures s == s[..|s| - 1] + [s[|s| - 1]]
  {
  }

  lemma FilterSnoc<T>(s: seq<T>, x: T, p: T -> bool)
    ensures Filter(s + [x], p) == if p(x) then Filter(s, p) + [x] else Filter(s, p)
  {
    FilterConcat(s, [x], p);
    assert [x][1..] == [];
    assert Filter(s, p) + [] == Filter(s, p);
  }

  /** Filtering twice by `p` then `q` is filtering once by their conjunction `r`. */
  lemma {:induction false} FilterFilter<T>(s: seq<T>, p: T -> bool, q: T -> bool, r: T -> bool)
    requires forall x :: r(x) == (p(x) && q(x))
    ensures Filter(Filter(s, p), q) == Filter(s, r)
  {
    if s != [] {
      FilterFilter(s[1..], p, q, r);
      if p(s[0]) {
        assert Filter(s, p)[1..] == Filter(s[1..], p);
      }
    }
  }

  /** Two tests that agree on every element keep the same elements. */
  lemma {:induction false} FilterSame<T>(s: seq<T>, p: T -> bool, q: T -> bool)
    requires forall i :: 0 <= i < |s| ==> p(s[i]) == q(s[i])
    ensures Filter(s, p) == Filter(s, q)
  {
    if s != [] {
      FilterSame(s[1..], p, q);
    }
  }

  /** Filtering by a stronger predicate yields a shorter sequence. */
  lemma {:induction false} FilterMonotone<T>(s: seq<T>, p: T -> bool, q: T -> bool)
    requires forall x :: x in s && p(x) ==> q(x)
    ensures |Filter(s, p)| <= |Filter(s, q)|
  {
    if s != [] {
      FilterMonotone(s[1..], p, q);
    }
  }

  /** Filtering keeps the multiset of the elements that pass. */
  lemma {:induction false} FilterMultiset<T>(s: seq<T>, p: T -> bool, x: T)
    ensures multiset(Filter(s, p))[x] == if p(x) then multiset(s)[x] else 0
  {
    if s != [] {
      FilterMultiset(s[1..], p, x);
      assert s == [s[0]] + s[1..];
      if p(s[0]) {
        assert Filter(s, p) == [s[0]] + Filter(s[1..], p);
      }
    }
  }

  // ---------------------------------------------------------------- find

  /** `s.find(p)`: the first element satisfying `p`, or `None`
      (JavaScript's `undefined`). */
  function Find<T>(s: seq<T>, p: T -> bool): (r: Option<T>)
    ensures r.None? <==> forall i :: 0 <= i < |s| ==> !p(s[i])
    ensures r.Some? ==> exists i :: 0 <= i < |s| && s[i] == r.value && p(s[i]) &&
                                 forall j :: 0 <= j < i ==> !p(s[j])
  {
    if s == [] then None
    else if p(s[0]) then Some(s[0])
    else
      var r := Find(s[1..], p);
      assert r.Some? ==> exists i :: 1 <= i < |s| && s[i] == r.value && p(s[i]) &&
                                  forall j :: 1 <= j < i ==> !p(s[j]);
      r
  }

  // ---------------------------------------------------------------- reduce

  /** `s.reduce((t, x) => t + f(x), 0)`. */
  function SumBy<T>(s: seq<T>, f: T -> int): int
  {
    if s == [] then 0 else f(s[0]) + SumBy(s[1..], f)
  }

  lemma {:induction false} SumByConcat<T>(a: seq<T>, b: seq<T>, f: T -> int)
    ensures SumBy(a + b, f) == SumBy(a, f) + SumBy(b, f)
  {
    if a == [] {
      assert a + b == b;
    } else {
      assert (a + b)[1..] == a[1..] + b;
      SumByConcat(a[1..], b, f);
    }
  }

  lemma {:induction false} SumByNonNegative<T>(s: seq<T>, f: T -> int)
    requires forall i :: 0 <= i < |s| ==> f(s[i]) >= 0
    ensures SumBy(s, f) >= 0
  {
    if s != [] {
      SumByNonNegative(s[1..], f);
    }
  }

  /** Summing a non-negative quantity over fewer elements gives less. */
  lemma {:induction false} SumByFilterMonotone<T>(s: seq<T>, p: T -> bool, q: T -> bool, f: T -> int)
    requires forall x :: x in s && p(x) ==> q(x)
    requires forall x :: x in s ==> f(x) >= 0
    ensures SumBy(Filter(s, p), f) <= SumBy(Filter(s, q), f)
  {
    if s != [] {
      SumByFilterMonotone(s[1..], p, q, f);
    }
  }

  /** Elements on which `f` is zero contribute nothing to the sum. */
  lemma {:induction false} SumBySkipsZeros<T>(s: seq<T>, p: T -> bool, f: T -> int)
    requires forall x :: x in s && !p(x) ==> f(x) == 0
    ensures SumBy(s, f) == SumBy(Filter(s, p), f)
  {
    if s != [] {
      SumBySkipsZeros(s[1..], p, f);
    }
  }

  // ---------------------------------------------------------------- slice

  /** `s.slice(0, n)`. */
  function Take<T>(s: seq<T>, n: nat): (r: seq<T>)
    ensures |r| == if |s| <= n then |s| else n
    ensures r <= s
  {
    if |s| <= n then s else s[..n]
  }

  // ---------------------------------------------------------------- sort

  /** `le` is a total preorder: what a consistent JavaScript comparator is. */
  ghost predicate TotalPreorder<T(!new)>(le: (T, T) -> bool)
  {
    && (forall a, b :: le(a, b) || le(b, a))
    && (forall a, b, c :: le(a, b) && le(b, c) ==> le(a, c))
  }

  ghost predicate Sorted<T>(s: seq<T>, le: (T, T) -> bool)
  {
    forall i, j :: 0 <= i < j < |s| ==> le(s[i], s[j])
  }

  /** Inserts `x` before the first element it does not come after. */
  function Insert<T>(x: T, s: seq<T>, le: (T, T) -> bool): (r: seq<T>)
    ensures multiset(r) == multiset(s) + multiset{x}
    ensures |r| == |s| + 1
  {
    if s == [] then [x]
    else if le(x, s[0]) then [x] + s
    else
      assert s == [s[0]] + s[1..];
      [s[0]] + Insert(x, s[1..], le)
  }

  /** Stable sort: `s.sort(cmp)` with `le(a, b)` meaning `cmp(a, b) <= 0`.
      For a consistent comparator every stable sort gives this result. */
  function SortBy<T>(s: seq<T>, le: (T, T) -> bool): (r: seq<T>)
    ensures multiset(r) == multiset(s)
    ensures |r| == |s|
  {
    if s == [] then []
    else
      assert s == [s[0]] + s[1..];
      Insert(s[0], SortBy(s[1..], le), le)
  }

  lemma {:induction false} InsertSorted<T(!new)>(x: T, s: seq<T>, le: (T, T) -> bool)
    requires TotalPreorder(le)
    requires Sorted(s, le)
    ensures Sorted(Insert(x, s, le), le)
  {
    if s != [] && !le(x, s[0]) {
      InsertSorted(x, s[1..], le);
      var r := Insert(x, s, le);
      assert r == [s[0]] + Insert(x, s[1..], le);
      forall j | 1 <= j < |r|
        ensures le(s[0], r[j])
      {
        assert r[j] in multiset(Insert(x, s[1..], le));
        assert r[j] in multiset(s[1..]) + multiset{x};
        if r[j] in multiset(s[1..]) {
          var k :| 0 <= k < |s[1..]| && s[1..][k] == r[j];
          assert s[k + 1] == r[j];
        }
      }
    }
  }

  lemma {:induction false} SortBySorted<T(!new)>(s: seq<T>, le: (T, T) -> bool)
    requires TotalPreorder(le)
    ensures Sorted(SortBy(s, le), le)
  {
    if s != [] {
      SortBySorted(s[1..], le);
      InsertSorted(s[0], SortBy(s[1..], le), le);
    }
  }

  /** Sorting looks at the order only between the elements being sorted. */
  lemma {:induction false} InsertCongruent<T>(x: T, s: seq<T>, le1: (T, T) -> bool, le2: (T, T) -> bool)
    requires forall b :: b in s ==> le1(x, b) == le2(x, b)
    ensures Insert(x, s, le1) == Insert(x, s, le2)
  {
    if s != [] && !le1(x, s[0]) {
      InsertCongruent(x, s[1..], le1, le2);
    }
  }

  lemma {:induction false} SortByCongruent<T>(s: seq<T>, le1: (T, T) -> bool, le2: (T, T) -> bool)
    requires forall a, b :: a in s && b in s ==> le1(a, b) == le2(a, b)
    ensures SortBy(s, le1) == SortBy(s, le2)
  {
    if s != [] {
      SortByCongruent(s[1..], le1, le2);
      var r := SortBy(s[1..], le1);
      forall b | b in r
        ensures le1(s[0], b) == le2(s[0], b)
      {
        assert b in multiset(r);
        assert b in multiset(s[1..]);
        assert b in s[1..];
      }
      InsertCongruent(s[0], r, le1, le2);
    }
  }

  // ---------------------------------------------------------------- dedupe

  /** One more element: a new value is appended, a repeated one changes nothing. */
  lemma DedupeSnoc<T>(p: seq<T>, x: T)
    ensures Dedupe(p + [x]) == if x in p then Dedupe(p) else Dedupe(p) + [x]
  {
    assert (p + [x])[..|p|] == p;
    assert x in Dedupe(p) <==> x in p;
  }

  /** Index of the first occurrence of `x` in `s`. */
  function FirstIndex<T(==)>(s: seq<T>, x: T): (k: nat)
    requires x in s
    ensures k < |s| && s[k] == x
    ensures forall j :: 0 <= j < k ==> s[j] != x
  {
    if s[0] == x then 0 else 1 + FirstIndex(s[1..], x)
  }

  /** The first `x` of `a + [x] + b`, when `a` has none, is the one after `a`. */
  lemma {:induction false} FirstIndexAfter<T>(a: seq<T>, x: T, b: seq<T>)
    requires x !in a
    ensures x in a + [x] + b && FirstIndex(a + [x] + b, x) == |a|
    ensures (a + [x] + b)[..|a|] == a && (a + [x] + b)[|a| + 1..] == b
  {
    var s := a + [x] + b;
    assert s[|a|] == x;
    if a != [] {
      assert s[1..] == a[1..] + [x] + b;
      FirstIndexAfter(a[1..], x, b);
    }
  }

  predicate NoDuplicates<T(==)>(s: seq<T>)
  {
    forall i, j :: 0 <= i < j < |s| ==> s[i] != s[j]
  }

  /** `Array.from(new Set(s))`: each distinct element once, in the order of
      its first occurrence. */
  function Dedupe<T(==)>(s: seq<T>): (r: seq<T>)
    ensures NoDuplicates(r)
    ensures forall i :: 0 <= i < |r| ==> r[i] in s
    ensures forall i :: 0 <= i < |s| ==> s[i] in r
    decreases |s|
  {
    if s == [] then []
    else
      var d := Dedupe(s[..|s| - 1]);
      var x := s[|s| - 1];
      assert s == s[..|s| - 1] + [x];
      if x in d then d else d + [x]
  }

  lemma {:induction false} FirstIndexPrefix<T>(s: seq<T>, n: nat, x: T)
    requires n <= |s| && x in s[..n]
    ensures FirstIndex(s, x) == FirstIndex(s[..n], x)
  {
    if s[0] != x {
      assert s[1..][..n - 1] == s[..n][1..];
      FirstIndexPrefix(s[1..], n - 1, x);
    }
  }

  /** The distinct elements come out in the order they first occur. */
  lemma {:induction false} DedupeFirstOccurrenceOrder<T>(s: seq<T>)
    ensures forall i, j :: 0 <= i < j < |Dedupe(s)| ==>
                           FirstIndex(s, Dedupe(s)[i]) < FirstIndex(s, Dedupe(s)[j])
    decreases |s|
  {
    if s != [] {
      var p := s[..|s| - 1];
      var x := s[|s| - 1];
      DedupeFirstOccurrenceOrder(p);
      assert s == p + [x];
      DedupeOrderStep(p, x);
    }
  }

  /** One more element keeps the order of first occurrences. */
  lemma DedupeOrderStep<T>(p: seq<T>, x: T)
    requires forall i, j :: 0 <= i < j < |Dedupe(p)| ==>
               FirstIndex(p, Dedupe(p)[i]) < FirstIndex(p, Dedupe(p)[j])
    ensures forall i, j :: 0 <= i < j < |Dedupe(p + [x])| ==>
              FirstIndex(p + [x], Dedupe(p + [x])[i]) < FirstIndex(p + [x], Dedupe(p + [x])[j])
  {
    var s := p + [x];
    var d := Dedupe(p);
    DedupeSnoc(p, x);
    var r := Dedupe(s);
    forall i, j | 0 <= i < j < |r|
      ensures FirstIndex(s, r[i]) < FirstIndex(s, r[j])
    {
      assert r[i] == d[i];
      FirstIndexSnoc(p, x, d[i]);
      if j < |d| {
        assert r[j] == d[j];
        FirstIndexSnoc(p, x, d[j]);
      } else {
        assert x !in d && r[j] == x;
        FirstIndexNew(p, x);
      }
    }
  }

  /** Appending leaves the first occurrence of an element already present. */
  lemma FirstIndexSnoc<T>(p: seq<T>, x: T, y: T)
    requires y in p
    ensures FirstIndex(p + [x], y) == FirstIndex(p, y)
  {
    assert (p + [x])[..|p|] == p;
    FirstIndexPrefix(p + [x], |p|, y);
  }

  /** A newly appended element first occurs at the end. */
  lemma FirstIndexNew<T>(p: seq<T>, x: T)
    requires x !in p
    ensures FirstIndex(p + [x], x) == |p|
  {
    assert forall k :: 0 <= k < |p| ==> (p + [x])[k] == p[k];
  }

  /** A sequence without duplicates holds each value at most once. */
  lemma NoDuplicatesMultiset<T>(s: seq<T>, i: nat, j: nat)
    requires i < j < |s| && s[i] == s[j]
    ensures multiset(s)[s[i]] >= 2
  {
    assert s == s[..j] + s[j..];
    assert s[i] in s[..j] && s[j] in s[j..];
  }

  /** The number of times each value occurs in `s`. */
  function MultiplicityIn<T(==)>(s: seq<T>): T -> int
  {
    x => multiset(s)[x]
  }

  /** Adding one to `f` at `x` adds one to a sum over distinct values that
      includes `x`, and nothing to one that does not. */
  lemma {:induction false} SumByBump<T>(d: seq<T>, f: T -> int, g: T -> int, x: T)
    requires NoDuplicates(d)
    requires forall y :: g(y) == f(y) + (if y == x then 1 else 0)
    ensures SumBy(d, g) == SumBy(d, f) + (if x in d then 1 else 0)
  {
    if d != [] {
      assert NoDuplicates(d[1..]);
      SumByBump(d[1..], f, g, x);
      assert d == [d[0]] + d[1..];
      assert d[0] == x ==> x !in d[1..];
    }
  }

  /** The occurrences of the distinct values of `s` add up to its length. */
  lemma {:induction false} SumOfMultiplicities<T>(s: seq<T>)
    ensures SumBy(Dedupe(s), MultiplicityIn(s)) == |s|
    decreases |s|
  {
    if s != [] {
      var p, x := s[..|s| - 1], s[|s| - 1];
      assert s == p + [x];
      SumOfMultiplicities(p);
      var d := Dedupe(p);
      SumByBump(d, MultiplicityIn(p), MultiplicityIn(s), x);
      if x !in d {
        SumByConcat(d, [x], MultiplicityIn(s));
        assert x !in p;
      }
    }
  }

  /** The first element of `a` occurs in a reordering `b` of it, and what
      remains of both is again a reordering. */
  lemma PickFirst<T>(a: seq<T>, b: seq<T>) returns (i: nat)
    requires a != [] && multiset(a) == multiset(b)
    ensures i < |b| && b[i] == a[0]
    ensures multiset(a[1..]) == multiset(b[..i] + b[i + 1..])
    ensures b == b[..i] + [a[0]] + b[i + 1..]
  {
    var x := a[0];
    assert x in multiset(b) by {
      assert a == [x] + a[1..];
    }
    i :| 0 <= i < |b| && b[i] == x;
    var l, r := b[..i], b[i + 1..];
    assert b == l + [x] + r;
    assert multiset(b) == multiset(l + r) + multiset{x} by {
      assert multiset(b) == multiset(l) + multiset{x} + multiset(r);
    }
    assert multiset(a) == multiset(a[1..]) + multiset{x} by {
      assert a == [x] + a[1..];
    }
    AddOneCancel(multiset(a[1..]), multiset(l + r), x);
  }

  /** Multisets that agree after adding the same element agree before it. */
  lemma AddOneCancel<T>(m: multiset<T>, n: multiset<T>, x: T)
    requires m + multiset{x} == n + multiset{x}
    ensures m == n
  {
    assert m == (m + multiset{x}) - multiset{x};
  }

  /** A sum does not depend on the order of its terms. */
  lemma {:induction false} SumByPermutation<T>(a: seq<T>, b: seq<T>, f: T -> int)
    requires multiset(a) == multiset(b)
    ensures SumBy(a, f) == SumBy(b, f)
    decreases |a|
  {
    if a == [] {
      assert |b| == |multiset(b)| == 0;
    } else {
      var x := a[0];
      var i := PickFirst(a, b);
      var rest := b[..i] + b[i + 1..];
      assert SumBy(b, f) == f(x) + SumBy(rest, f) by {
        SumByConcat(b[..i] + [x], b[i + 1..], f);
        SumByConcat(b[..i], [x], f);
        SumByConcat(b[..i], b[i + 1..], f);
      }
      SumByPermutation(a[1..], rest, f);
    }
  }

  /** Without duplicates, no value occurs twice. */
  lemma {:induction false} NoDuplicatesAtMostOnce<T>(s: seq<T>, x: T)
    requires NoDuplicates(s)
    ensures multiset(s)[x] <= 1
  {
    if s != [] {
      assert s == [s[0]] + s[1..];
      assert NoDuplicates(s[1..]);
      NoDuplicatesAtMostOnce(s[1..], x);
      if x == s[0] {
        assert x !in s[1..];
      }
    }
  }

  /** A reordering of a sequence without duplicates has none. */
  lemma PermutationNoDuplicates<T>(a: seq<T>, b: seq<T>)
    requires multiset(a) == multiset(b) && NoDuplicates(b)
    ensures NoDuplicates(a)
  {
    forall i, j | 0 <= i < j < |a|
      ensures a[i] != a[j]
    {
      if a[i] == a[j] {
        NoDuplicatesMultiset(a, i, j);
        NoDuplicatesAtMostOnce(b, a[i]);
      }
    }
  }

  // ---------------------------------------------------------------- map

  /** `s.map(f)`. */
  function Map<T, U>(s: seq<T>, f: T -> U): (r: seq<U>)
    ensures |r| == |s|
    ensures forall i :: 0 <= i < |s| ==> r[i] == f(s[i])
  {
    seq(|s|, i requires 0 <= i < |s| => f(s[i]))
  }

  lemma MapConcat<T, U>(a: seq<T>, b: seq<T>, f: T -> U)
    ensures Map(a + b, f) == Map(a, f) + Map(b, f)
  {
  }

  /** The middle of `[h] + m + [t]` is `m`, shifted by one. */
  lemma Framed<T>(h: T, m: seq<T>, t: T)
    ensures |[h] + m + [t]| == |m| + 2
    ensures ([h] + m + [t])[0] == h && ([h] + m + [t])[|m| + 1] == t
    ensures forall i :: 0 <= i < |m| ==> ([h] + m + [t])[i + 1] == m[i]
  {
  }

  /** A slice of the tail is the slice of the whole one place further on. */
  lemma TailSlice<T>(s: seq<T>, i: nat, j: nat)
    requires s != [] && i <= j <= |s| - 1
    ensures s[1..][i..j] == s[i + 1..j + 1]
  {
    forall k | 0 <= k < j - i
      ensures s[1..][i..j][k] == s[i + 1..j + 1][k]
    {
    }
  }

  /** `Object.keys(m).length === 0`: a map with no keys is the empty map. */
  lemma NoKeysEmpty<K, V>(m: map<K, V>)
    ensures |m.Keys| == 0 <==> m == map[]
  {
    if m != map[] {
      var k :| k in m;
      assert k in m.Keys;
    }
  }

  /** `m` with `k` set to the value in `e`, when there is one: one
      `newErrors.field = message` of a validator. */
  function WithEntry<K, V>(m: map<K, V>, k: K, e: Option<V>): (r: map<K, V>)
    ensures e.Some? ==> r == m[k := e.value]
    ensures e.None? ==> r == m
  {
    if e.Some? then m[k := e.value] else m
  }

  /** The record a validator fills, entry by entry, for three distinct keys. */
  function Entries3<K, V>(k1: K, e1: Option<V>, k2: K, e2: Option<V>, k3: K, e3: Option<V>): (r: map<K, V>)
    requires k1 != k2 && k1 != k3 && k2 != k3
    ensures k1 in r <==> e1.Some?
    ensures k2 in r <==> e2.Some?
    ensures k3 in r <==> e3.Some?
    ensures forall k :: k in r ==> k == k1 || k == k2 || k == k3
    ensures r == map[] <==> e1.None? && e2.None? && e3.None?
    ensures r == WithEntry(WithEntry(WithEntry(map[], k1, e1), k2, e2), k3, e3)
  {
    var m := WithEntry(WithEntry(WithEntry(map[], k1, e1), k2, e2), k3, e3);
    assert k1 in m ==> m != map[];
    assert k2 in m ==> m != map[];
    assert k3 in m ==> m != map[];
    m
  }

  /** The same for five distinct keys. */
  function Entries5<K, V>(k1: K, e1: Option<V>, k2: K, e2: Option<V>, k3: K, e3: Option<V>,
                          k4: K, e4: Option<V>, k5: K, e5: Option<V>): (r: map<K, V>)
    requires k1 != k2 && k1 != k3 && k1 != k4 && k1 != k5
    requires k2 != k3 && k2 != k4 && k2 != k5 && k3 != k4 && k3 != k5 && k4 != k5
    ensures k1 in r <==> e1.Some?
    ensures k2 in r <==> e2.Some?
    ensures k3 in r <==> e3.Some?
    ensures k4 in r <==> e4.Some?
    ensures k5 in r <==> e5.Some?
    ensures forall k :: k in r ==> k == k1 || k == k2 || k == k3 || k == k4 || k == k5
    ensures r == WithEntry(WithEntry(Entries3(k1, e1, k2, e2, k3, e3), k4, e4), k5, e5)
  {
    WithEntry(WithEntry(Entries3(k1, e1, k2, e2, k3, e3), k4, e4), k5, e5)
  }

  /** A value among the images comes from some element. */
  lemma MapHits<T, U>(s: seq<T>, f: T -> U, y: U)
    requires y in multiset(Map(s, f))
    ensures exists i :: 0 <= i < |s| && f(s[i]) == y
  {
    var i :| 0 <= i < |s| && Map(s, f)[i] == y;
  }

  /** Mapping a reordering gives a reordering. */
  lemma {:induction false} MapPermutation<T, U>(a: seq<T>, b: seq<T>, f: T -> U)
    requires multiset(a) == multiset(b)
    ensures multiset(Map(a, f)) == multiset(Map(b, f))
    decreases |a|
  {
    if a == [] {
      assert |b| == |multiset(b)| == 0;
    } else {
      var x := a[0];
      var i := PickFirst(a, b);
      var rest := b[..i] + b[i + 1..];
      MapPermutation(a[1..], rest, f);
      assert Map(a, f) == [f(x)] + Map(a[1..], f) by {
        assert a == [x] + a[1..];
        MapConcat([x], a[1..], f);
      }
      var m1, m2 := Map(b[..i], f), Map(b[i + 1..], f);
      assert Map(b, f) == m1 + [f(x)] + m2 by {
        MapConcat(b[..i] + [x], b[i + 1..], f);
        MapConcat(b[..i], [x], f);
      }
      assert Map(rest, f) == m1 + m2 by {
        MapConcat(b[..i], b[i + 1..], f);
      }
      assert multiset(Map(b, f)) == multiset(m1) + multiset{f(x)} + multiset(m2);
    }
  }
}
