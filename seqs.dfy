/** Sequence combinators shared by the pages: `filter`, `sort` (as one stable
    insertion sort), de-duplication through a `Set`, and the first-index lookup
    behind `indexOf`. */
module Seqs {

  /** `a` is obtained from `b` by deleting elements: what is kept keeps `b`'s order. */
  predicate IsSubsequence<T(==)>(a: seq<T>, b: seq<T>)
    decreases |b|
  {
    if a == [] then true
    else if b == [] then false
    else if a[0] == b[0] then IsSubsequence(a[1..], b[1..])
    else IsSubsequence(a, b[1..])
  }

  /** `Array.prototype.filter`: the elements of `s` satisfying `p`, in order. */
  function Filter<T>(p: T -> bool, s: seq<T>): (r: seq<T>)
    ensures |r| <= |s|
    ensures forall i :: 0 <= i < |r| ==> r[i] in s && p(r[i])
    ensures forall i :: 0 <= i < |s| && p(s[i]) ==> s[i] in r
  {
    if s == [] then [] else (if p(s[0]) then [s[0]] else []) + Filter(p, s[1..])
  }

  lemma {:induction false} FilterIsSubsequence<T>(p: T -> bool, s: seq<T>)
    ensures IsSubsequence(Filter(p, s), s)
  {
    if s != [] {
      FilterIsSubsequence(p, s[1..]);
      if p(s[0]) {
        assert Filter(p, s) == [s[0]] + Filter(p, s[1..]);
        assert Filter(p, s)[1..] == Filter(p, s[1..]);
      } else {
        assert Filter(p, s) == Filter(p, s[1..]);
        SubsequenceOfTail(Filter(p, s), s);
      }
    }
  }

  /** A subsequence of the tail is a subsequence of the whole. */
  lemma {:induction false} SubsequenceOfTail<T>(a: seq<T>, b: seq<T>)
    requires b != [] && IsSubsequence(a, b[1..])
    ensures IsSubsequence(a, b)
    decreases |b|, 1
  {
    if a != [] && a[0] == b[0] {
      // the greedy match takes b[0]; a[1..] is still a subsequence of b[1..]
      SubsequenceDropHead(a, b[1..]);
    }
  }

  /** Dropping the first element of a subsequence keeps it a subsequence. */
  lemma {:induction false} SubsequenceDropHead<T>(a: seq<T>, b: seq<T>)
    requires a != [] && IsSubsequence(a, b)
    ensures IsSubsequence(a[1..], b)
    decreases |b|, 2
  {
    if a[0] == b[0] {
      if a[1..] != [] {
        SubsequenceOfTail(a[1..], b);
      }
    } else {
      SubsequenceDropHead(a, b[1..]);
      if a[1..] != [] {
        SubsequenceOfTail(a[1..], b);
      }
    }
  }

  /** Places `x` in front of the first element it must precede (`cmp(x, y) < 0`),
      so that `x` goes after every element it ties with. */
  function Insert<T>(cmp: (T, T) -> int, sorted: seq<T>, x: T): (r: seq<T>)
    ensures multiset(r) == multiset(sorted) + multiset{x}
    ensures |r| == |sorted| + 1
  {
    if sorted == [] then [x]
    else if cmp(x, sorted[0]) < 0 then [x] + sorted
    else
      assert sorted == [sorted[0]] + sorted[1..];
      [sorted[0]] + Insert(cmp, sorted[1..], x)
  }

  /** Insertion sort with a JavaScript-style comparator: element by element,
      each is inserted into the sorted prefix. */
  function SortBy<T>(cmp: (T, T) -> int, s: seq<T>): (r: seq<T>)
    ensures multiset(r) == multiset(s)
    ensures |r| == |s|
  {
    if s == [] then []
    else
      assert s == s[..|s| - 1] + [s[|s| - 1]];
      Insert(cmp, SortBy(cmp, s[..|s| - 1]), s[|s| - 1])
  }

  ghost predicate NonIncreasing<T>(key: T -> int, s: seq<T>) {
    forall i, j :: 0 <= i < j < |s| ==> key(s[i]) >= key(s[j])
  }

  ghost predicate NonDecreasing<T>(key: T -> int, s: seq<T>) {
    forall i, j :: 0 <= i < j < |s| ==> key(s[i]) <= key(s[j])
  }

  /** A descending list stays descending behind a head at least as large as all of it. */
  lemma NonIncreasingPrepend<T>(key: T -> int, x: T, rest: seq<T>)
    requires NonIncreasing(key, rest)
    requires forall y :: y in rest ==> key(y) <= key(x)
    ensures NonIncreasing(key, [x] + rest)
  {
    var r := [x] + rest;
    forall i, j | 0 <= i < j < |r| ensures key(r[i]) >= key(r[j]) {
      assert r[j] == rest[j - 1];
      if i > 0 {
        assert r[i] == rest[i - 1];
      }
    }
  }

  /** What is inserted after the head of a descending list stays at or below it. */
  lemma InsertBelowHead<T>(key: T -> int, cmp: (T, T) -> int, sorted: seq<T>, x: T)
    requires forall a, b :: cmp(a, b) == key(b) - key(a)
    requires NonIncreasing(key, sorted)
    requires sorted != [] && cmp(x, sorted[0]) >= 0
    ensures forall y :: y in Insert(cmp, sorted[1..], x) ==> key(y) <= key(sorted[0])
  {
    var rest := Insert(cmp, sorted[1..], x);
    forall y | y in rest ensures key(y) <= key(sorted[0]) {
      assert y in multiset(rest);
      if y != x {
        assert y in multiset(sorted[1..]);
        var k :| 0 <= k < |sorted[1..]| && sorted[1..][k] == y;
        assert sorted[k + 1] == y;
      }
    }
  }

  lemma {:induction false} InsertDescending<T>(key: T -> int, cmp: (T, T) -> int, sorted: seq<T>, x: T)
    requires forall a, b :: cmp(a, b) == key(b) - key(a)
    requires NonIncreasing(key, sorted)
    ensures NonIncreasing(key, Insert(cmp, sorted, x))
  {
    if sorted != [] && cmp(x, sorted[0]) >= 0 {
      InsertDescending(key, cmp, sorted[1..], x);
      var rest := Insert(cmp, sorted[1..], x);
      InsertBelowHead(key, cmp, sorted, x);
      NonIncreasingPrepend(key, sorted[0], rest);
      assert Insert(cmp, sorted, x) == [sorted[0]] + rest;
    }
  }

  /** With a comparator `(a, b) => key(b) - key(a)`, the sort orders by `key`, largest first. */
  lemma {:induction false} SortByDescending<T>(key: T -> int, cmp: (T, T) -> int, s: seq<T>)
    requires forall a, b :: cmp(a, b) == key(b) - key(a)
    ensures NonIncreasing(key, SortBy(cmp, s))
  {
    if s != [] {
      SortByDescending(key, cmp, s[..|s| - 1]);
      InsertDescending(key, cmp, SortBy(cmp, s[..|s| - 1]), s[|s| - 1]);
    }
  }

  lemma {:induction false} InsertAtEnd<T>(cmp: (T, T) -> int, sorted: seq<T>, x: T)
    requires forall i :: 0 <= i < |sorted| ==> cmp(x, sorted[i]) >= 0
    ensures Insert(cmp, sorted, x) == sorted + [x]
  {
    if sorted != [] {
      assert cmp(x, sorted[0]) >= 0;
      InsertAtEnd(cmp, sorted[1..], x);
      assert [sorted[0]] + (sorted[1..] + [x]) == sorted + [x];
    }
  }

  /** With a comparator `(a, b) => key(a) - key(b)`, a list already ordered by
      `key` comes back unchanged. */
  lemma {:induction false} SortByKeepsAscending<T>(key: T -> int, cmp: (T, T) -> int, s: seq<T>)
    requires forall a, b :: cmp(a, b) == key(a) - key(b)
    requires NonDecreasing(key, s)
    ensures SortBy(cmp, s) == s
  {
    if s != [] {
      var init := s[..|s| - 1];
      SortByKeepsAscending(key, cmp, init);
      InsertAtEnd(cmp, init, s[|s| - 1]);
      assert init + [s[|s| - 1]] == s;
    }
  }

  /** Position of the first occurrence of `x` in `s` (`indexOf`, for a present element). */
  function FirstIndex<T(==)>(s: seq<T>, x: T): (k: nat)
    requires x in s
    ensures k < |s| && s[k] == x
    ensures forall j :: 0 <= j < k ==> s[j] != x
  {
    if s[0] == x then 0 else 1 + FirstIndex(s[1..], x)
  }

  /** `Array.from(new Set(s))`: each value once, in the order of its first occurrence. */
  function Dedup<T(==)>(s: seq<T>): (r: seq<T>)
    ensures forall i :: 0 <= i < |r| ==> r[i] in s
    ensures forall i :: 0 <= i < |s| ==> s[i] in r
    ensures forall i, j :: 0 <= i < j < |r| ==> r[i] != r[j]
  {
    if s == [] then []
    else
      var r := Dedup(s[..|s| - 1]);
      assert forall i :: 0 <= i < |s| - 1 ==> s[i] == s[..|s| - 1][i];
      if s[|s| - 1] in r then r else r + [s[|s| - 1]]
  }

  lemma FirstIndexOfPrefix<T>(s: seq<T>, x: T, n: nat)
    requires n <= |s| && x in s[..n]
    ensures FirstIndex(s, x) == FirstIndex(s[..n], x)
  {
    var k := FirstIndex(s[..n], x);
    assert s[k] == s[..n][k];
    assert forall j :: 0 <= j < k ==> s[j] == s[..n][j];
    var k' := FirstIndex(s, x);
    assert k' <= k;
    assert k <= k';
  }

  lemma FirstIndexOfLast<T>(s: seq<T>, n: nat)
    requires n == |s| - 1 && s[n] !in s[..n]
    ensures FirstIndex(s, s[n]) == n
  {
    var k := FirstIndex(s, s[n]);
    assert forall j :: 0 <= j < n ==> s[j] == s[..n][j];
  }

  /** The values of `Dedup(s)` are listed in the order in which they first occur in `s`. */
  lemma {:induction false} DedupFirstOccurrenceOrder<T>(s: seq<T>)
    ensures forall i, j :: 0 <= i < j < |Dedup(s)| ==>
      (Dedup(s)[i] in s && Dedup(s)[j] in s && FirstIndex(s, Dedup(s)[i]) < FirstIndex(s, Dedup(s)[j]))
  {
    if s != [] {
      var n := |s| - 1;
      var init := s[..n];
      DedupFirstOccurrenceOrder(init);
      var r0 := Dedup(init);
      var r := Dedup(s);
      assert r == if s[n] in r0 then r0 else r0 + [s[n]];
      forall i, j | 0 <= i < j < |r|
        ensures r[i] in s && r[j] in s && FirstIndex(s, r[i]) < FirstIndex(s, r[j])
      {
        assert r[i] == r0[i] && r[i] in init;
        FirstIndexOfPrefix(s, r[i], n);
        if j < |r0| {
          assert r[j] == r0[j] && r[j] in init;
          FirstIndexOfPrefix(s, r[j], n);
        } else {
          assert r[j] == s[n] && s[n] !in r0;
          assert s[n] !in init;
          FirstIndexOfLast(s, n);
        }
      }
    } else {
      assert Dedup(s) == [];
    }
  }

  /** JavaScript's `indexOf` on values: the first position of `x`, or -1. */
  function IndexOf<T(==)>(s: seq<T>, x: T): (k: int)
    ensures k == -1 <==> x !in s
    ensures k >= 0 ==> k < |s| && s[k] == x && forall j :: 0 <= j < k ==> s[j] != x
  {
    if x in s then FirstIndex(s, x) else -1
  }

  ghost predicate Distinct<T>(s: seq<T>) {
    forall i, j :: 0 <= i < j < |s| ==> s[i] != s[j]
  }

  lemma IndexOfTail<T>(s: seq<T>, x: T)
    requires s != [] && x in s[1..] && x != s[0]
    ensures IndexOf(s, x) == IndexOf(s[1..], x) + 1
  {
    var k := IndexOf(s[1..], x);
    assert s[k + 1] == x;
    var k' := IndexOf(s, x);
    assert k' <= k + 1;
    assert k' > 0;
    assert s[1..][k' - 1] == x;
    assert k <= k' - 1;
  }

  lemma DistinctTail<T>(s: seq<T>)
    requires s != [] && Distinct(s)
    ensures s[0] !in s[1..] && Distinct(s[1..])
  {
  }

  /** Elements of the tail keep their relative order when indexed in the whole list, one place later. */
  lemma IndexOrderInTail<T>(s: seq<T>, rt: seq<T>)
    requires s != []
    requires forall k :: 0 <= k < |rt| ==> rt[k] in s[1..] && rt[k] != s[0]
    requires forall i, j :: 0 <= i < j < |rt| ==> IndexOf(s[1..], rt[i]) < IndexOf(s[1..], rt[j])
    ensures forall k :: 0 <= k < |rt| ==> IndexOf(s, rt[k]) == IndexOf(s[1..], rt[k]) + 1
    ensures forall i, j :: 0 <= i < j < |rt| ==> IndexOf(s, rt[i]) < IndexOf(s, rt[j])
  {
    forall k | 0 <= k < |rt| ensures IndexOf(s, rt[k]) == IndexOf(s[1..], rt[k]) + 1 {
      IndexOfTail(s, rt[k]);
    }
  }

  /** The head of a list indexes before every element placed after it. */
  lemma IndexOrderPrepend<T>(s: seq<T>, rt: seq<T>)
    requires s != []
    requires forall k :: 0 <= k < |rt| ==> IndexOf(s, rt[k]) > 0
    requires forall i, j :: 0 <= i < j < |rt| ==> IndexOf(s, rt[i]) < IndexOf(s, rt[j])
    ensures forall i, j :: 0 <= i < j < |[s[0]] + rt| ==> IndexOf(s, ([s[0]] + rt)[i]) < IndexOf(s, ([s[0]] + rt)[j])
  {
    var r := [s[0]] + rt;
    assert IndexOf(s, s[0]) == 0;
    forall i, j | 0 <= i < j < |r| ensures IndexOf(s, r[i]) < IndexOf(s, r[j]) {
      assert r[j] == rt[j - 1];
      if i > 0 {
        assert r[i] == rt[i - 1];
      }
    }
  }

  /** One step of the order proof: the filtered tail is in index order, and the head is not repeated. */
  lemma FilterIndexOrderStep<T>(p: T -> bool, s: seq<T>)
    requires s != [] && s[0] !in s[1..]
    requires forall i, j :: 0 <= i < j < |Filter(p, s[1..])| ==>
      IndexOf(s[1..], Filter(p, s[1..])[i]) < IndexOf(s[1..], Filter(p, s[1..])[j])
    ensures forall i, j :: 0 <= i < j < |Filter(p, s)| ==> IndexOf(s, Filter(p, s)[i]) < IndexOf(s, Filter(p, s)[j])
  {
    var t := s[1..];
    var rt := Filter(p, t);
    var r := Filter(p, s);
    forall k | 0 <= k < |rt| ensures rt[k] in t && rt[k] != s[0] {
      assert rt[k] in t;
    }
    IndexOrderInTail(s, rt);
    if p(s[0]) {
      assert r == [s[0]] + rt;
      IndexOrderPrepend(s, rt);
    } else {
      assert r == rt;
    }
  }

  /** Filtering a list without repetitions keeps its elements in their original positions' order. */
  lemma {:induction false} FilterKeepsIndexOrder<T>(p: T -> bool, s: seq<T>)
    requires Distinct(s)
    ensures forall i, j :: 0 <= i < j < |Filter(p, s)| ==> IndexOf(s, Filter(p, s)[i]) < IndexOf(s, Filter(p, s)[j])
  {
    if s != [] {
      DistinctTail(s);
      FilterKeepsIndexOrder(p, s[1..]);
      FilterIndexOrderStep(p, s);
    }
  }

  /** Filtering keeps every occurrence of a kept value and none of a dropped one. */
  lemma {:induction false} FilterMultiplicity<T>(p: T -> bool, s: seq<T>, x: T)
    ensures multiset(Filter(p, s))[x] == if p(x) then multiset(s)[x] else 0
  {
    if s != [] {
      FilterMultiplicity(p, s[1..], x);
      assert s == [s[0]] + s[1..];
      assert Filter(p, s) == (if p(s[0]) then [s[0]] else []) + Filter(p, s[1..]);
    }
  }

  lemma FilterMultiset<T>(p: T -> bool, s: seq<T>)
    ensures forall x :: multiset(Filter(p, s))[x] == if p(x) then multiset(s)[x] else 0
  {
    forall x ensures multiset(Filter(p, s))[x] == if p(x) then multiset(s)[x] else 0 {
      FilterMultiplicity(p, s, x);
    }
  }

  /** Filtering by a conjunction is filtering twice. */
  lemma {:induction false} FilterOfFilter<T>(p: T -> bool, q: T -> bool, r: T -> bool, s: seq<T>)
    requires forall x :: p(x) == (q(x) && r(x))
    ensures Filter(p, s) == Filter(r, Filter(q, s))
  {
    if s != [] {
      FilterOfFilter(p, q, r, s[1..]);
      var t := Filter(q, s[1..]);
      if q(s[0]) {
        var u := [s[0]] + t;
        assert Filter(q, s) == u;
        assert u[0] == s[0] && u[1..] == t;
        assert Filter(r, u) == (if r(s[0]) then [s[0]] else []) + Filter(r, t);
        assert Filter(p, s) == (if p(s[0]) then [s[0]] else []) + Filter(p, s[1..]);
      } else {
        assert Filter(q, s) == t;
        assert Filter(p, s) == Filter(p, s[1..]);
      }
    }
  }

  /** A filter every element passes changes nothing. */
  lemma {:induction false} FilterAll<T>(p: T -> bool, s: seq<T>)
    requires forall i :: 0 <= i < |s| ==> p(s[i])
    ensures Filter(p, s) == s
  {
    if s != [] {
      FilterAll(p, s[1..]);
    }
  }

  /** A filter no element passes leaves nothing. */
  lemma {:induction false} FilterNone<T>(p: T -> bool, s: seq<T>)
    requires forall i :: 0 <= i < |s| ==> !p(s[i])
    ensures Filter(p, s) == []
  {
    if s != [] {
      FilterNone(p, s[1..]);
    }
  }
}
