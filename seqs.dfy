/** The array operations the mock back end and the pages compose:
    `Array.prototype.filter`, `map`, `slice`, `Array.prototype.sort` (a
    stable sort driven by a comparator returning a number) and the
    paging arithmetic of the list endpoints. */
module Seqs {
  import opened Js

  // ---------------------------------------------------------------- filter

  /** `r` is obtained from `s` by deleting elements (order kept). */
  predicate IsSubsequence<T(==)>(r: seq<T>, s: seq<T>)
    decreases |s|
  {
    |r| == 0 ||
    (|s| > 0 && if r[0] == s[0] then IsSubsequence(r[1..], s[1..]) else IsSubsequence(r, s[1..]))
  }

  /** `s.filter(p)`. */
  function Filter<T(==)>(s: seq<T>, p: T -> bool): (r: seq<T>)
    ensures |r| <= |s|
    ensures forall i :: 0 <= i < |r| ==> p(r[i]) && r[i] in s
    ensures forall i :: 0 <= i < |s| && p(s[i]) ==> s[i] in r
    ensures IsSubsequence(r, s)
    decreases |s|
  {
    if |s| == 0 then []
    else
      var rest := Filter(s[1..], p);
      assert forall i :: 0 < i < |s| ==> s[i] == s[1..][i - 1];
      if p(s[0]) then
        assert ([s[0]] + rest)[1..] == rest;
        [s[0]] + rest
      else
        assert rest == [] || rest[0] != s[0];
        rest
  }

  /** `filter` keeps every copy of a passing value and no copy of any
      other: the count of `x` in the result is its count in `s`, or 0. */
  lemma {:induction false} FilterCount<T>(s: seq<T>, p: T -> bool, x: T)
    ensures multiset(Filter(s, p))[x] == if p(x) then multiset(s)[x] else 0
    decreases |s|
  {
    if |s| > 0 {
      FilterCount(s[1..], p, x);
      assert s == [s[0]] + s[1..];
      assert multiset(s) == multiset{s[0]} + multiset(s[1..]);
    }
  }

  /** Filtering a sequence whose every element passes changes nothing. */
  lemma {:induction false} FilterKeepsAll<T>(s: seq<T>, p: T -> bool)
    requires forall i :: 0 <= i < |s| ==> p(s[i])
    ensures Filter(s, p) == s
    decreases |s|
  {
    if |s| > 0 {
      FilterKeepsAll(s[1..], p);
      assert s == [s[0]] + s[1..];
    }
  }

  /** Two successive filters are one filter by the conjunction. */
  lemma {:induction false} FilterTwice<T>(s: seq<T>, p: T -> bool, q: T -> bool, both: T -> bool)
    requires forall x :: both(x) == (p(x) && q(x))
    ensures Filter(Filter(s, p), q) == Filter(s, both)
    decreases |s|
  {
    if |s| > 0 {
      FilterTwice(s[1..], p, q, both);
      if p(s[0]) {
        assert Filter(s, p) == [s[0]] + Filter(s[1..], p);
        assert ([s[0]] + Filter(s[1..], p))[1..] == Filter(s[1..], p);
      }
    }
  }

  lemma {:induction false} FilterExtensional<T>(s: seq<T>, p: T -> bool, q: T -> bool)
    requires forall x :: p(x) == q(x)
    ensures Filter(s, p) == Filter(s, q)
    decreases |s|
  {
    if |s| > 0 {
      FilterExtensional(s[1..], p, q);
    }
  }

  /** One guarded stage `if (on) s = s.filter(p)` applied to the result of
      filtering `data` by `sofar` is a single filter of `data` by `sofar`
      and, when the stage is on, `p`. */
  lemma StageIsFilter<T>(data: seq<T>, s: seq<T>, sofar: T -> bool, on: bool, p: T -> bool, next: T -> bool)
    requires s == Filter(data, sofar)
    requires forall x :: next(x) == (sofar(x) && (!on || p(x)))
    ensures (if on then Filter(s, p) else s) == Filter(data, next)
  {
    if on {
      FilterTwice(data, sofar, p, next);
    } else {
      FilterExtensional(data, sofar, next);
    }
  }

  /** An element is kept by the filter exactly when it passes. */
  lemma FilterKeepsExactly<T>(s: seq<T>, p: T -> bool)
    ensures forall x :: x in Filter(s, p) ==> p(x)
    ensures forall i :: 0 <= i < |s| ==> (s[i] in Filter(s, p) <==> p(s[i]))
  {
    var r := Filter(s, p);
    forall x | x in r ensures p(x) {
      var k :| 0 <= k < |r| && r[k] == x;
    }
  }

  /** `s.map(f)`. */
  function Map<T, U>(s: seq<T>, f: T -> U): (r: seq<U>)
    ensures |r| == |s|
    ensures forall i :: 0 <= i < |s| ==> r[i] == f(s[i])
  {
    seq(|s|, i requires 0 <= i < |s| => f(s[i]))
  }

  /** `s.map(f).filter(p)` keeps the image of every element whose image
      passes. */
  lemma FilterMapKeeps<T, U>(s: seq<T>, f: T -> U, p: U -> bool)
    ensures forall x :: x in s && p(f(x)) ==> f(x) in Filter(Map(s, f), p)
  {
    forall x | x in s && p(f(x)) ensures f(x) in Filter(Map(s, f), p) {
      var k :| 0 <= k < |s| && s[k] == x;
      assert Map(s, f)[k] == f(x);
    }
  }

  // ---------------------------------------------------------------- slice

  function Min(a: int, b: int): int {
    if a <= b then a else b
  }

  /** `s.slice(start, end)` for non-negative bounds: the indices of `s` in
      `[start, end)`, clipped to the length of `s`. */
  function Slice<T>(s: seq<T>, start: nat, end: nat): (r: seq<T>)
    ensures |r| == if start < Min(end, |s|) then Min(end, |s|) - start else 0
    ensures forall i :: 0 <= i < |r| ==> start + i < |s| && r[i] == s[start + i]
  {
    var e := Min(end, |s|);
    if start < e then s[start..e] else []
  }

  /** `Number(current) || 1` for a page number given as a natural number or
      left out. */
  function PageNumber(current: Option<nat>): (p: nat)
    ensures p >= 1
    ensures current.Some? && current.value != 0 ==> p == current.value
  {
    if current.Some? && current.value != 0 then current.value else 1
  }

  /** `Number(pageSize) || 10`. */
  function PageSize(pageSize: Option<nat>): (n: nat)
    ensures n >= 1
    ensures pageSize.Some? && pageSize.value != 0 ==> n == pageSize.value
  {
    if pageSize.Some? && pageSize.value != 0 then pageSize.value else 10
  }

  /** `s.slice((page - 1) * size, page * size)`. */
  function Page<T>(s: seq<T>, page: nat, size: nat): (r: seq<T>)
    requires page >= 1
    ensures |r| <= size
    ensures forall i :: 0 <= i < |r| ==> (page - 1) * size + i < |s| && r[i] == s[(page - 1) * size + i]
    ensures (page - 1) * size < |s| ==> |r| == Min(size, |s| - (page - 1) * size)
    ensures (page - 1) * size >= |s| ==> r == []
  {
    PageBounds(page, size);
    Slice(s, (page - 1) * size, page * size)
  }

  lemma PageBounds(page: nat, size: nat)
    requires page >= 1
    ensures page * size == (page - 1) * size + size
  {
  }

  /** The JSON answer of a list endpoint. */
  datatype PageResponse<T> = PageResponse(
    data: seq<T>,
    total: nat,
    success: bool,
    pageSize: nat,
    current: nat)

  /** The `sorter` query parameter after `JSON.parse` and `Object.entries`:
      absent or '', a text on which parsing throws (the error is caught and
      ignored), or the entries of the parsed value in order. */
  datatype Sorter = NoSorter | Malformed | Parsed(entries: seq<(string, string)>)

  /** The sort that runs: the first entry, when both its key and its order
      are non-empty. */
  function SortSpec(sorter: Sorter): (r: Option<(string, string)>)
    ensures r.Some? ==> sorter.Parsed? && |sorter.entries| > 0 && r.value == sorter.entries[0]
    ensures r.Some? ==> r.value.0 != "" && r.value.1 != ""
    ensures (sorter.Parsed? && |sorter.entries| > 0 && sorter.entries[0].0 != "" &&
             sorter.entries[0].1 != "") ==> r.Some?
  {
    if sorter.Parsed? && |sorter.entries| > 0 && sorter.entries[0].0 != "" && sorter.entries[0].1 != ""
    then Some(sorter.entries[0])
    else None
  }

  /** Pages 1 to `n`, one after the other. */
  function PagesUpTo<T>(s: seq<T>, size: nat, n: nat): seq<T>
  {
    if n == 0 then [] else PagesUpTo(s, size, n - 1) + Page(s, n, size)
  }

  /** Reading pages 1, 2, ..., n in turn yields the first `n * size`
      elements exactly once each: pages partition the list. */
  lemma {:induction false} PagesPartition<T>(s: seq<T>, size: nat, n: nat)
    ensures PagesUpTo(s, size, n) == s[..Min(n * size, |s|)]
  {
    if n > 0 {
      PagesPartition(s, size, n - 1);
      var lo := Min((n - 1) * size, |s|);
      var hi := Min(n * size, |s|);
      assert (n - 1) * size <= n * size;
      assert Page(s, n, size) == s[lo..hi];
      assert s[..hi] == s[..lo] + s[lo..hi];
    }
  }

  /** Every element is on some page, so enough pages give back the list. */
  lemma AllPagesGiveEverything<T>(s: seq<T>, size: nat, n: nat)
    requires n * size >= |s|
    ensures PagesUpTo(s, size, n) == s
  {
    PagesPartition(s, size, n);
    assert s[..|s|] == s;
  }

  // ---------------------------------------------------------------- sort

  /** The comparator never says "greater" both ways round, as every
      comparator built from a subtraction or from `localeCompare` does. */
  ghost predicate Antisymmetric<T(!new)>(cmp: (T, T) -> int) {
    forall x, y :: cmp(x, y) > 0 ==> cmp(y, x) < 0
  }

  /** No two neighbours are out of order. */
  predicate AdjacentOrdered<T>(s: seq<T>, cmp: (T, T) -> int) {
    forall k :: 0 < k < |s| ==> cmp(s[k - 1], s[k]) <= 0
  }

  /** Inserting `x` into `s` from the right: `x` moves left past every
      element that compares greater than it and stops at the first one that
      does not. */
  function Insert<T>(s: seq<T>, x: T, cmp: (T, T) -> int): (r: seq<T>)
    ensures |r| == |s| + 1
    decreases |s|
  {
    if |s| == 0 then [x]
    else if cmp(s[|s| - 1], x) > 0 then Insert(s[..|s| - 1], x, cmp) + [s[|s| - 1]]
    else s + [x]
  }

  /** `Array.prototype.sort` with comparator `cmp`, as the stable insertion
      sort that inserts the elements one by one from the left. */
  function SortedBy<T>(s: seq<T>, cmp: (T, T) -> int): (r: seq<T>)
    ensures |r| == |s|
    decreases |s|
  {
    if |s| == 0 then [] else Insert(SortedBy(s[..|s| - 1], cmp), s[|s| - 1], cmp)
  }

  lemma {:induction false} InsertIsPermutation<T>(s: seq<T>, x: T, cmp: (T, T) -> int)
    ensures multiset(Insert(s, x, cmp)) == multiset(s) + multiset{x}
    decreases |s|
  {
    if |s| > 0 && cmp(s[|s| - 1], x) > 0 {
      InsertIsPermutation(s[..|s| - 1], x, cmp);
      assert s == s[..|s| - 1] + [s[|s| - 1]];
    }
  }

  /** The sort neither loses nor invents elements. */
  lemma {:induction false} SortedByIsPermutation<T>(s: seq<T>, cmp: (T, T) -> int)
    ensures multiset(SortedBy(s, cmp)) == multiset(s)
    decreases |s|
  {
    if |s| > 0 {
      SortedByIsPermutation(s[..|s| - 1], cmp);
      InsertIsPermutation(SortedBy(s[..|s| - 1], cmp), s[|s| - 1], cmp);
      assert s == s[..|s| - 1] + [s[|s| - 1]];
    }
  }

  lemma {:induction false} InsertKeepsOrder<T(!new)>(s: seq<T>, x: T, cmp: (T, T) -> int)
    requires Antisymmetric(cmp)
    requires AdjacentOrdered(s, cmp)
    ensures AdjacentOrdered(Insert(s, x, cmp), cmp)
    ensures var r := Insert(s, x, cmp); r[|r| - 1] == x || (|s| > 0 && r[|r| - 1] == s[|s| - 1])
    decreases |s|
  {
    if |s| > 0 && cmp(s[|s| - 1], x) > 0 {
      var init := s[..|s| - 1];
      InsertKeepsOrder(init, x, cmp);
      var r0 := Insert(init, x, cmp);
      var r := r0 + [s[|s| - 1]];
      assert cmp(r0[|r0| - 1], s[|s| - 1]) <= 0 by {
        if r0[|r0| - 1] == x {
          assert cmp(x, s[|s| - 1]) < 0;
        } else {
          assert r0[|r0| - 1] == s[|s| - 2];
        }
      }
      forall k | 0 < k < |r|
        ensures cmp(r[k - 1], r[k]) <= 0
      {
        if k < |r0| {
          assert r[k - 1] == r0[k - 1] && r[k] == r0[k];
        }
      }
    }
  }

  /** With an antisymmetric comparator, the sort leaves no neighbours out of
      order. */
  lemma {:induction false} SortedByIsOrdered<T(!new)>(s: seq<T>, cmp: (T, T) -> int)
    requires Antisymmetric(cmp)
    ensures AdjacentOrdered(SortedBy(s, cmp), cmp)
    decreases |s|
  {
    if |s| > 0 {
      SortedByIsOrdered(s[..|s| - 1], cmp);
      InsertKeepsOrder(SortedBy(s[..|s| - 1], cmp), s[|s| - 1], cmp);
    }
  }

  /** Sorting a sequence that is already in order leaves it as it is; in
      particular a comparator that calls every pair equal keeps the input
      order. */
  lemma {:induction false} SortedByOrderedIsIdentity<T>(s: seq<T>, cmp: (T, T) -> int)
    requires AdjacentOrdered(s, cmp)
    ensures SortedBy(s, cmp) == s
    decreases |s|
  {
    if |s| > 0 {
      var init := s[..|s| - 1];
      assert AdjacentOrdered(init, cmp) by {
        forall k | 0 < k < |init| ensures cmp(init[k - 1], init[k]) <= 0 {
          assert init[k - 1] == s[k - 1] && init[k] == s[k];
        }
      }
      SortedByOrderedIsIdentity(init, cmp);
      var last := s[|s| - 1];
      assert SortedBy(s, cmp) == Insert(init, last, cmp) by {
        assert s[..|s| - 1] == init;
      }
      if |init| > 0 {
        assert cmp(init[|init| - 1], last) <= 0 by {
          assert init[|init| - 1] == s[|s| - 2];
        }
      }
      assert Insert(init, last, cmp) == init + [last];
      assert s == init + [last];
    }
  }

  /** Sorting twice is sorting once. */
  lemma SortedByIdempotent<T(!new)>(s: seq<T>, cmp: (T, T) -> int)
    requires Antisymmetric(cmp)
    ensures SortedBy(SortedBy(s, cmp), cmp) == SortedBy(s, cmp)
  {
    SortedByIsOrdered(s, cmp);
    SortedByOrderedIsIdentity(SortedBy(s, cmp), cmp);
  }

  /** Neighbours ordered by an integer key means the whole sequence is. */
  lemma {:induction false} AdjacentKeysOrdered<T>(s: seq<T>, key: T -> int)
    requires forall k :: 0 < k < |s| ==> key(s[k - 1]) <= key(s[k])
    ensures forall i, j :: 0 <= i <= j < |s| ==> key(s[i]) <= key(s[j])
    decreases |s|
  {
    if |s| > 1 {
      var tail := s[1..];
      assert forall k :: 0 < k < |tail| ==> key(tail[k - 1]) <= key(tail[k]) by {
        forall k | 0 < k < |tail| ensures key(tail[k - 1]) <= key(tail[k]) {
          assert tail[k - 1] == s[k] && tail[k] == s[k + 1];
        }
      }
      AdjacentKeysOrdered(tail, key);
      forall i, j | 0 <= i <= j < |s| ensures key(s[i]) <= key(s[j]) {
        if i > 0 {
          assert s[i] == tail[i - 1] && s[j] == tail[j - 1];
        } else if j > 0 {
          assert s[1] == tail[0] && s[j] == tail[j - 1];
        }
      }
    }
  }

  /** `Array.prototype.sort(cmp)` on an array, in place, as a swapping
      insertion sort. */
  method SortInPlace<T>(a: array<T>, cmp: (T, T) -> int)
    modifies a
    ensures a[..] == SortedBy(old(a[..]), cmp)
  {
    var i := 0;
    while i < a.Length
      invariant 0 <= i <= a.Length
      invariant a[..i] == SortedBy(old(a[..])[..i], cmp)
      invariant a[i..] == old(a[..])[i..]
    {
      ghost var prefix := old(a[..])[..i + 1];
      assert prefix[..i] == old(a[..])[..i];
      assert prefix[i] == a[i];
      InsertAt(a, i, cmp);
      i := i + 1;
    }
    assert a[..] == a[..a.Length];
    assert old(a[..]) == old(a[..])[..a.Length];
  }

  /** Sort a fresh array holding `s`, as `result.sort(cmp)` does to the
      working copy of a list. */
  method SortedCopy<T>(s: seq<T>, cmp: (T, T) -> int) returns (r: seq<T>)
    ensures r == SortedBy(s, cmp)
  {
    var a := new T[|s|](i requires 0 <= i < |s| => s[i]);
    assert a[..] == s;
    SortInPlace(a, cmp);
    r := a[..];
  }

  /** One pass of the insertion sort: `a[i]` moves left, by swaps, past the
      elements of the ordered prefix `a[..i]` that compare greater. */
  method InsertAt<T>(a: array<T>, i: nat, cmp: (T, T) -> int)
    requires i < a.Length
    modifies a
    ensures a[..i + 1] == Insert(old(a[..i]), old(a[i]), cmp)
    ensures a[i + 1..] == old(a[i + 1..])
  {
    ghost var sorted := a[..i];
    var x := a[i];
    var j := i;
    while j > 0 && cmp(a[j - 1], a[j]) > 0
      invariant 0 <= j <= i
      invariant a[j] == x
      invariant a[i + 1..] == old(a[i + 1..])
      invariant Insert(sorted, x, cmp) == Insert(a[..j], x, cmp) + a[j + 1..i + 1]
    {
      ghost var before := a[..];
      a[j - 1], a[j] := a[j], a[j - 1];
      SwapStep(before, a[..], i, j, x, cmp);
      j := j - 1;
    }
    InsertStops(a[..], i, j, x, cmp);
  }

  /** Swapping `x` with a greater left neighbour keeps the insertion's
      outcome. */
  lemma SwapStep<T>(before: seq<T>, after: seq<T>, i: nat, j: nat, x: T, cmp: (T, T) -> int)
    requires 0 < j <= i < |before| && before[j] == x && cmp(before[j - 1], x) > 0
    requires after == before[j - 1 := x][j := before[j - 1]]
    ensures after[j - 1] == x
    ensures after[i + 1..] == before[i + 1..]
    ensures Insert(before[..j], x, cmp) + before[j + 1..i + 1] ==
            Insert(after[..j - 1], x, cmp) + after[j..i + 1]
  {
    assert before[..j][..j - 1] == after[..j - 1];
    assert after[j..i + 1] == [before[j - 1]] + before[j + 1..i + 1];
  }

  /** Where `x` stops, inserting it leaves the prefix as it is. */
  lemma InsertStops<T>(s: seq<T>, i: nat, j: nat, x: T, cmp: (T, T) -> int)
    requires j <= i < |s| && s[j] == x && (j == 0 || cmp(s[j - 1], x) <= 0)
    ensures Insert(s[..j], x, cmp) + s[j + 1..i + 1] == s[..i + 1]
  {
    assert s[..i + 1] == s[..j] + [x] + s[j + 1..i + 1];
  }
}
