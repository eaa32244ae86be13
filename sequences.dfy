/** The array operations the blog code relies on, as functions on sequences:
    `find`, `filter`, `slice` and the stable `sort` of ECMAScript 2019. */
module Sequences {

  datatype Option<+T> = None | Some(value: T)

  function Min(a: int, b: int): int { if a <= b then a else b }

  function Max(a: int, b: int): int { if a <= b then b else a }

  // ---------------------------------------------------------------- find

  /** `Array.prototype.findIndex`, with "not found" as `None`. */
  function FindIndex<T>(s: seq<T>, test: T -> bool): (r: Option<nat>)
    ensures r.Some? ==> r.value < |s| && test(s[r.value])
    ensures r.Some? ==> forall j :: 0 <= j < r.value ==> !test(s[j])
    ensures r.None? <==> forall j :: 0 <= j < |s| ==> !test(s[j])
  {
    if s == [] then None
    else if test(s[0]) then Some(0)
    else match FindIndex(s[1..], test)
      case None => None
      case Some(k) => Some(k + 1)
  }

  /** `Array.prototype.find`: the first element that passes `test`. */
  function Find<T>(s: seq<T>, test: T -> bool): (r: Option<T>)
    ensures r.None? <==> forall x :: x in s ==> !test(x)
    ensures r.Some? ==> test(r.value)
    ensures r.Some? ==> exists i :: 0 <= i < |s| && s[i] == r.value && forall j :: 0 <= j < i ==> !test(s[j])
  {
    match FindIndex(s, test)
    case None => None
    case Some(i) => Some(s[i])
  }

  // ---------------------------------------------------------------- filter

  /** `Array.prototype.filter`: the elements that pass `keep`, in order. */
  function Filter<T(!new)>(s: seq<T>, keep: T -> bool): (r: seq<T>)
    ensures |r| <= |s|
    ensures forall x :: x in r <==> x in s && keep(x)
  {
    if s == [] then []
    else (if keep(s[0]) then [s[0]] else []) + Filter(s[1..], keep)
  }

  /** Filtering keeps the order of the input: it distributes over concatenation. */
  lemma {:induction false} FilterAppend<T(!new)>(a: seq<T>, b: seq<T>, keep: T -> bool)
    ensures Filter(a + b, keep) == Filter(a, keep) + Filter(b, keep)
  {
    if a == [] {
      assert a + b == b;
    } else {
      assert (a + b)[1..] == a[1..] + b;
      FilterAppend(a[1..], b, keep);
    }
  }

  /** Filtering twice is filtering once by the conjunction of the two tests. */
  lemma {:induction false} FilterFilter<T(!new)>(s: seq<T>, first: T -> bool, second: T -> bool, both: T -> bool)
    requires forall x :: both(x) == (first(x) && second(x))
    ensures Filter(Filter(s, first), second) == Filter(s, both)
  {
    if s != [] {
      FilterFilter(s[1..], first, second, both);
      var head := if first(s[0]) then [s[0]] else [];
      assert Filter(s, first) == head + Filter(s[1..], first);
      FilterAppend(head, Filter(s[1..], first), second);
    }
  }

  /** Two tests that agree on every element give the same filtered sequence. */
  lemma {:induction false} FilterCongruent<T(!new)>(s: seq<T>, f: T -> bool, g: T -> bool)
    requires forall x :: x in s ==> f(x) == g(x)
    ensures Filter(s, f) == Filter(s, g)
  {
    if s != [] {
      FilterCongruent(s[1..], f, g);
    }
  }

  /** When every element passes, filtering returns the input unchanged. */
  lemma {:induction false} FilterKeepsAll<T(!new)>(s: seq<T>, keep: T -> bool)
    requires forall x :: x in s ==> keep(x)
    ensures Filter(s, keep) == s
  {
    if s != [] {
      FilterKeepsAll(s[1..], keep);
      assert s == [s[0]] + s[1..];
    }
  }

  /** When no element passes, filtering returns the empty sequence. */
  lemma {:induction false} FilterKeepsNone<T(!new)>(s: seq<T>, keep: T -> bool)
    requires forall x :: x in s ==> !keep(x)
    ensures Filter(s, keep) == []
  {
    if s != [] {
      FilterKeepsNone(s[1..], keep);
    }
  }

  // ---------------------------------------------------------------- slice

  /** How `Array.prototype.slice` turns an argument into an index:
      a negative argument counts from the end; the result lies in [0, len]. */
  function RelativeIndex(i: int, len: nat): (k: nat)
    ensures k <= len
  {
    if i < 0 then Max(len + i, 0) else Min(i, len)
  }

  /** `Array.prototype.slice(start, end)`: the run of `max(to - from, 0)`
      elements beginning at index `from`, where `from` and `to` are the two
      arguments turned into indexes. It never fails. */
  function Slice<T>(s: seq<T>, start: int, end: int): (r: seq<T>)
    ensures |r| == Max(RelativeIndex(end, |s|) - RelativeIndex(start, |s|), 0)
    ensures RelativeIndex(start, |s|) + |r| <= |s| && r == s[RelativeIndex(start, |s|)..RelativeIndex(start, |s|) + |r|]
    ensures 0 <= start <= end <= |s| ==> r == s[start..end]
    ensures 0 <= end <= start ==> r == []
    ensures |r| <= |s|
  {
    var lo, hi := RelativeIndex(start, |s|), RelativeIndex(end, |s|);
    if lo < hi then s[lo..hi] else []
  }

  /** `s.slice(0, n)`: the first `n` elements, or all of them when there are fewer. */
  function Take<T>(s: seq<T>, n: int): (r: seq<T>)
    ensures 0 <= n ==> r == s[..Min(n, |s|)]
    ensures 0 <= n ==> |r| == Min(n, |s|)
  {
    Slice(s, 0, n)
  }

  // ---------------------------------------------------------------- sort

  /** `cmp` is usable as a sort comparator: swapping the arguments negates
      the result, and "no later than" (`cmp(a, b) <= 0`) is transitive. */
  ghost predicate Consistent<T(!new)>(cmp: (T, T) -> int)
  {
    && (forall a, b :: cmp(a, b) == -cmp(b, a))
    && (forall a, b, c :: cmp(a, b) <= 0 && cmp(b, c) <= 0 ==> cmp(a, c) <= 0)
  }

  /** No element of `s` sorts after a later one. */
  ghost predicate SortedBy<T>(s: seq<T>, cmp: (T, T) -> int)
  {
    forall i, j :: 0 <= i < j < |s| ==> cmp(s[i], s[j]) <= 0
  }

  /** `s` is in order by `primary`, and pairs that tie on `primary` are in
      order by `secondary`. */
  ghost predicate SortedThenBy<T>(s: seq<T>, primary: (T, T) -> int, secondary: (T, T) -> int)
  {
    forall i, j :: 0 <= i < j < |s| ==>
      primary(s[i], s[j]) <= 0 && (primary(s[i], s[j]) == 0 ==> secondary(s[i], s[j]) <= 0)
  }

  /** Puts `x` in front of the first element it sorts no later than. */
  function Insert<T>(x: T, s: seq<T>, cmp: (T, T) -> int): (r: seq<T>)
    ensures |r| == |s| + 1
    ensures multiset(r) == multiset(s) + multiset{x}
  {
    if s == [] then [x]
    else if cmp(x, s[0]) <= 0 then [x] + s
    else
      assert s == [s[0]] + s[1..];
      [s[0]] + Insert(x, s[1..], cmp)
  }

  /** `Array.prototype.sort(cmp)` as ECMAScript 2019 specifies it: a stable
      sort, here an insertion sort. The result is a permutation of `s`. */
  function SortBy<T>(s: seq<T>, cmp: (T, T) -> int): (r: seq<T>)
    ensures |r| == |s|
    ensures multiset(r) == multiset(s)
  {
    if s == [] then []
    else
      assert s == [s[0]] + s[1..];
      Insert(s[0], SortBy(s[1..], cmp), cmp)
  }

  /** An element of `t` is either `x` or an element of `s` after index 0. */
  lemma InsertMember<T>(x: T, s: seq<T>, cmp: (T, T) -> int, y: T)
    requires s != [] && y in Insert(x, s[1..], cmp)
    ensures y == x || exists k :: 0 < k < |s| && s[k] == y
  {
    assert y in multiset(Insert(x, s[1..], cmp));
    if y != x {
      assert y in multiset(s[1..]);
      var k :| 0 <= k < |s[1..]| && s[1..][k] == y;
      assert s[k + 1] == y;
    }
  }

  lemma PrependSortedThenBy<T>(x: T, s: seq<T>, primary: (T, T) -> int, secondary: (T, T) -> int)
    requires SortedThenBy(s, primary, secondary)
    requires forall y :: y in s ==>
      primary(x, y) <= 0 && (primary(x, y) == 0 ==> secondary(x, y) <= 0)
    ensures SortedThenBy([x] + s, primary, secondary)
  {
    var r := [x] + s;
    forall i, j | 0 <= i < j < |r|
      ensures primary(r[i], r[j]) <= 0 && (primary(r[i], r[j]) == 0 ==> secondary(r[i], r[j]) <= 0)
    {
      if i == 0 {
        assert r[j] == s[j - 1] && s[j - 1] in s;
      } else {
        assert r[i] == s[i - 1] && r[j] == s[j - 1];
      }
    }
  }

  lemma InsertSortedThenByFront<T(!new)>(x: T, s: seq<T>, primary: (T, T) -> int, secondary: (T, T) -> int)
    requires Consistent(primary)
    requires SortedThenBy(s, primary, secondary)
    requires forall y :: y in s ==> secondary(x, y) <= 0
    requires s != [] && primary(x, s[0]) <= 0
    ensures SortedThenBy([x] + s, primary, secondary)
  {
    forall y | y in s ensures primary(x, y) <= 0 {
      var k :| 0 <= k < |s| && s[k] == y;
      if k > 0 {
        assert primary(s[0], s[k]) <= 0;
      }
    }
    PrependSortedThenBy(x, s, primary, secondary);
  }

  lemma {:induction false} InsertSortedThenBy<T(!new)>(x: T, s: seq<T>, primary: (T, T) -> int, secondary: (T, T) -> int)
    requires Consistent(primary)
    requires SortedThenBy(s, primary, secondary)
    requires forall y :: y in s ==> secondary(x, y) <= 0
    ensures SortedThenBy(Insert(x, s, primary), primary, secondary)
  {
    if s == [] {
    } else if primary(x, s[0]) <= 0 {
      InsertSortedThenByFront(x, s, primary, secondary);
    } else {
      var t := Insert(x, s[1..], primary);
      assert SortedThenBy(s[1..], primary, secondary);
      InsertSortedThenBy(x, s[1..], primary, secondary);
      forall y | y in t
        ensures primary(s[0], y) <= 0 && (primary(s[0], y) == 0 ==> secondary(s[0], y) <= 0)
      {
        InsertMember(x, s, primary, y);
        if y == x {
          assert primary(s[0], x) == -primary(x, s[0]);
        }
      }
      PrependSortedThenBy(s[0], t, primary, secondary);
    }
  }

  /** Stability at work: sorting by `primary` a sequence already in order by
      `secondary` leaves pairs that tie on `primary` in their `secondary` order. */
  lemma {:induction false} SortByKeepsTiesInOrder<T(!new)>(s: seq<T>, primary: (T, T) -> int, secondary: (T, T) -> int)
    requires Consistent(primary)
    requires SortedBy(s, secondary)
    ensures SortedThenBy(SortBy(s, primary), primary, secondary)
  {
    if s != [] {
      assert SortedBy(s[1..], secondary);
      SortByKeepsTiesInOrder(s[1..], primary, secondary);
      var t := SortBy(s[1..], primary);
      forall y | y in t ensures secondary(s[0], y) <= 0 {
        assert y in multiset(t);
        var k :| 0 <= k < |s[1..]| && s[1..][k] == y;
        assert s[k + 1] == y;
      }
      InsertSortedThenBy(s[0], t, primary, secondary);
    }
  }

  /** With a consistent comparator the sort's output is in order. */
  lemma SortBySorted<T(!new)>(s: seq<T>, cmp: (T, T) -> int)
    requires Consistent(cmp)
    ensures SortedBy(SortBy(s, cmp), cmp)
  {
    var tie := (a: T, b: T) => 0;
    SortByKeepsTiesInOrder(s, cmp, tie);
  }

  /** Sorting what is already in order changes nothing: the sort is stable,
      so in particular a comparator that reports every pair as a tie keeps
      the input order. */
  lemma {:induction false} SortByOfSorted<T>(s: seq<T>, cmp: (T, T) -> int)
    requires SortedBy(s, cmp)
    ensures SortBy(s, cmp) == s
  {
    if s != [] {
      assert SortedBy(s[1..], cmp);
      SortByOfSorted(s[1..], cmp);
      assert s == [s[0]] + s[1..];
    }
  }

  /** A run of consecutive elements of an ordered sequence is in order. */
  lemma SortedBySlice<T>(s: seq<T>, lo: int, hi: int, cmp: (T, T) -> int)
    requires 0 <= lo <= hi <= |s| && SortedBy(s, cmp)
    ensures SortedBy(s[lo..hi], cmp)
  {
    forall i, j | 0 <= i < j < hi - lo
      ensures cmp(s[lo..hi][i], s[lo..hi][j]) <= 0
    {
      assert s[lo..hi][i] == s[lo + i] && s[lo..hi][j] == s[lo + j];
    }
  }

  /** A slice of an ordered sequence is in order. */
  lemma SliceSorted<T>(s: seq<T>, start: int, end: int, cmp: (T, T) -> int)
    requires SortedBy(s, cmp)
    ensures SortedBy(Slice(s, start, end), cmp)
  {
    var lo := RelativeIndex(start, |s|);
    SortedBySlice(s, lo, lo + |Slice(s, start, end)|, cmp);
  }

  /** A prefix takes no element more often than the sequence holds it. */
  lemma TakeIsSubMultiset<T>(s: seq<T>, n: int)
    requires 0 <= n
    ensures multiset(Take(s, n)) <= multiset(s)
  {
    var k := Min(n, |s|);
    assert s == s[..k] + s[k..];
  }
}
