/**
 * Order-preserving filtering (`Array.prototype.filter`), subsequences and
 * occurrence counts, shared by every list screen of the dashboard.
 */
module Sequences {

  /** `s.filter(p)`: the elements satisfying `p`, in their original order. */
  function Filter<T>(s: seq<T>, p: T -> bool): (r: seq<T>)
    ensures |r| <= |s|
    ensures forall x :: x in r ==> x in s && p(x)
    ensures forall x :: x in s && p(x) ==> x in r
  {
    if s == [] then [] else (if p(s[0]) then [s[0]] else []) + Filter(s[1..], p)
  }

  /** `r` is obtained from `s` by deleting elements, without reordering the rest. */
  predicate IsSubsequence<T(==)>(r: seq<T>, s: seq<T>)
    decreases |s|
  {
    r == [] || (s != [] && if r[0] == s[0] then IsSubsequence(r[1..], s[1..]) else IsSubsequence(r, s[1..]))
  }

  lemma {:induction false} EmptyIsSubsequence<T>(s: seq<T>)
    ensures IsSubsequence([], s)
  {
  }

  /** Filtering keeps the surviving elements in their original relative order. */
  lemma {:induction false} FilterIsSubsequence<T>(s: seq<T>, p: T -> bool)
    ensures IsSubsequence(Filter(s, p), s)
    decreases |s|
  {
    if s != [] {
      FilterIsSubsequence(s[1..], p);
      var r := Filter(s, p);
      if p(s[0]) {
        assert r[0] == s[0] && r[1..] == Filter(s[1..], p);
      } else {
        assert r == Filter(s[1..], p);
        SkipHeadIsSubsequence(r, s);
      }
    }
  }

  /** A subsequence of the tail is a subsequence of the whole. */
  lemma {:induction false} SkipHeadIsSubsequence<T>(r: seq<T>, s: seq<T>)
    requires s != [] && IsSubsequence(r, s[1..])
    ensures IsSubsequence(r, s)
    decreases |s|, 0
  {
    if r != [] && r[0] == s[0] {
      // r[1..] is a subsequence of s[1..] because r is.
      SubsequenceTail(r, s[1..]);
    }
  }

  /** Dropping the first element of a subsequence keeps it a subsequence. */
  lemma {:induction false} SubsequenceTail<T>(r: seq<T>, s: seq<T>)
    requires r != [] && IsSubsequence(r, s)
    ensures IsSubsequence(r[1..], s)
    decreases |s|, 1
  {
    if r[0] == s[0] {
      if r[1..] != [] {
        SkipHeadIsSubsequence(r[1..], s);
      }
    } else {
      SubsequenceTail(r, s[1..]);
      if r[1..] != [] {
        SkipHeadIsSubsequence(r[1..], s);
      }
    }
  }

  /** A filter that every element passes returns the input unchanged. */
  lemma {:induction false} FilterKeepsAll<T>(s: seq<T>, p: T -> bool)
    requires forall x :: x in s ==> p(x)
    ensures Filter(s, p) == s
    decreases |s|
  {
    if s != [] {
      FilterKeepsAll(s[1..], p);
      assert [s[0]] + s[1..] == s;
    }
  }

  /** Filtering one more element extends the result by that element when it passes. */
  lemma {:induction false} FilterAppend<T>(s: seq<T>, x: T, p: T -> bool)
    ensures Filter(s + [x], p) == Filter(s, p) + (if p(x) then [x] else [])
    decreases |s|
  {
    if s == [] {
      assert [x][1..] == [];
    } else {
      assert (s + [x])[1..] == s[1..] + [x];
      FilterAppend(s[1..], x, p);
    }
  }

  /** Number of occurrences of `x` in `s`. */
  function Count<T(==)>(s: seq<T>, x: T): nat {
    if s == [] then 0 else (if s[0] == x then 1 else 0) + Count(s[1..], x)
  }

  lemma {:induction false} CountAppend<T>(s: seq<T>, t: seq<T>, x: T)
    ensures Count(s + t, x) == Count(s, x) + Count(t, x)
    decreases |s|
  {
    if s != [] {
      assert (s + t)[0] == s[0] && (s + t)[1..] == s[1..] + t;
      CountAppend(s[1..], t, x);
    } else {
      assert s + t == t;
    }
  }

  lemma {:induction false} CountPositiveIffIn<T>(s: seq<T>, x: T)
    ensures Count(s, x) > 0 <==> x in s
    decreases |s|
  {
    if s != [] {
      CountPositiveIffIn(s[1..], x);
      assert s == [s[0]] + s[1..];
    }
  }

  /** Filtering keeps every occurrence of a passing value and none of a failing one. */
  lemma {:induction false} CountFilter<T>(s: seq<T>, p: T -> bool, x: T)
    ensures Count(Filter(s, p), x) == if p(x) then Count(s, x) else 0
    decreases |s|
  {
    if s != [] {
      CountFilter(s[1..], p, x);
      CountAppend(if p(s[0]) then [s[0]] else [], Filter(s[1..], p), x);
    }
  }

  /** `s.filter(y => y !== v)`: every occurrence of `v` removed. */
  function RemoveAll<T(==)>(s: seq<T>, v: T): (r: seq<T>)
    ensures v !in r
    ensures forall y :: y in r ==> y in s
    ensures forall y :: y in s && y != v ==> y in r
  {
    Filter(s, y => y != v)
  }

  lemma RemoveAllCounts<T>(s: seq<T>, v: T)
    ensures Count(RemoveAll(s, v), v) == 0
    ensures forall y :: y != v ==> Count(RemoveAll(s, v), y) == Count(s, y)
    ensures IsSubsequence(RemoveAll(s, v), s)
  {
    forall y ensures Count(RemoveAll(s, v), y) == if y != v then Count(s, y) else 0 {
      CountFilter(s, y => y != v, y);
    }
    FilterIsSubsequence(s, y => y != v);
  }

  /** Filtering twice with the same predicate is filtering once. */
  lemma FilterIdempotent<T>(s: seq<T>, p: T -> bool)
    ensures Filter(Filter(s, p), p) == Filter(s, p)
  {
    FilterKeepsAll(Filter(s, p), p);
  }

  /**
   * A checkbox's `onChange` on a list of selected values: checking appends
   * `v`, unchecking removes every occurrence of `v`.
   */
  function Toggle<T(==,!new)>(list: seq<T>, v: T, checked: bool): (r: seq<T>)
    ensures checked ==> |r| == |list| + 1 && r[..|list|] == list
    ensures v in r <==> checked
    ensures Count(r, v) == if checked then Count(list, v) + 1 else 0
    ensures forall y :: y != v ==> Count(r, y) == Count(list, y)
  {
    if checked then
      CountAppend(list, [v], v);
      assert forall y :: Count([v], y) == if y == v then 1 else 0;
      CountAppendAll(list, [v]);
      assert (list + [v])[..|list|] == list;
      list + [v]
    else
      RemoveAllCounts(list, v);
      RemoveAll(list, v)
  }

  lemma CountAppendAll<T(!new)>(s: seq<T>, t: seq<T>)
    ensures forall y :: Count(s + t, y) == Count(s, y) + Count(t, y)
  {
    forall y ensures Count(s + t, y) == Count(s, y) + Count(t, y) {
      CountAppend(s, t, y);
    }
  }

  /** Checking and then unchecking a value leaves no occurrence of it and every other value as it was. */
  lemma CheckThenUncheck<T(!new)>(list: seq<T>, v: T)
    ensures Toggle(Toggle(list, v, true), v, false) == RemoveAll(list, v)
  {
    FilterAppend(list, v, y => y != v);
  }
}
