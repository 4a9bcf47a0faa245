/** Order-preserving filtering and a stable sort.

    Two orderings in the system are modelled with `SortBy`: Python's
    `list.sort(key=...)`, which is stable, and the database's
    `ORDER BY nome`. The sort is an insertion sort that puts each new element
    after every element it does not precede, so elements that compare equal
    keep their input order. */
module Sorting {

  /** The elements of `s` that satisfy `p`, in their order in `s`. */
  function Filter<T(!new)>(s: seq<T>, p: T -> bool): (r: seq<T>)
    ensures |r| <= |s|
    ensures forall i :: 0 <= i < |r| ==> p(r[i])
  {
    if s == [] then [] else Filter(s[..|s| - 1], p) + (if p(s[|s| - 1]) then [s[|s| - 1]] else [])
  }

  /** An element survives filtering exactly when it is in `s` and satisfies `p`. */
  lemma {:induction false} FilterMember<T(!new)>(s: seq<T>, p: T -> bool, x: T)
    ensures x in Filter(s, p) <==> x in s && p(x)
    decreases |s|
  {
    if s != [] {
      FilterMember(s[..|s| - 1], p, x);
      assert s == s[..|s| - 1] + [s[|s| - 1]];
    }
  }

  /** Filtering a concatenation filters each part. */
  lemma {:induction false} FilterAppend<T(!new)>(a: seq<T>, b: seq<T>, p: T -> bool)
    ensures Filter(a + b, p) == Filter(a, p) + Filter(b, p)
    decreases |b|
  {
    if b == [] {
      assert a + b == a;
    } else {
      var ab, b', last := a + b, b[..|b| - 1], b[|b| - 1];
      assert ab[..|ab| - 1] == a + b';
      assert ab[|ab| - 1] == last;
      var tail := if p(last) then [last] else [];
      calc {
        Filter(ab, p);
        Filter(a + b', p) + tail;
        { FilterAppend(a, b', p); }
        Filter(a, p) + Filter(b', p) + tail;
        Filter(a, p) + (Filter(b', p) + tail);
      }
    }
  }

  /** `le` relates every pair of values one way or the other. */
  ghost predicate Total<T(!new)>(le: (T, T) -> bool) {
    forall a, b :: le(a, b) || le(b, a)
  }

  /** Every two values that `p` selects are related by `le` (both ways, by
      symmetry of the quantifier): `p` picks out values that the order
      cannot tell apart, such as the items with one given sort key. */
  ghost predicate Indistinct<T(!new)>(le: (T, T) -> bool, p: T -> bool) {
    forall a, b :: p(a) && p(b) ==> le(a, b)
  }

  /** Neighbouring elements are in order. */
  predicate SortedBy<T(!new)>(s: seq<T>, le: (T, T) -> bool) {
    forall i :: 0 < i < |s| ==> le(s[i - 1], s[i])
  }

  /** Inserts `x` after the longest tail of `s` whose elements `x` does not follow. */
  function InsertBy<T(!new)>(x: T, s: seq<T>, le: (T, T) -> bool): (r: seq<T>)
    ensures |r| == |s| + 1
    ensures multiset(r) == multiset(s) + multiset{x}
  {
    if s == [] || le(s[|s| - 1], x) then s + [x]
    else
      assert s == s[..|s| - 1] + [s[|s| - 1]];
      InsertBy(x, s[..|s| - 1], le) + [s[|s| - 1]]
  }

  /** Stable sort of `s` by `le`. */
  function SortBy<T(!new)>(s: seq<T>, le: (T, T) -> bool): (r: seq<T>)
    ensures |r| == |s|
    ensures multiset(r) == multiset(s)
  {
    if s == [] then []
    else
      assert s == s[..|s| - 1] + [s[|s| - 1]];
      InsertBy(s[|s| - 1], SortBy(s[..|s| - 1], le), le)
  }

  lemma {:induction false} InsertBySorted<T(!new)>(x: T, s: seq<T>, le: (T, T) -> bool)
    requires Total(le)
    requires SortedBy(s, le)
    ensures SortedBy(InsertBy(x, s, le), le)
    ensures var r := InsertBy(x, s, le); r[|r| - 1] == x || (s != [] && r[|r| - 1] == s[|s| - 1])
    decreases |s|
  {
    if s == [] || le(s[|s| - 1], x) {
    } else {
      var t := s[..|s| - 1];
      InsertBySorted(x, t, le);
      var r' := InsertBy(x, t, le);
      assert le(x, s[|s| - 1]);
      assert t != [] ==> le(t[|t| - 1], s[|s| - 1]);
    }
  }

  /** With a total order the sort's output is in order. */
  lemma {:induction false} SortBySorted<T(!new)>(s: seq<T>, le: (T, T) -> bool)
    requires Total(le)
    ensures SortedBy(SortBy(s, le), le)
    decreases |s|
  {
    if s != [] {
      SortBySorted(s[..|s| - 1], le);
      InsertBySorted(s[|s| - 1], SortBy(s[..|s| - 1], le), le);
    }
  }

  lemma {:induction false} InsertByStable<T(!new)>(x: T, s: seq<T>, le: (T, T) -> bool, p: T -> bool)
    requires Indistinct(le, p)
    ensures Filter(InsertBy(x, s, le), p) == Filter(s, p) + Filter([x], p)
    decreases |s|
  {
    if s == [] || le(s[|s| - 1], x) {
      FilterAppend(s, [x], p);
    } else {
      var t, last := s[..|s| - 1], s[|s| - 1];
      assert s == t + [last];
      InsertByStable(x, t, le, p);
      FilterAppend(InsertBy(x, t, le), [last], p);
      FilterAppend(t, [last], p);
      assert !(p(x) && p(last));
    }
  }

  /** Stability: among the elements `p` selects, which the order cannot
      tell apart, the sort keeps the input order. */
  lemma {:induction false} SortByStable<T(!new)>(s: seq<T>, le: (T, T) -> bool, p: T -> bool)
    requires Indistinct(le, p)
    ensures Filter(SortBy(s, le), p) == Filter(s, p)
    decreases |s|
  {
    if s != [] {
      var t, last := s[..|s| - 1], s[|s| - 1];
      assert s == t + [last];
      SortByStable(t, le, p);
      InsertByStable(last, SortBy(t, le), le, p);
      FilterAppend(t, [last], p);
    }
  }
}
