/** The pagination both table carousels share: the page count `ceil(N/P)`,
    the window `slice(p*P, p*P+P)` of one page, the wrap-around of the page
    index, and the split of a page's items into two columns. */
module Paging {

  function Min(a: int, b: int): int {
    if a <= b then a else b
  }

  /** `Math.ceil(n / d)` for a positive divisor. */
  function CeilDiv(n: nat, d: nat): (r: nat)
    requires d > 0
    ensures n <= r * d
    ensures r == 0 || (r - 1) * d < n
    ensures r == 0 <==> n == 0
  {
    var r := (n + d - 1) / d;
    assert (n + d - 1) == r * d + (n + d - 1) % d;
    r
  }

  /** Every page below the count starts inside the sequence. */
  lemma PageStartInRange(n: nat, size: nat, p: nat)
    requires size > 0 && p < CeilDiv(n, size)
    ensures p * size < n
  {
    var r := CeilDiv(n, size);
    var gap := r - 1 - p;
    assert (r - 1) * size == p * size + gap * size;
    assert gap * size >= 0;
  }

  /** `s.slice(p * size, p * size + size)`: JavaScript clamps both ends to the length. */
  function Window<T>(s: seq<T>, p: nat, size: nat): (r: seq<T>)
    ensures |r| <= size
  {
    s[Min(p * size, |s|)..Min(p * size + size, |s|)]
  }

  /** The index that follows page `p` when there are `total` pages:
      `p + 1`, or back to 0 once that reaches `total`. */
  function NextPage(p: nat, total: nat): (r: nat)
    ensures r < total || (r == 0 && total == 0)
  {
    if p + 1 >= total then 0 else p + 1
  }

  /** The page index after `k` advances from `p`. */
  function Advance(p: nat, total: nat, k: nat): nat {
    if k == 0 then p else NextPage(Advance(p, total, k - 1), total)
  }

  /** Advancing `a + b` times is advancing `a` times, then `b` times. */
  lemma {:induction false} AdvanceSplit(p: nat, total: nat, a: nat, b: nat)
    ensures Advance(p, total, a + b) == Advance(Advance(p, total, a), total, b)
  {
    if b > 0 {
      AdvanceSplit(p, total, a, b - 1);
    }
  }

  /** Before the wrap, each advance moves to the next page. */
  lemma {:induction false} AdvanceBeforeWrap(p: nat, total: nat, k: nat)
    requires p + k < total
    ensures Advance(p, total, k) == p + k
  {
    if k > 0 {
      AdvanceBeforeWrap(p, total, k - 1);
    }
  }

  /** From a valid page the index stays valid, whatever the number of advances. */
  lemma {:induction false} AdvanceInRange(p: nat, total: nat, k: nat)
    requires p < total
    ensures Advance(p, total, k) < total
  {
    if k > 0 {
      AdvanceInRange(p, total, k - 1);
    }
  }

  /** Pages are visited in order `p, p+1, ..., total-1, 0, 1, ...`: after
      as many advances as there are pages, the carousel is back where it started. */
  lemma FullCycleReturns(p: nat, total: nat)
    requires p < total
    ensures Advance(p, total, total) == p
  {
    var toLast := total - 1 - p;
    AdvanceBeforeWrap(p, total, toLast);
    AdvanceSplit(p, total, toLast, 1);
    assert Advance(p, total, toLast + 1) == 0;
    AdvanceSplit(p, total, toLast + 1, p);
    if p > 0 {
      AdvanceBeforeWrap(0, total, p);
    }
  }

  /** The first `count` pages laid end to end. */
  function Pages<T>(s: seq<T>, size: nat, count: nat): seq<T> {
    if count == 0 then [] else Pages(s, size, count - 1) + Window(s, count - 1, size)
  }

  lemma {:induction false} PagesArePrefix<T>(s: seq<T>, size: nat, count: nat)
    ensures Pages(s, size, count) == s[..Min(count * size, |s|)]
  {
    if count > 0 {
      PagesArePrefix(s, size, count - 1);
      var before := (count - 1) * size;
      assert before + size == count * size;
      var a, b := Min(before, |s|), Min(before + size, |s|);
      assert Window(s, count - 1, size) == s[a..b];
      assert s[..a] + s[a..b] == s[..b];
    }
  }

  /** The `ceil(N/size)` pages together show every item exactly once, in order. */
  lemma PagesCover<T>(s: seq<T>, size: nat)
    requires size > 0
    ensures Pages(s, size, CeilDiv(|s|, size)) == s
  {
    PagesArePrefix(s, size, CeilDiv(|s|, size));
  }

  /** The `forEach` that sends the items at index below `perColumn` to the
      first column and the rest to the second. */
  method SplitColumns<T>(items: seq<T>, perColumn: nat) returns (left: seq<T>, right: seq<T>)
    ensures left == items[..Min(perColumn, |items|)]
    ensures right == items[Min(perColumn, |items|)..]
    ensures |left| <= perColumn
  {
    left, right := [], [];
    var index := 0;
    while index < |items|
      invariant 0 <= index <= |items|
      invariant left == items[..Min(perColumn, index)]
      invariant right == items[Min(perColumn, index)..index]
    {
      if index < perColumn {
        left := left + [items[index]];
      } else {
        right := right + [items[index]];
      }
      index := index + 1;
    }
  }
}
