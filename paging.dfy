/**
 * Page arithmetic of list.go: how `ResetPages` cuts a list of n rows into
 * pages of a fixed viewport height, and the circular page indices used by the
 * navigation methods.
 */
module Paging {

  /** A half-open window [offset, offset + limit) over the rows of a list. */
  datatype Page = Page(offset: int, limit: int)

  /**
   * The pages `ResetPages` appends once its loop variable has reached
   * `offset`: each step has limit h, except a step that would run past n,
   * whose limit is `n % h`.
   */
  function PagesFrom(offset: int, n: int, h: int): (r: seq<Page>)
    requires h > 0
    ensures r == [] <==> offset >= n
    decreases n - offset
  {
    if offset >= n then []
    else [Page(offset, if offset + h > n then n % h else h)] + PagesFrom(offset + h, n, h)
  }

  /** The pages of a list of n rows shown h rows at a time. */
  function Pages(n: nat, h: int): (r: seq<Page>)
    requires h > 0
    ensures r == [] <==> n == 0
  {
    PagesFrom(0, n, h)
  }

  /**
   * `ps` tiles [start, n): contiguous pages of height h, none empty, only the
   * last one possibly short, and none at all when the range is empty.
   */
  ghost predicate Tiles(ps: seq<Page>, start: int, n: int, h: int) {
    && (ps == [] <==> n <= start)
    && (ps != [] ==> ps[0].offset == start && ps[|ps| - 1].offset + ps[|ps| - 1].limit == n)
    && (forall i :: 0 <= i < |ps| ==> 0 < ps[i].limit <= h)
    && (forall i :: 0 <= i < |ps| - 1 ==> ps[i].limit == h && ps[i + 1].offset == ps[i].offset + h)
  }

  lemma MulMono(a: int, b: int, h: int)
    requires a <= b && h >= 0
    ensures a * h <= b * h
  {
    assert b * h - a * h == (b - a) * h;
  }

  /** A value between two consecutive multiples of h has the expected quotient and remainder. */
  lemma DivModBetween(n: int, k: int, h: int)
    requires h > 0 && 0 <= k && k * h <= n < k * h + h
    ensures n % h == n - k * h && n / h == k
  {
    var q, r := n / h, n % h;
    assert n == q * h + r && 0 <= r < h;
    assert (k + 1) * h == k * h + h;
    assert (k - 1) * h == k * h - h;
    if q > k {
      MulMono(k + 1, q, h);
      assert false;
    } else if q < k {
      MulMono(q, k - 1, h);
      assert false;
    }
  }

  lemma {:induction false} PagesFromTiles(k: nat, n: nat, h: int)
    requires h > 0
    ensures Tiles(PagesFrom(k * h, n, h), k * h, n, h)
    decreases n - k * h
  {
    var off := k * h;
    if off < n {
      assert off + h == (k + 1) * h;
      var rest := PagesFrom(off + h, n, h);
      var lim := if off + h > n then n % h else h;
      assert PagesFrom(off, n, h) == [Page(off, lim)] + rest;
      if off + h > n {
        DivModBetween(n, k, h);
        assert rest == [];
      } else {
        PagesFromTiles(k + 1, n, h);
        assert rest != [] ==> rest[0].offset == off + h;
      }
    }
  }

  /**
   * ResetPages partitions [0, n): the pages are contiguous, start at 0, end at
   * n, hold between 1 and h rows each, and only the last one may be short, so
   * a length divisible by h leaves no trailing empty page.
   */
  lemma PagesPartition(n: nat, h: int)
    requires h > 0
    ensures Tiles(Pages(n, h), 0, n, h)
  {
    PagesFromTiles(0, n, h);
  }

  /** Every page of a tiling starts at or after `start`. */
  lemma {:induction false} TilesAbove(ps: seq<Page>, start: int, n: int, h: int, i: int)
    requires Tiles(ps, start, n, h) && 0 <= i < |ps|
    ensures start <= ps[i].offset
  {
    if i > 0 {
      TilesAbove(ps, start, n, h, i - 1);
    }
  }

  /** Every page of a tiling ends at or before n. */
  lemma {:induction false} TilesBelow(ps: seq<Page>, start: int, n: int, h: int, i: int)
    requires Tiles(ps, start, n, h) && 0 <= i < |ps|
    ensures ps[i].offset + ps[i].limit <= n
    decreases |ps| - i
  {
    if i < |ps| - 1 {
      TilesBelow(ps, start, n, h, i + 1);
    }
  }

  /** Page i of a tiling of [0, n) begins at row i * h. */
  lemma {:induction false} TilesOffset(ps: seq<Page>, n: int, h: int, i: int)
    requires Tiles(ps, 0, n, h) && 0 <= i < |ps|
    ensures ps[i].offset == i * h
  {
    if i > 0 {
      TilesOffset(ps, n, h, i - 1);
      assert (i - 1) * h + h == i * h;
    }
  }

  function SumLimits(ps: seq<Page>): int {
    if ps == [] then 0 else ps[0].limit + SumLimits(ps[1..])
  }

  /** The limits of a tiling of [start, n) add up to the length of the range. */
  lemma {:induction false} TilesSum(ps: seq<Page>, start: int, n: int, h: int)
    requires Tiles(ps, start, n, h)
    ensures SumLimits(ps) == if n <= start then 0 else n - start
    decreases |ps|
  {
    if |ps| > 1 {
      TilesBelow(ps, start, n, h, 1);
      assert Tiles(ps[1..], start + h, n, h) by {
        assert ps[1..][0] == ps[1];
      }
      TilesSum(ps[1..], start + h, n, h);
    }
  }

  /** Quotient and remainder of a value below c * h. */
  lemma DivBelow(j: int, h: int, c: int)
    requires h > 0 && 0 <= j < c * h
    ensures 0 <= j / h < c && j == (j / h) * h + j % h && 0 <= j % h < h
  {
    var q := j / h;
    assert j == q * h + j % h;
    if q < 0 {
      MulMono(q, -1, h);
      assert false;
    } else if q >= c {
      MulMono(c, q, h);
      assert false;
    }
  }

  /** The last page of a non-empty list starts at the last multiple of h below n. */
  lemma LastPage(n: nat, h: int)
    requires h > 0 && n > 0
    ensures var ps := Pages(n, h); var m := |ps| - 1;
      |ps| > 0 && ps[m].offset == m * h && m * h < n <= m * h + h
  {
    var ps := Pages(n, h);
    PagesPartition(n, h);
    TilesOffset(ps, n, h, |ps| - 1);
  }

  /** ResetPages produces ceil(n / h) pages. */
  lemma PagesCount(n: nat, h: int)
    requires h > 0
    ensures |Pages(n, h)| == (n + h - 1) / h
  {
    if n == 0 {
      DivModBetween(h - 1, 0, h);
    } else {
      LastPage(n, h);
      var m := |Pages(n, h)| - 1;
      assert (m + 1) * h == m * h + h;
      DivModBetween(n + h - 1, m + 1, h);
    }
  }

  /** The limits of the pages add up to exactly n. */
  lemma PagesSum(n: nat, h: int)
    requires h > 0
    ensures SumLimits(Pages(n, h)) == n
  {
    PagesPartition(n, h);
    TilesSum(Pages(n, h), 0, n, h);
  }

  /** Page i is {i * h, min(h, n - i * h)}. */
  lemma PageAt(n: nat, h: int, i: int)
    requires h > 0 && 0 <= i < |Pages(n, h)|
    ensures Pages(n, h)[i] == Page(i * h, if n - i * h < h then n - i * h else h)
  {
    var ps := Pages(n, h);
    PagesPartition(n, h);
    TilesOffset(ps, n, h, i);
    if i < |ps| - 1 {
      TilesBelow(ps, 0, n, h, i + 1);
      TilesOffset(ps, n, h, i + 1);
      assert (i + 1) * h == i * h + h;
    }
  }

  /** Row j of the list sits on page j / h at row j % h of that page. */
  lemma PagesLocate(n: nat, h: int, j: int)
    requires h > 0 && 0 <= j < n
    ensures j / h < |Pages(n, h)|
    ensures Pages(n, h)[j / h].offset + j % h == j
    ensures j % h < Pages(n, h)[j / h].limit
  {
    var ps := Pages(n, h);
    LastPage(n, h);
    var m := |ps| - 1;
    assert (m + 1) * h == m * h + h;
    DivBelow(j, h, m + 1);
    var q := j / h;
    PageAt(n, h, q);
  }

  /** `nextPageIdx`: the page after `index`, circularly over `count` pages. */
  function NextPageIdx(index: int, count: int): (r: int)
    requires 0 <= index < count
    ensures 0 <= r < count
    ensures r == index + 1 || (index == count - 1 && r == 0)
  {
    (index + 1) % count
  }

  /**
   * `prevPageIdx`: the page before `index`, circularly. Go's `%` truncates
   * toward zero; its operand here is never negative, where it agrees with
   * Dafny's.
   */
  function PrevPageIdx(index: int, count: int): (r: int)
    requires 0 <= index < count
    ensures 0 <= r < count
    ensures r == index - 1 || (index == 0 && r == count - 1)
  {
    if index == 0 then count - 1 else (index - 1) % count
  }

  /** Going forward then back, or back then forward, returns to the same page. */
  lemma NextPrevInverse(index: int, count: int)
    requires 0 <= index < count
    ensures PrevPageIdx(NextPageIdx(index, count), count) == index
    ensures NextPageIdx(PrevPageIdx(index, count), count) == index
  {
  }
}
