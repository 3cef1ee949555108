/** What the paged list promises, and where list.go falls short of it. */
module ListProperties {
  import opened Paging
  import opened PagedList
  import opened Strings

  /** With the cursor on its page, the row index fixes both the page (index / height) and the row on it. */
  lemma PosPlace(s: ListState)
    requires Consistent(s) && |s.items| > 0 && CursorOnPage(s)
    ensures 0 <= Pos(s) < |s.items|
    ensures s.pageIndex == Pos(s) / s.height && s.cursorY == Pos(s) % s.height
  {
    PageFacts(s, s.pageIndex);
    DivModBetween(Pos(s), s.pageIndex, s.height);
  }

  /**
   * The intended `MoveDown` walks the rows circularly: the next row of the
   * whole list, wrapping from the last row to the first, and the cursor stays
   * on its page.
   */
  lemma MoveDownFixedCircular(s: ListState)
    requires Consistent(s) && |s.items| > 0 && CursorOnPage(s)
    ensures Consistent(MoveDownFixedStep(s)) && CursorOnPage(MoveDownFixedStep(s))
    ensures Pos(MoveDownFixedStep(s)) == Succ(Pos(s), |s.items|)
  {
    var n, p := |s.items|, s.pageIndex;
    PagesPartition(n, s.height);
    PageFacts(s, p);
    if s.cursorY == s.pages[p].limit - 1 && |s.pages| > 1 {
      var q := NextPageIdx(p, |s.pages|);
      PageFacts(s, q);
    }
  }

  /** The intended `MoveUp` walks the rows circularly backwards. */
  lemma MoveUpFixedCircular(s: ListState)
    requires Consistent(s) && |s.items| > 0 && CursorOnPage(s)
    ensures Consistent(MoveUpFixedStep(s)) && CursorOnPage(MoveUpFixedStep(s))
    ensures Pos(MoveUpFixedStep(s)) == Pred(Pos(s), |s.items|)
  {
    var n, p := |s.items|, s.pageIndex;
    PagesPartition(n, s.height);
    PageFacts(s, p);
    var q := PrevPageIdx(p, |s.pages|);
    PageFacts(s, q);
    if s.cursorY == 0 && |s.pages| > 1 && p == 0 {
      assert q == |s.pages| - 1;
    }
  }

  /** Two states over the same rows whose cursors are on their pages and on the same row are at the same place. */
  lemma SamePlace(s: ListState, t: ListState)
    requires Consistent(s) && |s.items| > 0 && CursorOnPage(s)
    requires Consistent(t) && t.items == s.items && t.height == s.height && CursorOnPage(t)
    requires Pos(s) == Pos(t)
    ensures s.pageIndex == t.pageIndex && s.cursorY == t.cursorY
  {
    PosPlace(s);
    PosPlace(t);
  }

  /** The intended `MoveUp` undoes the intended `MoveDown`, and the other way round. */
  lemma FixedMovesUndoEachOther(s: ListState)
    requires Consistent(s) && |s.items| > 0 && CursorOnPage(s)
    ensures MoveUpFixedStep(MoveDownFixedStep(s)).pageIndex == s.pageIndex
    ensures MoveUpFixedStep(MoveDownFixedStep(s)).cursorY == s.cursorY
    ensures MoveDownFixedStep(MoveUpFixedStep(s)).pageIndex == s.pageIndex
    ensures MoveDownFixedStep(MoveUpFixedStep(s)).cursorY == s.cursorY
  {
    var n := |s.items|;
    MoveDownFixedCircular(s);
    MoveUpFixedCircular(MoveDownFixedStep(s));
    SamePlace(s, MoveUpFixedStep(MoveDownFixedStep(s)));
    MoveUpFixedCircular(s);
    MoveDownFixedCircular(MoveUpFixedStep(s));
    SamePlace(s, MoveDownFixedStep(MoveUpFixedStep(s)));
  }

  /**
   * `MoveDown` as written agrees with the intended one except on the page
   * change, where it shows the next page but keeps the old cursor row.
   */
  lemma MoveDownAsWritten(s: ListState)
    requires Consistent(s) && |s.items| > 0 && CursorOnPage(s)
    ensures var r := MoveDownStep(s);
      if s.cursorY == s.pages[s.pageIndex].limit - 1 && |s.pages| > 1 then
        r.pageIndex == NextPageIdx(s.pageIndex, |s.pages|) && r.cursorY == s.cursorY
      else
        CursorOnPage(r) && Pos(r) == Succ(Pos(s), |s.items|)
  {
    MoveDownFixedCircular(s);
  }

  /**
   * `MoveUp` as written keeps the cursor on its page, but on a page change it
   * lands on row 0 of the previous page.
   */
  lemma MoveUpAsWritten(s: ListState)
    requires Consistent(s) && |s.items| > 0 && CursorOnPage(s)
    ensures var r := MoveUpStep(s);
      CursorOnPage(r) &&
      if s.cursorY == 0 && |s.pages| > 1 then
        r.pageIndex == PrevPageIdx(s.pageIndex, |s.pages|) && r.cursorY == 0
      else
        Pos(r) == Pred(Pos(s), |s.items|)
  {
    MoveUpFixedCircular(s);
    PageFacts(s, PrevPageIdx(s.pageIndex, |s.pages|));
  }

  /** Seven rows shown three at a time, on page `p`, cursor row `y`. */
  function SevenRows(p: int, y: int): ListState {
    ListState(3, 20, false, "FF", "", "", ["a", "b", "c", "d", "e", "f", "g"], Pages(7, 3), p, y, [])
  }

  lemma SevenRowsPages()
    ensures Pages(7, 3) == [Page(0, 3), Page(3, 3), Page(6, 1)]
  {
    PagesCount(7, 3);
    PageAt(7, 3, 0);
    PageAt(7, 3, 1);
    PageAt(7, 3, 2);
  }

  /**
   * Moving down from the last row of page 1 of seven rows shown three at a
   * time shows page 2, which holds one row, with the cursor on row 2: the
   * cursor is off its page and `CurrentItem` would index past the page.
   */
  lemma MoveDownIntoShortPage()
    ensures Consistent(SevenRows(1, 2)) && CursorOnPage(SevenRows(1, 2))
    ensures MoveDownStep(SevenRows(1, 2)).pageIndex == 2
    ensures MoveDownStep(SevenRows(1, 2)).cursorY == 2
    ensures !CursorOnPage(MoveDownStep(SevenRows(1, 2)))
  {
    SevenRowsPages();
  }

  /** From row 2 of page 0, `MoveDown` as written lands on row 2 of page 1; the intended one on row 0. */
  lemma MoveDownAcrossPages()
    ensures Consistent(SevenRows(0, 2))
    ensures MoveDownStep(SevenRows(0, 2)).pageIndex == 1 && MoveDownStep(SevenRows(0, 2)).cursorY == 2
    ensures MoveDownFixedStep(SevenRows(0, 2)).pageIndex == 1 && MoveDownFixedStep(SevenRows(0, 2)).cursorY == 0
  {
    SevenRowsPages();
  }

  /** From row 0 of page 1, `MoveUp` as written lands on row 0 of page 0; the intended one on row 2. */
  lemma MoveUpAcrossPages()
    ensures Consistent(SevenRows(1, 0))
    ensures MoveUpStep(SevenRows(1, 0)).pageIndex == 0 && MoveUpStep(SevenRows(1, 0)).cursorY == 0
    ensures MoveUpFixedStep(SevenRows(1, 0)).pageIndex == 0 && MoveUpFixedStep(SevenRows(1, 0)).cursorY == 2
  {
    SevenRowsPages();
  }

  /** With a single page, the cursor wraps within it: down from the last row to row 0, up from row 0 to the last row. */
  lemma SinglePageWraps(s: ListState)
    requires Consistent(s) && |s.items| > 0 && |s.pages| == 1 && CursorOnPage(s)
    ensures s.cursorY == s.pages[0].limit - 1 ==> MoveDownStep(s).cursorY == 0 && MoveDownStep(s).pageIndex == 0
    ensures s.cursorY == 0 ==> MoveUpStep(s).cursorY == s.pages[0].limit - 1 && MoveUpStep(s).pageIndex == 0
  {
    PageFacts(s, 0);
  }

  /** `MovePgDown` shows the next page with the cursor on its first row, which is on the page. */
  lemma MovePgDownLands(s: ListState)
    requires Consistent(s) && |s.items| > 0
    ensures var r := MovePgDownStep(s); var q := NextPageIdx(s.pageIndex, |s.pages|);
      r.pageIndex == q && r.cursorY == 0 && CursorOnPage(r) && Pos(r) == s.pages[q].offset
  {
    PageFacts(s, NextPageIdx(s.pageIndex, |s.pages|));
  }

  /** `MovePgUp` shows the previous page with the cursor on its first row, which is on the page. */
  lemma MovePgUpLands(s: ListState)
    requires Consistent(s) && |s.items| > 0
    ensures var r := MovePgUpStep(s); var q := PrevPageIdx(s.pageIndex, |s.pages|);
      r.pageIndex == q && r.cursorY == 0 && CursorOnPage(r) && Pos(r) == s.pages[q].offset
  {
    PageFacts(s, PrevPageIdx(s.pageIndex, |s.pages|));
  }

  /** A page down followed by a page up, or the reverse, returns to the first row of the starting page. */
  lemma PageMovesUndoEachOther(s: ListState)
    requires Consistent(s) && |s.items| > 0
    ensures MovePgUpStep(MovePgDownStep(s)).pageIndex == s.pageIndex
    ensures MovePgDownStep(MovePgUpStep(s)).pageIndex == s.pageIndex
    ensures MovePgUpStep(MovePgDownStep(s)).cursorY == 0 && MovePgDownStep(MovePgUpStep(s)).cursorY == 0
  {
    NextPrevInverse(s.pageIndex, |s.pages|);
  }

  /** Setting the same code twice is setting it once: the second call clears nothing. */
  lemma SetCodeIdempotent(s: ListState, c: string)
    requires Consistent(s)
    ensures SetCodeStep(SetCodeStep(s, c), c) == SetCodeStep(s, c)
    ensures SetCodeStep(SetCodeStep(s, c), c).cursorY == (if s.code == c then s.cursorY else 0)
  {
  }

  /** Writing the current row and reading it back yields what was written. */
  lemma UpdateThenRead(s: ListState, item: string)
    requires Consistent(s) && |s.items| > 0 && CursorOnPage(s)
    ensures CurrentItemOf(UpdateCurrentItemStep(s, item)) == item
  {
  }

  /** Writing back the current row changes nothing. */
  lemma UpdateWithCurrent(s: ListState)
    requires Consistent(s) && |s.items| > 0 && CursorOnPage(s)
    ensures UpdateCurrentItemStep(s, CurrentItemOf(s)) == s
  {
    var r := UpdateCurrentItemStep(s, CurrentItemOf(s));
    assert r.items == s.items;
  }

  /** After `Reset`, `SetItems` leaves the cursor on row 0 of page 0, on the page. */
  lemma SetItemsAfterReset(s: ListState, data: seq<string>)
    requires Consistent(s)
    ensures var r := SetItemsStep(ResetStep(s), data);
      CursorOnPage(r) && r.cursorY == 0 && (|data| > 0 ==> Pos(r) == 0)
  {
    if |data| > 0 {
      PageFacts(SetItemsStep(ResetStep(s), data), 0);
    }
  }

  /** A non-empty `SetItems` shows exactly the first page: min(height, n) lines, rows 0, 1, ... */
  lemma SetItemsDrawsFirstPage(s: ListState, data: seq<string>)
    requires Consistent(s) && |data| > 0
    ensures var r := SetItemsStep(s, data);
      |r.view| == (if |data| < s.height then |data| else s.height) &&
      forall k :: 0 <= k < |r.view| ==> r.view[k] == DisplayItem(r, k)
  {
    PageAt(|data|, s.height, 0);
  }

  /** Appending a row keeps a cursor that was on its page on the (now first) page. */
  lemma AddItemKeepsCursorOnPage(s: ListState, item: string)
    requires Consistent(s) && CursorOnPage(s) && (|s.items| > 0 || s.cursorY == 0)
    ensures CursorOnPage(AddItemStep(s, item))
  {
    var n := |s.items|;
    PageAt(n + 1, s.height, 0);
    if n > 0 {
      PageFacts(s, s.pageIndex);
    }
  }

  /**
   * The shown title ends with the title given. With several pages it starts
   * with the current page's number, then "/", the page count and " - ".
   */
  lemma TitleTextShape(s: ListState, t: string)
    requires Consistent(s)
    ensures var r := TitleText(s, t);
      |t| <= |r| && r[|r| - |t|..] == t
    ensures |s.pages| > 1 ==>
      var r := TitleText(s, t);
      var n := Decimal(s.pageIndex + 1);
      var m := Decimal(|s.pages|);
      |r| == |n| + 1 + |m| + 3 + |t| &&
      r[..|n|] == n && r[|n|] == '/' && r[|n| + 1..|n| + 1 + |m|] == m &&
      r[|n| + 1 + |m|..|r| - |t|] == " - "
  {
    var r := TitleText(s, t);
    if |s.pages| > 1 {
      var n := Decimal(s.pageIndex + 1);
      var m := Decimal(|s.pages|);
      assert r == n + "/" + m + " - " + t;
    }
  }

  /**
   * `SetItems` keeps the cursor row, so a shorter list can leave it off the
   * page: three rows with the cursor on the third, replaced by two rows.
   */
  lemma SetItemsShrinkLeavesPage()
    ensures var s := ListState(3, 20, false, "", "", "", ["A", "B", "C"], Pages(3, 3), 0, 2, []);
      Consistent(s) && CursorOnPage(s) &&
      SetItemsStep(s, ["A", "B"]).cursorY == 2 && !CursorOnPage(SetItemsStep(s, ["A", "B"]))
  {
    PagesCount(3, 3);
    PageAt(3, 3, 0);
    PagesCount(2, 3);
    PageAt(2, 3, 0);
  }
}
