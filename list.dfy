/**
 * The paged list of list.go: a list of display rows cut into pages of the
 * viewport's height, a current page and a cursor row on it.
 *
 * `ListState` is a snapshot of a `List` together with the parts of the
 * embedded terminal view that the list uses (cursor row, text lines, shown
 * title). Each method of the class is specified by a step function on
 * snapshots; the lemmas state what the steps promise.
 *
 * The view's `Clear` empties its text and does not move its cursor.
 */
module PagedList {
  import opened Strings
  import opened Paging
  import opened Wrappers

  datatype ListState = ListState(
    height: int,          // rows per page: the view's height minus one
    width: int,           // the view's width minus one
    ordered: bool,        // rows are numbered
    code: string,         // the project code the rows belong to
    title: string,        // the title as last set
    shownTitle: string,   // the title the view shows
    items: seq<string>,
    pages: seq<Page>,
    pageIndex: int,
    cursorY: int,         // the view's cursor row
    view: seq<string>)    // the lines written into the view

  /** The pages are those of the rows; indices are not negative. */
  ghost predicate PagesFit(s: ListState) {
    && s.height > 0
    && s.pages == Pages(|s.items|, s.height)
    && 0 <= s.pageIndex
    && 0 <= s.cursorY
  }

  /** What every state between two operations keeps: besides, a non-empty list is on one of its pages. */
  ghost predicate Consistent(s: ListState) {
    && PagesFit(s)
    && (|s.items| > 0 ==> s.pageIndex < |s.pages|)
  }

  /** The cursor points at a row of the current page (always, on an empty list). */
  ghost predicate CursorOnPage(s: ListState)
    requires Consistent(s)
  {
    |s.items| == 0 || s.cursorY < s.pages[s.pageIndex].limit
  }

  /** The index in `items` of the row under the cursor. */
  function Pos(s: ListState): int
    requires Consistent(s) && |s.items| > 0
  {
    s.pages[s.pageIndex].offset + s.cursorY
  }

  lemma PageFacts(s: ListState, i: int)
    requires PagesFit(s) && 0 <= i < |s.pages|
    ensures |s.items| > 0
    ensures 0 <= s.pages[i].offset && 0 < s.pages[i].limit <= s.height
    ensures s.pages[i].offset + s.pages[i].limit <= |s.items|
    ensures s.pages[i].offset == i * s.height
  {
    PagesPartition(|s.items|, s.height);
    TilesAbove(s.pages, 0, |s.items|, s.height, i);
    TilesBelow(s.pages, 0, |s.items|, s.height, i);
    TilesOffset(s.pages, |s.items|, s.height, i);
  }

  /** `currPageNum`: the 1-based number of the current page, 0 on an empty list. */
  function CurrPageNum(s: ListState): (r: nat)
    requires Consistent(s)
    ensures |s.items| > 0 ==> r == s.pageIndex + 1 && 1 <= r <= |s.pages|
    ensures |s.items| == 0 ==> r == 0
  {
    if |s.items| == 0 then 0 else s.pageIndex + 1
  }

  /** The title `SetTitle` shows: "<page>/<pages> - <title>" once there are several pages. */
  function TitleText(s: ListState, t: string): (r: string)
    requires Consistent(s)
    ensures |s.pages| <= 1 ==> r == t
  {
    if |s.pages| > 1 then Decimal(CurrPageNum(s)) + "/" + Decimal(|s.pages|) + " - " + t else t
  }

  function SetTitleStep(s: ListState, t: string): (r: ListState)
    requires Consistent(s)
    ensures Consistent(r)
    ensures r == s.(title := t, shownTitle := r.shownTitle)
    ensures r.shownTitle == TitleText(s, t)
    ensures |s.pages| <= 1 ==> r.shownTitle == t
  {
    s.(title := t, shownTitle := TitleText(s, t))
  }

  /** `Reset`: rows and pages dropped, view cleared, cursor back to row 0. */
  function ResetStep(s: ListState): (r: ListState)
    requires Consistent(s)
    ensures Consistent(r) && CursorOnPage(r)
    ensures r.items == [] && r.pages == [] && r.view == [] && r.cursorY == 0
    ensures r.pageIndex == s.pageIndex && r.code == s.code && r.title == s.title
  {
    s.(items := [], pages := [], view := [], cursorY := 0)
  }

  /** `SetCode`: a new code resets the list; the current code changes nothing. */
  function SetCodeStep(s: ListState, code: string): (r: ListState)
    requires Consistent(s)
    ensures Consistent(r) && r.code == code
    ensures s.code == code ==> r == s
    ensures s.code != code ==> r == ResetStep(s).(code := code)
  {
    if s.code != code then ResetStep(s.(code := code)) else s
  }

  /** Row i as `displayItem` labels it: "%2d. " and the row when the list is ordered. */
  function RowLabel(s: ListState, i: int): string
    requires 0 <= i < |s.items|
  {
    if s.ordered then PadLeft(Decimal(i + 1), 2) + ". " + s.items[i] else s.items[i]
  }

  /**
   * `displayItem`: the label of row i, then blanks that fill the view's width
   * whenever the row itself fits in it.
   */
  function DisplayItem(s: ListState, i: int): (r: string)
    requires 0 <= i < |s.items|
    ensures |RowLabel(s, i)| <= |r| && r[..|RowLabel(s, i)|] == RowLabel(s, i)
    ensures forall k :: |RowLabel(s, i)| <= k < |r| ==> r[k] == ' '
    ensures |s.items[i]| <= s.width + 1 ==> |r| >= s.width + 1
  {
    var item := s.items[i];
    var sp := Spaces(s.width - |item| + 1);
    if s.ordered then PadLeft(Decimal(i + 1), 2) + ". " + item + sp else item + sp
  }

  /** The lines `displayPage(p)` writes: the rows of page p and no others. */
  function PageLines(s: ListState, p: int): (r: seq<string>)
    requires PagesFit(s) && 0 <= p < |s.pages|
    ensures |r| == s.pages[p].limit
    ensures forall k :: 0 <= k < |r| ==>
      0 <= s.pages[p].offset + k < |s.items| && r[k] == DisplayItem(s, s.pages[p].offset + k)
  {
    PageFacts(s, p);
    seq(s.pages[p].limit, k requires 0 <= k < s.pages[p].limit => DisplayItem(s, s.pages[p].offset + k))
  }

  /** `displayPage(p)`: page p becomes current and is drawn; the cursor row is left where it was. */
  function DisplayPageStep(s: ListState, p: int): (r: ListState)
    requires PagesFit(s) && 0 <= p < |s.pages|
    ensures Consistent(r)
    ensures r.pageIndex == p && r.cursorY == s.cursorY && r.view == PageLines(s, p)
    ensures r.items == s.items && r.pages == s.pages && r.code == s.code && r.title == s.title
  {
    SetTitleStep(s.(pageIndex := p, view := PageLines(s, p)), s.title)
  }

  /** `Draw`: page 0 is drawn, unless the list is empty. */
  function DrawStep(s: ListState): (r: ListState)
    requires PagesFit(s)
    ensures Consistent(r)
    ensures |s.items| == 0 ==> r == s
    ensures |s.items| > 0 ==> r.pageIndex == 0 && r.view == PageLines(s, 0)
  {
    if |s.items| == 0 then s else DisplayPageStep(s, 0)
  }

  /**
   * `SetItems`: the rows are replaced, the pages recomputed and page 0 drawn.
   * The cursor row is not touched.
   */
  function SetItemsStep(s: ListState, data: seq<string>): (r: ListState)
    requires Consistent(s)
    ensures Consistent(r)
    ensures r.items == data && r.pages == Pages(|data|, s.height)
    ensures r.cursorY == s.cursorY && r.code == s.code && r.title == s.title
    ensures |data| > 0 ==> r.pageIndex == 0
  {
    DrawStep(s.(items := data, pages := Pages(|data|, s.height)))
  }

  /**
   * `SetItems` with the cursor kept on the new first page: the row is kept
   * when it still exists there, and goes back to row 0 otherwise.
   */
  function SetItemsFixedStep(s: ListState, data: seq<string>): (r: ListState)
    requires Consistent(s)
    ensures Consistent(r) && CursorOnPage(r)
    ensures r.items == data && r.pages == Pages(|data|, s.height) && r.code == s.code && r.title == s.title
    ensures |data| > 0 ==> r.pageIndex == 0
    ensures r.cursorY == (if CursorOnPage(SetItemsStep(s, data)) then s.cursorY else 0)
  {
    var t := SetItemsStep(s, data);
    if |t.items| == 0 || t.cursorY < t.pages[t.pageIndex].limit then t
    else
      PageFacts(t, 0);
      t.(cursorY := 0)
  }

  /** `AddItem`: the row is appended, then as `SetItems`. */
  function AddItemStep(s: ListState, item: string): (r: ListState)
    requires Consistent(s)
    ensures Consistent(r) && r.items == s.items + [item] && r.pageIndex == 0
  {
    SetItemsStep(s, s.items + [item])
  }

  /** `CurrentItem`: the row under the cursor, "" on an empty list. */
  function CurrentItemOf(s: ListState): (r: string)
    requires Consistent(s) && CursorOnPage(s)
    ensures |s.items| == 0 ==> r == ""
    ensures |s.items| > 0 ==> 0 <= Pos(s) < |s.items| && r == s.items[Pos(s)]
  {
    if |s.items| == 0 then ""
    else
      PageFacts(s, s.pageIndex);
      s.items[s.pages[s.pageIndex].offset + s.cursorY]
  }

  /** `UpdateCurrentItem`: the row under the cursor is overwritten. */
  function UpdateCurrentItemStep(s: ListState, item: string): (r: ListState)
    requires Consistent(s) && |s.items| > 0 && CursorOnPage(s)
    ensures Consistent(r) && CursorOnPage(r)
    ensures 0 <= Pos(s) < |s.items|
    ensures |r.items| == |s.items| && r.items[Pos(s)] == item
    ensures forall j :: 0 <= j < |s.items| && j != Pos(s) ==> r.items[j] == s.items[j]
    ensures r == s.(items := r.items)
  {
    PageFacts(s, s.pageIndex);
    s.(items := s.items[Pos(s) := item])
  }

  /**
   * `MoveDown`: one row down; from the last row of a page, to the next page
   * (circularly) when there are several, else back to row 0. The page change
   * goes through `displayPage`, which keeps the old cursor row.
   */
  function MoveDownStep(s: ListState): (r: ListState)
    requires Consistent(s)
    ensures Consistent(r) && r.items == s.items && r.pages == s.pages
    ensures |s.items| == 0 ==> r == s
  {
    if |s.items| == 0 then s
    else if s.cursorY == s.pages[s.pageIndex].limit - 1 then
      if |s.pages| > 1 then DisplayPageStep(s, NextPageIdx(s.pageIndex, |s.pages|))
      else s.(cursorY := 0)
    else s.(cursorY := s.cursorY + 1)
  }

  /**
   * `MoveUp`: one row up; from row 0, to the previous page (circularly) when
   * there are several, else to the last row. The page change goes through
   * `displayPage`, which keeps the old cursor row (row 0).
   */
  function MoveUpStep(s: ListState): (r: ListState)
    requires Consistent(s)
    ensures Consistent(r) && r.items == s.items && r.pages == s.pages
    ensures |s.items| == 0 ==> r == s
  {
    if |s.items| == 0 then s
    else if s.cursorY == 0 then
      var prev := PrevPageIdx(s.pageIndex, |s.pages|);
      var y := s.pages[prev].limit - 1;
      if |s.pages| > 1 then DisplayPageStep(s, prev)
      else PageFacts(s, prev); s.(cursorY := y)
    else s.(cursorY := s.cursorY - 1)
  }

  /** `MovePgDown`: the next page, circularly, with the cursor on its first row. */
  function MovePgDownStep(s: ListState): (r: ListState)
    requires Consistent(s)
    ensures Consistent(r) && r.items == s.items && r.pages == s.pages
    ensures |s.items| == 0 ==> r == s
  {
    if |s.items| == 0 then s
    else DisplayPageStep(s, NextPageIdx(s.pageIndex, |s.pages|)).(cursorY := 0)
  }

  /** `MovePgUp`: the previous page, circularly, with the cursor on its first row. */
  function MovePgUpStep(s: ListState): (r: ListState)
    requires Consistent(s)
    ensures Consistent(r) && r.items == s.items && r.pages == s.pages
    ensures |s.items| == 0 ==> r == s
  {
    if |s.items| == 0 then s
    else DisplayPageStep(s, PrevPageIdx(s.pageIndex, |s.pages|)).(cursorY := 0)
  }

  /** `MoveDown` as its comment intends: the cursor goes to the row `y` it computed (row 0 of the next page). */
  function MoveDownFixedStep(s: ListState): (r: ListState)
    requires Consistent(s)
    ensures Consistent(r) && r.items == s.items && r.pages == s.pages
    ensures |s.items| == 0 ==> r == s
  {
    if |s.items| > 0 && s.cursorY == s.pages[s.pageIndex].limit - 1 && |s.pages| > 1 then
      DisplayPageStep(s, NextPageIdx(s.pageIndex, |s.pages|)).(cursorY := 0)
    else MoveDownStep(s)
  }

  /** `MoveUp` as its comment intends: the cursor goes to the row `y` it computed (the last row of the previous page). */
  function MoveUpFixedStep(s: ListState): (r: ListState)
    requires Consistent(s)
    ensures Consistent(r) && r.items == s.items && r.pages == s.pages
    ensures |s.items| == 0 ==> r == s
  {
    if |s.items| > 0 && s.cursorY == 0 && |s.pages| > 1 then
      var prev := PrevPageIdx(s.pageIndex, |s.pages|);
      PageFacts(s, prev);
      DisplayPageStep(s, prev).(cursorY := s.pages[prev].limit - 1)
    else MoveUpStep(s)
  }

  /** The row after `x` among n rows, circularly. */
  function Succ(x: int, n: int): int {
    if x + 1 == n then 0 else x + 1
  }

  /** The row before `x` among n rows, circularly. */
  function Pred(x: int, n: int): int {
    if x == 0 then n - 1 else x - 1
  }

  /**
   * `List` of list.go over the view it embeds. The view's size is fixed at
   * creation; `height` is its height minus one, `width` its width minus one.
   */
  class List {
    const height: int
    const width: int
    const ordered: bool
    var code: string
    var title: string
    var shownTitle: string
    var items: seq<string>
    var pages: seq<Page>
    var pageIndex: int
    var cursorY: int
    var view: seq<string>

    function State(): ListState
      reads this
    {
      ListState(height, width, ordered, code, title, shownTitle, items, pages, pageIndex, cursorY, view)
    }

    ghost predicate Valid()
      reads this
    {
      Consistent(State())
    }

    /** `CreateList` on a view of sizeX by sizeY cells; a view at most one row high has no page height. */
    constructor (sizeX: int, sizeY: int, ordered: bool)
      requires sizeY - 1 > 0
      ensures Valid()
      ensures State() == ListState(sizeY - 1, sizeX - 1, ordered, "", "", "", [], [], 0, 0, [])
    {
      height, width, this.ordered := sizeY - 1, sizeX - 1, ordered;
      code, title, shownTitle := "", "", "";
      items, pages, pageIndex, cursorY, view := [], [], 0, 0, [];
    }

    method IsEmpty() returns (b: bool)
      ensures b <==> |items| == 0
    {
      b := |items| == 0;
    }

    /** The embedded view's `Clear`: its text goes, its cursor stays. */
    method Clear()
      modifies this
      ensures State() == old(State()).(view := [])
    {
      view := [];
    }

    /** The embedded view's `SetCursor(0, y)`, which refuses a negative row. */
    method SetCursor(y: int) returns (err: Outcome)
      modifies this
      ensures err == (if y < 0 then Fail("invalid point") else Pass)
      ensures State() == if y < 0 then old(State()) else old(State()).(cursorY := y)
    {
      if y < 0 {
        return Fail("invalid point");
      }
      cursorY := y;
      err := Pass;
    }

    method ResetCursor()
      modifies this
      ensures State() == old(State()).(cursorY := 0)
    {
      var _ := SetCursor(0);
    }

    method Reset()
      requires Valid()
      modifies this
      ensures Valid() && State() == ResetStep(old(State()))
    {
      items := [];
      pages := [];
      Clear();
      ResetCursor();
    }

    method SetCode(c: string)
      requires Valid()
      modifies this
      ensures Valid() && State() == SetCodeStep(old(State()), c)
    {
      if code != c {
        code := c;
        Reset();
      }
    }

    method SetTitle(t: string)
      requires Valid()
      modifies this
      ensures Valid() && State() == SetTitleStep(old(State()), t)
    {
      title := t;
      shownTitle := TitleText(State(), t);
    }

    /** Recomputes the pages from the number of rows, as the loop of list.go does. */
    method ResetPages()
      requires height > 0 && 0 <= pageIndex && 0 <= cursorY
      modifies this
      ensures PagesFit(State())
      ensures State() == old(State()).(pages := Pages(|items|, height))
    {
      var ps := [];
      var offset := 0;
      while offset < |items|
        invariant 0 <= offset
        invariant ps + PagesFrom(offset, |items|, height) == Pages(|items|, height)
        decreases |items| - offset
      {
        var limit := height;
        if offset + limit > |items| {
          limit := |items| % height;
        }
        assert PagesFrom(offset, |items|, height) == [Page(offset, limit)] + PagesFrom(offset + height, |items|, height);
        ps := ps + [Page(offset, limit)];
        offset := offset + height;
      }
      assert ps == Pages(|items|, height);
      pages := ps;
    }

    /** `displayPage(p)`: writes the rows of page p into the cleared view. */
    method DisplayPage(p: int)
      requires PagesFit(State()) && 0 <= p < |pages|
      modifies this
      ensures Valid() && State() == DisplayPageStep(old(State()), p)
    {
      ghost var s := State();
      var page := pages[p];
      PageFacts(s, p);
      var lines := [];
      var i := page.offset;
      while i < page.offset + page.limit
        invariant page.offset <= i <= page.offset + page.limit
        invariant |lines| == i - page.offset
        invariant forall k :: 0 <= k < |lines| ==> lines[k] == DisplayItem(s, page.offset + k)
      {
        lines := lines + [DisplayItem(State(), i)];
        i := i + 1;
      }
      assert lines == PageLines(s, p);
      Clear();
      pageIndex := p;
      view := lines;
      SetTitle(title);
    }

    method Draw()
      requires PagesFit(State())
      modifies this
      ensures Valid() && State() == DrawStep(old(State()))
    {
      if |items| == 0 {
        return;
      }
      DisplayPage(0);
    }

    method DrawCurrentPage()
      requires Valid()
      modifies this
      ensures Valid()
      ensures State() == if |old(items)| == 0 then old(State()) else DisplayPageStep(old(State()), old(pageIndex))
    {
      if |items| == 0 {
        return;
      }
      DisplayPage(pageIndex);
    }

    method SetItems(data: seq<string>)
      requires Valid()
      modifies this
      ensures Valid() && State() == SetItemsStep(old(State()), data)
    {
      items := data;
      ResetPages();
      Draw();
    }

    /** `SetItems` as the handlers that shrink a list need it: a row past the new first page is not kept. */
    method SetItemsFixed(data: seq<string>)
      requires Valid()
      modifies this
      ensures Valid() && State() == SetItemsFixedStep(old(State()), data)
    {
      SetItems(data);
      if |items| > 0 && cursorY >= pages[pageIndex].limit {
        ResetCursor();
      }
    }

    method AddItem(item: string)
      requires Valid()
      modifies this
      ensures Valid() && State() == AddItemStep(old(State()), item)
    {
      items := items + [item];
      ResetPages();
      Draw();
    }

    method CurrentItem() returns (r: string)
      requires Valid() && CursorOnPage(State())
      ensures r == CurrentItemOf(State())
    {
      if |items| == 0 {
        return "";
      }
      PageFacts(State(), pageIndex);
      var page := pages[pageIndex];
      var data := items[page.offset..page.offset + page.limit];
      r := data[cursorY];
    }

    method UpdateCurrentItem(item: string)
      requires Valid() && |items| > 0 && CursorOnPage(State())
      modifies this
      ensures Valid() && State() == UpdateCurrentItemStep(old(State()), item)
    {
      PageFacts(State(), pageIndex);
      var page := pages[pageIndex];
      items := items[page.offset + cursorY := item];
    }

    method MoveDown() returns (err: Outcome)
      requires Valid()
      modifies this
      ensures Valid() && State() == MoveDownStep(old(State())) && err == Pass
    {
      if |items| == 0 {
        return Pass;
      }
      var y := cursorY + 1;
      if cursorY == pages[pageIndex].limit - 1 {
        y := 0;
        if |pages| > 1 {
          DisplayPage(NextPageIdx(pageIndex, |pages|));
          return Pass;
        }
      }
      err := SetCursor(y);
    }

    method MoveUp() returns (err: Outcome)
      requires Valid()
      modifies this
      ensures Valid() && State() == MoveUpStep(old(State())) && err == Pass
    {
      if |items| == 0 {
        return Pass;
      }
      var y := cursorY - 1;
      if cursorY == 0 {
        PageFacts(State(), PrevPageIdx(pageIndex, |pages|));
        y := pages[PrevPageIdx(pageIndex, |pages|)].limit - 1;
        if |pages| > 1 {
          DisplayPage(PrevPageIdx(pageIndex, |pages|));
          return Pass;
        }
      }
      err := SetCursor(y);
    }

    method MovePgDown() returns (err: Outcome)
      requires Valid()
      modifies this
      ensures Valid() && State() == MovePgDownStep(old(State())) && err == Pass
    {
      if |items| == 0 {
        return Pass;
      }
      DisplayPage(NextPageIdx(pageIndex, |pages|));
      err := SetCursor(0);
    }

    method MovePgUp() returns (err: Outcome)
      requires Valid()
      modifies this
      ensures Valid() && State() == MovePgUpStep(old(State())) && err == Pass
    {
      if |items| == 0 {
        return Pass;
      }
      DisplayPage(PrevPageIdx(pageIndex, |pages|));
      err := SetCursor(0);
    }

    /** `MoveDown` with the computed row applied after a page change. */
    method MoveDownFixed() returns (err: Outcome)
      requires Valid()
      modifies this
      ensures Valid() && State() == MoveDownFixedStep(old(State())) && err == Pass
    {
      if |items| == 0 {
        return Pass;
      }
      var y := cursorY + 1;
      if cursorY == pages[pageIndex].limit - 1 {
        y := 0;
        if |pages| > 1 {
          DisplayPage(NextPageIdx(pageIndex, |pages|));
        }
      }
      err := SetCursor(y);
    }

    /** `MoveUp` with the computed row applied after a page change. */
    method MoveUpFixed() returns (err: Outcome)
      requires Valid()
      modifies this
      ensures Valid() && State() == MoveUpFixedStep(old(State())) && err == Pass
    {
      if |items| == 0 {
        return Pass;
      }
      var y := cursorY - 1;
      if cursorY == 0 {
        var prev := PrevPageIdx(pageIndex, |pages|);
        PageFacts(State(), prev);
        y := pages[prev].limit - 1;
        if |pages| > 1 {
          DisplayPage(prev);
        }
      }
      err := SetCursor(y);
    }
  }
}
