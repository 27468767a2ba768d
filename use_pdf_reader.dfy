/**
 * The PDF reader controller: the current page, clamped to [1, numPages] by the
 * navigation commands; the zoom scale, moved in steps of 0.1 within [0.5, 2.5];
 * the single-page or continuous reading mode; the window of pages to render;
 * the swipe and keyboard rules; the page computed from the scroll position; and
 * the page, mode and scale kept in a key/value store under one key prefix.
 *
 * Page numbers are the integers Number.parseInt yields; the scale is a JavaScript
 * number (a saved "Infinity" can be restored), never NaN. Finite doubles are exact
 * reals here.
 */
module UsePdfReader {
  import opened Js

  datatype ReadingMode = Single | Continuous

  /** The hook's defaults. */
  const DefaultStorageKey: string := "pdf-reader"
  const InitialPage: int := 1
  const InitialScale: Num := Finite(1.0)

  /** The zoom bounds and step. */
  const MinScale: real := 0.5
  const MaxScale: real := 2.5
  const ZoomStep: real := 0.1

  /** A swipe must travel further than this, horizontally, to turn a page. */
  const SwipeThreshold: real := 50.0

  // ---------------------------------------------------------------------------
  // Reading mode and its stored name

  function ModeName(m: ReadingMode): string {
    match m
    case Single => "single"
    case Continuous => "continuous"
  }

  /** A stored mode counts only when it is exactly one of the two names. */
  function ParseMode(s: string): (m: Option<ReadingMode>)
    ensures m.Some? <==> s == "single" || s == "continuous"
  {
    if s == "single" then Some(Single)
    else if s == "continuous" then Some(Continuous)
    else None
  }

  /** Every mode reads back as itself, and every accepted name is a mode's name. */
  lemma ModeRoundTrip(m: ReadingMode, s: string)
    ensures ParseMode(ModeName(m)) == Some(m)
    ensures ParseMode(s).Some? ==> ModeName(ParseMode(s).value) == s
  {
  }

  // ---------------------------------------------------------------------------
  // Page navigation

  predicate IsPage(p: int, numPages: int) {
    1 <= p <= numPages
  }

  /** goToPrevPage: Math.max(p - 1, 1). */
  function PageBefore(p: int): (r: int)
    ensures r >= 1 && r >= p - 1 && (r == 1 || r == p - 1)
  {
    if p - 1 < 1 then 1 else p - 1
  }

  /** goToNextPage: Math.min(p + 1, numPages), which is 0 for a document not yet loaded. */
  function PageAfter(p: int, numPages: int): (r: int)
    ensures r <= numPages && r <= p + 1 && (r == numPages || r == p + 1)
  {
    if numPages < p + 1 then numPages else p + 1
  }

  /** Both steps keep a page in range, and both stop at the ends. */
  lemma PageStepsStayInRange(p: int, numPages: int)
    requires IsPage(p, numPages)
    ensures IsPage(PageBefore(p), numPages) && IsPage(PageAfter(p, numPages), numPages)
    ensures PageBefore(p) == p <==> p == 1
    ensures PageAfter(p, numPages) == p <==> p == numPages
  {
  }

  /** Stepping forward and back, away from the ends, returns to the same page. */
  lemma PageStepsUndo(p: int, numPages: int)
    ensures 1 <= p < numPages ==> PageBefore(PageAfter(p, numPages)) == p
    ensures 1 < p <= numPages ==> PageAfter(PageBefore(p), numPages) == p
  {
  }

  /** Before the document loads (0 pages) a forward step lands on page 0. */
  lemma NextPageWithoutDocument(p: int)
    requires p >= 0
    ensures PageAfter(p, 0) == 0
  {
  }

  // ---------------------------------------------------------------------------
  // Zoom

  /** zoomIn: Math.min(s + 0.1, 2.5). */
  function ZoomedIn(s: Num): (r: Num)
    ensures s != NaN ==> r != NaN && LessEq(r, Finite(MaxScale))
    ensures s.Finite? ==> r == Finite(if s.r + ZoomStep <= MaxScale then s.r + ZoomStep else MaxScale)
    ensures s == PosInf ==> r == Finite(MaxScale)
  {
    Min(Add(s, ZoomStep), Finite(MaxScale))
  }

  /** zoomOut: Math.max(s - 0.1, 0.5). */
  function ZoomedOut(s: Num): (r: Num)
    ensures s != NaN ==> r != NaN && LessEq(Finite(MinScale), r)
    ensures s.Finite? ==> r == Finite(if s.r - ZoomStep >= MinScale then s.r - ZoomStep else MinScale)
    ensures s == NegInf ==> r == Finite(MinScale)
  {
    Max(Add(s, -ZoomStep), Finite(MinScale))
  }

  predicate InZoomRange(s: Num) {
    s.Finite? && MinScale <= s.r <= MaxScale
  }

  /** Zooming keeps a scale in [0.5, 2.5], and a scale outside is pulled to the nearer bound. */
  lemma ZoomStaysInRange(s: Num)
    ensures InZoomRange(s) ==> InZoomRange(ZoomedIn(s)) && InZoomRange(ZoomedOut(s))
    ensures s.Finite? && s.r > MaxScale ==> ZoomedIn(s) == Finite(MaxScale)
    ensures s.Finite? && s.r < MinScale ==> ZoomedOut(s) == Finite(MinScale)
  {
  }

  /** Away from the bounds, zooming in and out undo each other. */
  lemma ZoomStepsUndo(s: Num)
    requires s.Finite?
    ensures MinScale <= s.r <= MaxScale - ZoomStep ==> ZoomedOut(ZoomedIn(s)) == s
    ensures MinScale + ZoomStep <= s.r <= MaxScale ==> ZoomedIn(ZoomedOut(s)) == s
  {
  }

  // ---------------------------------------------------------------------------
  // Pages to render

  predicate Ascending(xs: seq<int>) {
    forall i, j :: 0 <= i < j < |xs| ==> xs[i] < xs[j]
  }

  /** `.filter((p) => p >= 1 && p <= numPages)`. */
  function InRange(xs: seq<int>, numPages: int): (r: seq<int>)
    ensures forall x :: x in r <==> x in xs && IsPage(x, numPages)
    ensures |r| <= |xs|
  {
    if xs == [] then []
    else if IsPage(xs[0], numPages) then [xs[0]] + InRange(xs[1..], numPages)
    else InRange(xs[1..], numPages)
  }

  /** Filtering keeps the order. */
  lemma {:induction false} InRangeAscending(xs: seq<int>, numPages: int)
    requires Ascending(xs)
    ensures Ascending(InRange(xs, numPages))
  {
    if xs != [] {
      var rest := InRange(xs[1..], numPages);
      InRangeAscending(xs[1..], numPages);
      forall x | x in rest ensures xs[0] < x {
        var k :| 0 <= k < |xs[1..]| && xs[1..][k] == x;
        assert xs[k + 1] == x;
      }
      if IsPage(xs[0], numPages) {
        var r := [xs[0]] + rest;
        forall i, j | 0 <= i < j < |r| ensures r[i] < r[j] {
          assert r[j] == rest[j - 1] && rest[j - 1] in rest;
          if i > 0 {
            assert r[i] == rest[i - 1];
          }
        }
      }
    }
  }

  /**
   * pagesToRender: in single mode the pages next to p and p itself that exist; in
   * continuous mode every page, in order.
   */
  function PagesToRender(mode: ReadingMode, p: int, numPages: nat): (r: seq<int>)
    ensures Ascending(r)
    ensures forall x :: x in r ==> IsPage(x, numPages)
    ensures mode == Single ==> |r| <= 3 && forall x :: x in r <==> p - 1 <= x <= p + 1 && IsPage(x, numPages)
    ensures mode == Continuous ==> |r| == numPages && forall i :: 0 <= i < |r| ==> r[i] == i + 1
  {
    if mode == Single then
      InRangeAscending([p - 1, p, p + 1], numPages);
      InRange([p - 1, p, p + 1], numPages)
    else
      seq(numPages, i => i + 1)
  }

  /** In single mode the current page is always rendered, between its existing neighbours. */
  lemma SinglePageWindow(p: int, numPages: nat)
    requires IsPage(p, numPages)
    ensures p in PagesToRender(Single, p, numPages)
    ensures 1 < p < numPages ==> PagesToRender(Single, p, numPages) == [p - 1, p, p + 1]
    ensures p == 1 && numPages == 1 ==> PagesToRender(Single, p, numPages) == [1]
  {
    var r := PagesToRender(Single, p, numPages);
    if 1 < p < numPages {
      assert r == [p - 1] + InRange([p - 1, p, p + 1][1..], numPages);
      assert [p - 1, p, p + 1][1..][1..] == [p + 1];
    }
  }

  // ---------------------------------------------------------------------------
  // Touch

  datatype TouchPoint = TouchPoint(x: real, y: real)

  datatype Swipe = NoSwipe | SwipePrev | SwipeNext

  function Abs(x: real): real {
    if x < 0.0 then -x else x
  }

  /** The first touch's position, or (0, 0) when the list is empty. */
  function PointOrOrigin(t: Option<TouchPoint>): (p: TouchPoint)
    ensures t.Some? ==> p == t.value
    ensures t.None? ==> p == TouchPoint(0.0, 0.0)
  {
    if t.Some? then t.value else TouchPoint(0.0, 0.0)
  }

  /**
   * A gesture turns a page when it is more horizontal than vertical and longer than
   * 50 pixels: rightwards to the previous page, leftwards to the next.
   */
  function SwipeOf(dx: real, dy: real): (s: Swipe)
    ensures s != NoSwipe <==> Abs(dx) > Abs(dy) && Abs(dx) > SwipeThreshold
    ensures s == SwipePrev <==> s != NoSwipe && dx > 0.0
    ensures s == SwipeNext <==> s != NoSwipe && dx < 0.0
  {
    if Abs(dx) > Abs(dy) && Abs(dx) > SwipeThreshold then
      (if dx > 0.0 then SwipePrev else SwipeNext)
    else NoSwipe
  }

  /** The same gesture made the other way turns the page the other way. */
  lemma SwipeReversed(dx: real, dy: real)
    ensures SwipeOf(-dx, -dy) == match SwipeOf(dx, dy)
      case NoSwipe => NoSwipe
      case SwipePrev => SwipeNext
      case SwipeNext => SwipePrev
  {
  }

  // ---------------------------------------------------------------------------
  // Keyboard

  datatype PageCommand = PrevCommand | NextCommand | FirstCommand | LastCommand

  /** The keys the reader answers to; names are compared exactly. */
  const PageKeys: set<string> := {"ArrowLeft", "PageUp", "ArrowRight", "PageDown", " ", "Home", "End"}

  /**
   * The keydown handler: nothing while typing in a field or in continuous mode;
   * otherwise ArrowLeft/PageUp go back, ArrowRight/PageDown/Space forward, Home to
   * the first page and End to the last.
   */
  function PageCommandOf(key: string, inTextField: bool, mode: ReadingMode): (c: Option<PageCommand>)
    ensures c.Some? <==> !inTextField && mode == Single && key in PageKeys
    ensures c == Some(PrevCommand) <==> c.Some? && (key == "ArrowLeft" || key == "PageUp")
    ensures c == Some(NextCommand) <==> c.Some? && (key == "ArrowRight" || key == "PageDown" || key == " ")
    ensures c == Some(FirstCommand) <==> c.Some? && key == "Home"
    ensures c == Some(LastCommand) <==> c.Some? && key == "End"
  {
    if inTextField || mode != Single then None
    else if key == "ArrowLeft" || key == "PageUp" then Some(PrevCommand)
    else if key == "ArrowRight" || key == "PageDown" || key == " " then Some(NextCommand)
    else if key == "Home" then Some(FirstCommand)
    else if key == "End" then Some(LastCommand)
    else None
  }

  /** The page a command leads to. */
  function CommandTarget(c: PageCommand, p: int, numPages: nat): int {
    match c
    case PrevCommand => PageBefore(p)
    case NextCommand => PageAfter(p, numPages)
    case FirstCommand => 1
    case LastCommand => numPages
  }

  /** Every command keeps a page that is in range in range. */
  lemma CommandsStayInRange(c: PageCommand, p: int, numPages: nat)
    requires IsPage(p, numPages)
    ensures IsPage(CommandTarget(c, p, numPages), numPages)
  {
    PageStepsStayInRange(p, numPages);
  }

  // ---------------------------------------------------------------------------
  // Scrolling in continuous mode

  /** Each page takes an equal share of the scrollable height. */
  function PageHeight(scrollHeight: real, numPages: nat): real
    requires numPages > 0
  {
    scrollHeight / numPages as real
  }

  /**
   * The page whose share of the height holds the middle of the view. None where
   * the division leaves the finite numbers (no pages, or no height): every such
   * value fails the range test that follows.
   */
  function CentrePage(scrollTop: real, clientHeight: real, scrollHeight: real, numPages: nat): (c: Option<int>)
    ensures c.Some? <==> numPages > 0 && scrollHeight != 0.0
    ensures c.Some? && scrollHeight > 0.0 ==>
      var h := PageHeight(scrollHeight, numPages);
      var centre := scrollTop + clientHeight / 2.0;
      (c.value - 1) as real * h <= centre < c.value as real * h
  {
    if numPages == 0 || scrollHeight == 0.0 then None
    else
      var h := PageHeight(scrollHeight, numPages);
      var centre := scrollTop + clientHeight / 2.0;
      var k := Floor(centre / h);
      assert scrollHeight > 0.0 ==> k as real * h <= centre < (k + 1) as real * h by {
        if scrollHeight > 0.0 {
          PageHeightPositive(scrollHeight, numPages);
          FloorBand(centre, h);
        }
      }
      Some(k + 1)
  }

  /** A positive height shared among the pages gives each a positive share. */
  lemma PageHeightPositive(scrollHeight: real, numPages: nat)
    requires numPages > 0 && scrollHeight > 0.0
    ensures PageHeight(scrollHeight, numPages) > 0.0
  {
  }

  /** The band of height h that floor(x / h) names holds x. */
  lemma FloorBand(x: real, h: real)
    requires h > 0.0
    ensures Floor(x / h) as real * h <= x < (Floor(x / h) + 1) as real * h
  {
    var q := x / h;
    var k := Floor(q);
    ScaleBounds(k, q, h);
    assert q * h == x;
    assert x < (k + 1) as real * h;
  }

  /** Multiplying k <= q < k + 1 by a positive h. */
  lemma ScaleBounds(k: int, q: real, h: real)
    requires h > 0.0 && k as real <= q < k as real + 1.0
    ensures k as real * h <= q * h < (k + 1) as real * h
  {
    assert (k + 1) as real * h == k as real * h + h;
    assert q * h - k as real * h == (q - k as real) * h;
  }

  /** Multiplying by a positive h keeps the order of integers, both ways. */
  lemma MulOrder(a: int, b: int, h: real)
    requires h > 0.0
    ensures a <= b <==> a as real * h <= b as real * h
  {
    assert b as real * h - a as real * h == (b - a) as real * h;
  }

  /** The page after a scroll: the centre's page when it differs and exists, else the same. */
  function PageAtScroll(p: int, scrollTop: real, clientHeight: real, scrollHeight: real, numPages: nat): (r: int)
    ensures r == p || IsPage(r, numPages)
    ensures r != p ==> CentrePage(scrollTop, clientHeight, scrollHeight, numPages) == Some(r)
  {
    var c := CentrePage(scrollTop, clientHeight, scrollHeight, numPages);
    if c.Some? && c.value != p && IsPage(c.value, numPages) then c.value else p
  }

  /** goToPage's scroll position in continuous mode: the top of the page's share. */
  function ScrollTopFor(p: int, scrollHeight: real, numPages: nat): real
    requires numPages > 0
  {
    (p - 1) as real * PageHeight(scrollHeight, numPages)
  }

  /**
   * Scrolling to a page and reading the page back from the scroll position gives
   * the same page, when the view is shorter than two pages.
   */
  lemma ScrollRoundTrip(p: int, clientHeight: real, scrollHeight: real, numPages: nat)
    requires IsPage(p, numPages) && scrollHeight > 0.0
    requires 0.0 <= clientHeight < 2.0 * PageHeight(scrollHeight, numPages)
    ensures CentrePage(ScrollTopFor(p, scrollHeight, numPages), clientHeight, scrollHeight, numPages) == Some(p)
  {
    var h := PageHeight(scrollHeight, numPages);
    PageHeightPositive(scrollHeight, numPages);
    var top := ScrollTopFor(p, scrollHeight, numPages);
    var centre := top + clientHeight / 2.0;
    assert p as real * h == top + h;
    var c := CentrePage(top, clientHeight, scrollHeight, numPages);
    BandUnique(c.value, p, centre, h);
  }

  /** A point lies in the band of one page only. */
  lemma BandUnique(a: int, b: int, x: real, h: real)
    requires h > 0.0
    requires (a - 1) as real * h <= x < a as real * h
    requires (b - 1) as real * h <= x < b as real * h
    ensures a == b
  {
    var lowA, highA := (a - 1) as real * h, a as real * h;
    var lowB, highB := (b - 1) as real * h, b as real * h;
    assert lowB < highA && lowA < highB;
    MulOrder(a, b - 1, h);
    assert !(a <= b - 1);
    MulOrder(b, a - 1, h);
    assert !(b <= a - 1);
  }


  // ---------------------------------------------------------------------------
  // Saved state

  function PageKey(key: string): string { key + "-page" }
  function ModeKey(key: string): string { key + "-mode" }
  function ScaleKey(key: string): string { key + "-scale" }

  /** The three entries have distinct keys under any prefix. */
  lemma KeysDistinct(key: string)
    ensures PageKey(key) != ModeKey(key) && PageKey(key) != ScaleKey(key) && ModeKey(key) != ScaleKey(key)
  {
    assert PageKey(key)[|key| + 1] == 'p' && ModeKey(key)[|key| + 1] == 'm';
    assert |PageKey(key)| != |ScaleKey(key)| && |ModeKey(key)| != |ScaleKey(key)|;
  }

  /** The saved page, when there is one and it parses as an integer. */
  function SavedPage(storage: map<string, string>, key: string): Option<int> {
    if PageKey(key) in storage then ParseInt(storage[PageKey(key)]) else None
  }

  /** The saved mode, when there is one and it is exactly a mode's name. */
  function SavedMode(storage: map<string, string>, key: string): Option<ReadingMode> {
    if ModeKey(key) in storage then ParseMode(storage[ModeKey(key)]) else None
  }

  /** The saved scale, when there is one and parseFloat does not give NaN. */
  function SavedScale(storage: map<string, string>, key: string): (s: Option<Num>)
    ensures s.Some? ==> s.value != NaN
  {
    if ScaleKey(key) in storage && ParseFloat(storage[ScaleKey(key)]) != NaN then
      Some(ParseFloat(storage[ScaleKey(key)]))
    else None
  }

  /**
   * The store after the save effects: the page only once the document has pages,
   * the mode and the scale (written as scaleText) always; other entries are kept.
   */
  function Saved(storage: map<string, string>, key: string, numPages: nat, p: int, m: ReadingMode, scaleText: string): (r: map<string, string>)
    ensures r.Keys == storage.Keys + {ModeKey(key), ScaleKey(key)} + (if numPages > 0 then {PageKey(key)} else {})
    ensures r[ModeKey(key)] == ModeName(m) && r[ScaleKey(key)] == scaleText
    ensures numPages > 0 ==> r[PageKey(key)] == IntToString(p)
    ensures forall k :: k in storage && k != ModeKey(key) && k != ScaleKey(key) && (numPages > 0 ==> k != PageKey(key)) ==>
      r[k] == storage[k]
  {
    KeysDistinct(key);
    var paged := if numPages > 0 then storage[PageKey(key) := IntToString(p)] else storage;
    paged[ModeKey(key) := ModeName(m)][ScaleKey(key) := scaleText]
  }

  /**
   * What is saved is what is restored: the page (once there are pages), the mode,
   * and the scale whenever parseFloat reads its text back exactly.
   */
  lemma RestoreAfterSave(storage: map<string, string>, key: string, numPages: nat, p: int, m: ReadingMode, s: Num, scaleText: string)
    requires s != NaN && ParseFloat(scaleText) == s
    ensures var saved := Saved(storage, key, numPages, p, m, scaleText);
      && SavedPage(saved, key) == (if numPages > 0 then Some(p) else SavedPage(storage, key))
      && SavedMode(saved, key) == Some(m)
      && SavedScale(saved, key) == Some(s)
  {
    KeysDistinct(key);
    ModeRoundTrip(m, "");
    if numPages > 0 {
      ParseIntOfIntToString(p, []);
      assert IntToString(p) + [] == IntToString(p);
    }
  }

  // ---------------------------------------------------------------------------
  // The controller

  /**
   * The hook's state: the document's page count, the current page, the scale, the
   * mode, where the last touch started, and the browser's key/value store.
   * `toText` is Number.prototype.toString, used to save the scale.
   */
  class PdfReader {
    const storageKey: string
    const toText: Num -> string
    var numPages: nat
    var pageNumber: int
    var scale: Num
    var mode: ReadingMode
    var touchStartX: real
    var touchStartY: real
    var storage: map<string, string>

    /** The scale is never NaN. */
    predicate Valid()
      reads this
    {
      scale != NaN
    }

    /** Mounting with the defaults: no pages yet, page 1, scale 1, single mode. */
    constructor (storageKey: string, storage: map<string, string>, toText: Num -> string)
      ensures Valid()
      ensures this.storageKey == storageKey && this.storage == storage && this.toText == toText
      ensures numPages == 0 && pageNumber == InitialPage && scale == InitialScale && mode == Single
      ensures touchStartX == 0.0 && touchStartY == 0.0
    {
      this.storageKey := storageKey;
      this.toText := toText;
      this.storage := storage;
      numPages, pageNumber, scale, mode := 0, InitialPage, InitialScale, Single;
      touchStartX, touchStartY := 0.0, 0.0;
    }

    /** setNumPages: the loaded document's page count. */
    method SetNumPages(n: nat)
      modifies this`numPages
      ensures numPages == n
    {
      numPages := n;
    }

    /** setReadingMode. */
    method SetReadingMode(m: ReadingMode)
      modifies this`mode
      ensures mode == m
    {
      mode := m;
    }

    /** goToPrevPage. */
    method GoToPrevPage()
      modifies this`pageNumber
      ensures pageNumber == PageBefore(old(pageNumber))
    {
      pageNumber := if pageNumber - 1 < 1 then 1 else pageNumber - 1;
    }

    /** goToNextPage. */
    method GoToNextPage()
      modifies this`pageNumber
      ensures pageNumber == PageAfter(old(pageNumber), numPages)
    {
      pageNumber := if numPages < pageNumber + 1 then numPages else pageNumber + 1;
    }

    /**
     * goToPage: only a page of the document is taken; NaN (None) never is. In
     * continuous mode the view is also scrolled to the top of that page, given the
     * scrollable height; the position is returned.
     */
    method GoToPage(page: Option<int>, scrollHeight: real) returns (scrollTop: Option<real>)
      modifies this`pageNumber
      ensures pageNumber == if page.Some? && IsPage(page.value, numPages) then page.value else old(pageNumber)
      ensures scrollTop.Some? <==> page.Some? && IsPage(page.value, numPages) && mode == Continuous
      ensures scrollTop.Some? ==> scrollTop.value == ScrollTopFor(page.value, scrollHeight, numPages)
    {
      scrollTop := None;
      if page.Some? && 1 <= page.value && page.value <= numPages {
        pageNumber := page.value;
        if mode == Continuous {
          scrollTop := Some((page.value - 1) as real * (scrollHeight / numPages as real));
        }
      }
    }

    /** zoomIn. */
    method ZoomIn()
      requires Valid()
      modifies this`scale
      ensures Valid() && scale == ZoomedIn(old(scale))
    {
      scale := Min(Add(scale, ZoomStep), Finite(MaxScale));
    }

    /** zoomOut. */
    method ZoomOut()
      requires Valid()
      modifies this`scale
      ensures Valid() && scale == ZoomedOut(old(scale))
    {
      scale := Max(Add(scale, -ZoomStep), Finite(MinScale));
    }

    /** resetZoom: exactly 1. */
    method ResetZoom()
      modifies this`scale
      ensures Valid() && scale == Finite(1.0)
    {
      scale := Finite(1.0);
    }

    /** The keydown handler; `handled` says whether the default action was prevented. */
    method HandleKeyDown(key: string, inTextField: bool) returns (handled: bool)
      modifies this`pageNumber
      ensures handled <==> PageCommandOf(key, inTextField, mode).Some?
      ensures pageNumber == match PageCommandOf(key, inTextField, mode)
        case None => old(pageNumber)
        case Some(c) => CommandTarget(c, old(pageNumber), numPages)
    {
      var c := PageCommandOf(key, inTextField, mode);
      handled := c.Some?;
      match c
      case None =>
      case Some(PrevCommand) => GoToPrevPage();
      case Some(NextCommand) => GoToNextPage();
      case Some(FirstCommand) => pageNumber := 1;
      case Some(LastCommand) => pageNumber := numPages;
    }

    /** handleTouchStart: remembers where the first touch began, except in continuous mode. */
    method HandleTouchStart(touch: Option<TouchPoint>)
      modifies this`touchStartX, this`touchStartY
      ensures mode == Continuous ==> touchStartX == old(touchStartX) && touchStartY == old(touchStartY)
      ensures mode == Single ==> TouchPoint(touchStartX, touchStartY) == PointOrOrigin(touch)
    {
      if mode == Single {
        var p := PointOrOrigin(touch);
        touchStartX, touchStartY := p.x, p.y;
      }
    }

    /** handleTouchEnd: a swipe turns the page, except in continuous mode. */
    method HandleTouchEnd(touch: Option<TouchPoint>)
      modifies this`pageNumber
      ensures mode == Continuous ==> pageNumber == old(pageNumber)
      ensures mode == Single ==>
        var e := PointOrOrigin(touch);
        pageNumber == match SwipeOf(e.x - touchStartX, e.y - touchStartY)
          case NoSwipe => old(pageNumber)
          case SwipePrev => PageBefore(old(pageNumber))
          case SwipeNext => PageAfter(old(pageNumber), numPages)
    {
      if mode == Single {
        var e := PointOrOrigin(touch);
        var s := SwipeOf(e.x - touchStartX, e.y - touchStartY);
        if s == SwipePrev {
          GoToPrevPage();
        } else if s == SwipeNext {
          GoToNextPage();
        }
      }
    }

    /** The scroll listener, attached in continuous mode only. */
    method HandleScroll(scrollTop: real, clientHeight: real, scrollHeight: real)
      modifies this`pageNumber
      ensures pageNumber == if mode == Continuous
        then PageAtScroll(old(pageNumber), scrollTop, clientHeight, scrollHeight, numPages)
        else old(pageNumber)
    {
      if mode == Continuous && numPages > 0 && scrollHeight != 0.0 {
        var centre := scrollTop + clientHeight / 2.0;
        var current := Floor(centre / (scrollHeight / numPages as real)) + 1;
        if current != pageNumber && 1 <= current && current <= numPages {
          pageNumber := current;
        }
      }
    }

    /** The mount effect: takes back whatever saved page, mode and scale are usable. */
    method Restore()
      requires Valid()
      modifies this`pageNumber, this`mode, this`scale
      ensures Valid()
      ensures pageNumber == match SavedPage(storage, storageKey) case Some(p) => p case None => old(pageNumber)
      ensures mode == match SavedMode(storage, storageKey) case Some(m) => m case None => old(mode)
      ensures scale == match SavedScale(storage, storageKey) case Some(s) => s case None => old(scale)
    {
      if PageKey(storageKey) in storage {
        var page := ParseInt(storage[PageKey(storageKey)]);
        if page.Some? {
          pageNumber := page.value;
        }
      }
      if ModeKey(storageKey) in storage {
        var saved := storage[ModeKey(storageKey)];
        if saved == "single" || saved == "continuous" {
          mode := if saved == "single" then Single else Continuous;
        }
      }
      if ScaleKey(storageKey) in storage {
        var parsed := ParseFloat(storage[ScaleKey(storageKey)]);
        if parsed != NaN {
          scale := parsed;
        }
      }
    }

    /** The save effects, run after a render. */
    method Persist()
      modifies this`storage
      ensures storage == Saved(old(storage), storageKey, numPages, pageNumber, mode, toText(scale))
    {
      KeysDistinct(storageKey);
      if numPages > 0 {
        storage := storage[PageKey(storageKey) := IntToString(pageNumber)];
      }
      storage := storage[ModeKey(storageKey) := ModeName(mode)];
      storage := storage[ScaleKey(storageKey) := toText(scale)];
    }
  }
}
