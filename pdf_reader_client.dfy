/**
 * The PDF reader page: the document's loading and error flags around the reader
 * controller, the page-number input, which controls are shown or disabled, and
 * the progress and zoom percentages in the header.
 *
 * The page's own calls to the toast library are recorded as a log of
 * (title, description) pairs.
 */
module PdfReaderClient {
  import opened Js
  import opened UsePdfReader

  /** The key prefix this page saves the reader's state under. */
  const StorageKey: string := "book-pdf-reader"

  /** The error message and toast shown when the document cannot be loaded. */
  const LoadErrorTitle: string := "Error al cargar el PDF"
  const LoadErrorHint: string := "Verifica tu conexión a internet o intenta más tarde"

  /** A number times a finite factor, as `*` computes it. */
  function Times(x: Num, k: real): Num {
    if x.Finite? then Finite(x.r * k) else x
  }

  /** `p / numPages` on JavaScript numbers: division by zero gives an infinity, or NaN for 0 / 0. */
  function Ratio(p: int, numPages: nat): (r: Num)
    ensures numPages > 0 ==> r == Finite(p as real / numPages as real)
    ensures numPages == 0 ==> r == if p > 0 then PosInf else if p < 0 then NegInf else NaN
  {
    if numPages > 0 then Finite(p as real / numPages as real)
    else if p > 0 then PosInf
    else if p < 0 then NegInf
    else NaN
  }

  /** The progress indicator: Math.round((pageNumber / numPages) * 100). */
  function Progress(p: int, numPages: nat): Num {
    Round(Times(Ratio(p, numPages), 100.0))
  }

  /** The zoom button's label: Math.round(scale * 100). */
  function ZoomPercent(scale: Num): Num {
    Round(Times(scale, 100.0))
  }

  /**
   * On a page of the document the progress is a whole percentage between 0 and 100,
   * 100 exactly on the last page; before the document loads it is not a finite number.
   */
  lemma ProgressBounds(p: int, numPages: nat)
    ensures IsPage(p, numPages) ==> (Progress(p, numPages).Finite? &&
      0.0 <= Progress(p, numPages).r <= 100.0 && Progress(p, numPages).r.Floor as real == Progress(p, numPages).r)
    ensures numPages > 0 && p == numPages ==> Progress(p, numPages) == Finite(100.0)
    ensures numPages == 0 ==> !Progress(p, numPages).Finite?
  {
    if IsPage(p, numPages) {
      var q := p as real / numPages as real * 100.0;
      assert 0.0 < q <= 100.0 by {
        assert p as real <= numPages as real;
        assert p as real / numPages as real <= 1.0;
      }
      if p == numPages {
        assert p as real / numPages as real == 1.0;
      }
    }
  }

  /** Within the zoom range the label reads 50% to 250%; the reset scale reads 100%. */
  lemma ZoomPercentBounds(scale: Num)
    ensures InZoomRange(scale) ==> ZoomPercent(scale).Finite? && 50.0 <= ZoomPercent(scale).r <= 250.0
    ensures ZoomPercent(Finite(1.0)) == Finite(100.0)
  {
  }

  /**
   * The page around the reader: the document's loading and error flags, the error
   * message, and the toasts shown.
   */
  class PdfReaderPage {
    const reader: PdfReader
    var isLoading: bool
    var hasError: bool
    var errorMessage: string
    var toasts: seq<(string, string)>

    predicate Valid()
      reads this, reader
    {
      reader.Valid()
    }

    /** Mounting: loading, no error, no message. */
    constructor (reader: PdfReader)
      requires reader.Valid()
      ensures Valid() && this.reader == reader
      ensures isLoading && !hasError && errorMessage == "" && toasts == []
    {
      this.reader := reader;
      isLoading, hasError, errorMessage, toasts := true, false, "", [];
    }

    /** The loading indicator shows while loading, unless there is an error. */
    predicate ShowsLoading()
      reads this
    {
      isLoading && !hasError
    }

    /** The document, and so its load callbacks, exist only while there is no error. */
    predicate RendersDocument()
      reads this
    {
      !hasError
    }

    /** The page controls show in single mode once the document has pages. */
    predicate ShowsPageControls()
      reads this, reader
    {
      reader.mode == Single && reader.numPages > 0
    }

    predicate PrevDisabled()
      reads this, reader
    {
      reader.pageNumber <= 1
    }

    predicate NextDisabled()
      reads this, reader
    {
      reader.pageNumber >= reader.numPages
    }

    predicate ZoomOutDisabled()
      reads this, reader
    {
      LessEq(reader.scale, Finite(MinScale))
    }

    predicate ZoomInDisabled()
      reads this, reader
    {
      LessEq(Finite(MaxScale), reader.scale)
    }

    /** onDocumentLoadSuccess: the page count is taken and both flags are cleared. */
    method OnLoadSuccess(n: nat)
      requires Valid() && RendersDocument()
      modifies this, reader`numPages
      ensures Valid() && reader.numPages == n
      ensures !isLoading && !hasError && errorMessage == old(errorMessage) && toasts == old(toasts)
    {
      reader.SetNumPages(n);
      isLoading := false;
      hasError := false;
    }

    /** onDocumentLoadError: the error is kept, with its message or the default one, and a toast. */
    method OnLoadError(message: string)
      requires Valid() && RendersDocument()
      modifies this
      ensures Valid() && hasError && !isLoading && !RendersDocument()
      ensures errorMessage == if message != "" then message else LoadErrorTitle
      ensures errorMessage != ""
      ensures toasts == old(toasts) + [(LoadErrorTitle, LoadErrorHint)]
    {
      hasError := true;
      isLoading := false;
      errorMessage := if message != "" then message else LoadErrorTitle;
      toasts := toasts + [(LoadErrorTitle, LoadErrorHint)];
    }

    /** The page-number input, shown in single mode only: the typed text goes to goToPage. */
    method OnPageInput(text: string)
      requires reader.mode == Single
      modifies reader`pageNumber
      ensures reader.pageNumber == match ParseInt(text)
        case Some(p) => if IsPage(p, reader.numPages) then p else old(reader.pageNumber)
        case None => old(reader.pageNumber)
    {
      var _ := reader.GoToPage(ParseInt(text), 0.0);
    }
  }

  /** Text without a digit leaves the page where it was. */
  lemma NonNumericInputIgnored(text: string, p: int, numPages: nat)
    requires forall i :: 0 <= i < |text| ==> !IsDigit(text[i])
    ensures (match ParseInt(text)
      case Some(q) => if IsPage(q, numPages) then q else p
      case None => p) == p
  {
    ParseIntWithoutDigits(text);
  }

  /**
   * An enabled page button always moves one page; an enabled zoom button always
   * changes the scale in its own direction.
   */
  lemma EnabledButtonsMove(p: int, numPages: nat, scale: Num)
    ensures p > 1 ==> PageBefore(p) == p - 1
    ensures p < numPages ==> PageAfter(p, numPages) == p + 1
    ensures scale.Finite? && !LessEq(scale, Finite(MinScale)) ==> ZoomedOut(scale).r < scale.r
    ensures scale.Finite? && !LessEq(Finite(MaxScale), scale) ==> ZoomedIn(scale).r > scale.r
  {
  }
}
