/**
 * The reader's navigation state (src/components/pdf-reader.tsx): the current page, the page
 * count and the rotation, changed by the toolbar handlers. Zoom and the iframe itself are not
 * part of this model.
 */
module PdfReader {
  import opened Wrappers
  import JsNumber

  /** The reading-progress request the component's effect sends. */
  datatype ProgressUpdate = ProgressUpdate(ebookId: string, currentPage: int, totalPages: int)

  /** The four orientations the rotate button cycles through. */
  predicate QuarterTurn(r: int) {
    r == 0 || r == 90 || r == 180 || r == 270
  }

  /** The rotation after one press of the rotate button, `(rotation + 90) % 360`. */
  function Rotated(r: int): int {
    (r + 90) % 360
  }

  /** The page count `onLoad` assumes for every document. */
  const LoadedPageCount := 10

  class Reader {
    const ebookId: string
    var currentPage: int
    var totalPages: int
    var rotation: int

    /** What every handler keeps: a page count of at least one and a quarter-turn rotation. */
    ghost predicate Valid()
      reads this
    {
      totalPages >= 1 && QuarterTurn(rotation)
    }

    /** The current page is a page of the document. */
    ghost predicate PageInRange()
      reads this
    {
      1 <= currentPage <= totalPages
    }

    /** The previous-page buttons are disabled. */
    predicate PrevDisabled()
      reads this
    {
      currentPage <= 1
    }

    /** The next-page buttons are disabled. */
    predicate NextDisabled()
      reads this
    {
      currentPage >= totalPages
    }

    /** The request the effect sends for the current state: none unless the page is positive. */
    function Progress(): Option<ProgressUpdate>
      reads this
    {
      if currentPage > 0 then Some(ProgressUpdate(ebookId, currentPage, totalPages)) else None
    }

    /**
     * Mounting with `initialPage` (the saved page, or 1). The page count starts at 1, so the
     * page is in range at mount only when `initialPage` is 1.
     */
    constructor (ebookId: string, initialPage: int)
      ensures this.ebookId == ebookId
      ensures currentPage == initialPage && totalPages == 1 && rotation == 0
      ensures Valid()
      ensures PageInRange() <==> initialPage == 1
    {
      this.ebookId := ebookId;
      currentPage := initialPage;
      totalPages := 1;
      rotation := 0;
    }

    /**
     * `handlePrevPage`: one page back unless already on page 1 or before. Returns the
     * progress request the resulting re-render sends.
     */
    method PrevPage() returns (sent: Option<ProgressUpdate>)
      requires Valid()
      modifies this
      ensures Valid()
      ensures totalPages == old(totalPages) && rotation == old(rotation)
      ensures currentPage == if old(currentPage) > 1 then old(currentPage) - 1 else old(currentPage)
      ensures currentPage == old(currentPage) <==> old(PrevDisabled())
      ensures currentPage >= 1 || currentPage == old(currentPage)
      ensures old(PageInRange()) ==> PageInRange()
      ensures sent == if old(PrevDisabled()) then None else Progress()
    {
      sent := None;
      if currentPage > 1 {
        currentPage := currentPage - 1;
        sent := Progress();
      }
    }

    /** `handleNextPage`: one page on unless already on the last page or beyond. */
    method NextPage() returns (sent: Option<ProgressUpdate>)
      requires Valid()
      modifies this
      ensures Valid()
      ensures totalPages == old(totalPages) && rotation == old(rotation)
      ensures currentPage == if old(currentPage) < old(totalPages) then old(currentPage) + 1 else old(currentPage)
      ensures currentPage == old(currentPage) <==> old(NextDisabled())
      ensures currentPage <= totalPages || currentPage == old(currentPage)
      ensures old(PageInRange()) ==> PageInRange()
      ensures sent == if old(NextDisabled()) then None else Progress()
    {
      sent := None;
      if currentPage < totalPages {
        currentPage := currentPage + 1;
        sent := Progress();
      }
    }

    /**
     * The page box's `onChange`: the typed text, read with `parseInt`, becomes the current
     * page only when it is a page of the document; anything else, `NaN` included, is ignored.
     */
    method EnterPage(text: string) returns (sent: Option<ProgressUpdate>)
      requires Valid()
      modifies this
      ensures Valid()
      ensures totalPages == old(totalPages) && rotation == old(rotation)
      ensures var page := JsNumber.ParseInt(text);
        currentPage == if page.Some? && 1 <= page.value <= totalPages then page.value else old(currentPage)
      ensures old(PageInRange()) ==> PageInRange()
      ensures sent == if currentPage != old(currentPage) then Progress() else None
    {
      sent := None;
      var page := JsNumber.ParseInt(text);
      if page.Some? && page.value >= 1 && page.value <= totalPages {
        if page.value != currentPage {
          sent := Some(ProgressUpdate(ebookId, page.value, totalPages));
        }
        currentPage := page.value;
      }
    }

    /**
     * The iframe's `onLoad`: the page count becomes 10 and the current page is left alone,
     * so a saved page beyond 10 is then out of range.
     */
    method LoadFrame() returns (sent: Option<ProgressUpdate>)
      requires Valid()
      modifies this
      ensures Valid()
      ensures totalPages == LoadedPageCount
      ensures currentPage == old(currentPage) && rotation == old(rotation)
      ensures PageInRange() <==> 1 <= currentPage <= LoadedPageCount
      ensures sent == if old(totalPages) != LoadedPageCount then Progress() else None
    {
      sent := None;
      if totalPages != LoadedPageCount {
        totalPages := LoadedPageCount;
        sent := Progress();
      }
    }

    /** `handleRotate`: a quarter turn clockwise; the page and the progress are untouched. */
    method Rotate()
      requires Valid()
      modifies this
      ensures Valid()
      ensures rotation == Rotated(old(rotation))
      ensures currentPage == old(currentPage) && totalPages == old(totalPages)
    {
      rotation := (rotation + 90) % 360;
    }
  }

  // ---------------------------------------------------------------------------------------
  // Properties

  /** The rotation stays one of the four orientations. */
  lemma RotationStaysQuarter(r: int)
    requires QuarterTurn(r)
    ensures QuarterTurn(Rotated(r))
  {
  }

  /** Four presses bring any orientation back to where it started. */
  lemma FullTurn(r: int)
    requires 0 <= r < 360
    ensures Rotated(Rotated(Rotated(Rotated(r)))) == r
  {
  }

  /**
   * A reader driven by the toolbar: typing "9" is refused while the document counts one
   * page and accepted once the frame has loaded, and the next-page button stops at page 10.
   */
  method Session(ebookId: string) returns (typedBeforeLoad: int, typedAfterLoad: int, stepped: int)
    ensures typedBeforeLoad == 1 && typedAfterLoad == 9 && stepped == 10
  {
    var r := new Reader(ebookId, 1);
    var _ := r.EnterPage("9");
    typedBeforeLoad := r.currentPage;
    var _ := r.LoadFrame();
    JsNumber.ParseDecimal(9, []);
    assert JsNumber.DecimalString(9) + [] == "9";
    var _ := r.EnterPage("9");
    typedAfterLoad := r.currentPage;
    var _ := r.NextPage();
    var _ := r.NextPage();
    stepped := r.currentPage;
  }
}
