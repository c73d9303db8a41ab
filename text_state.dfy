/**
 * The paged text view of the desktop front end (`text.ts`): a long text is
 * shown one page of 5000 characters at a time, and the page can only be
 * moved within the pages the text has.
 */
module Text {
  import opened Wrappers
  import opened Pages

  const PAGE_SIZE: nat := 5000

  /** `calculatePages`: the number of pages the text fills, the last one possibly short. */
  function CalculatePages(text: string): (n: nat)
    ensures n * PAGE_SIZE >= |text|
    ensures n > 0 ==> (n - 1) * PAGE_SIZE < |text|
    ensures n == 0 <==> text == []
  {
    CeilDiv(|text|, PAGE_SIZE)
  }

  /**
   * A bound of `String.prototype.slice`: a negative bound counts back from
   * the end, and either kind is clamped to the string.
   */
  function SliceIndex(i: int, len: nat): (k: nat)
    ensures k <= len
    ensures 0 <= i <= len ==> k == i
  {
    if i < 0 then Max(len + i, 0) else Min(i, len)
  }

  /** `text.slice(start, end)`: empty when the clamped end is not after the clamped start. */
  function Slice(text: string, start: int, end: int): (r: string)
    ensures start <= end ==> |r| <= end - start
  {
    var a, b := SliceIndex(start, |text|), SliceIndex(end, |text|);
    if a < b then text[a..b] else []
  }

  /** `getPageContent`: the characters from `(page - 1) * 5000` up to `page * 5000`. */
  function GetPageContent(text: string, page: int): (r: string)
    ensures |r| <= PAGE_SIZE
    ensures page >= 1 ==> r == text[Min((page - 1) * PAGE_SIZE, |text|)..Min(page * PAGE_SIZE, |text|)]
  {
    Slice(text, (page - 1) * PAGE_SIZE, page * PAGE_SIZE)
  }

  /** A page between the first and the last shows part of a non-empty text. */
  lemma PageInRange(text: string, page: int)
    requires 1 <= page <= CalculatePages(text)
    ensures GetPageContent(text, page) != []
    ensures |GetPageContent(text, page)| == Min(PAGE_SIZE, |text| - (page - 1) * PAGE_SIZE)
  {
    PageStartInside(|text|, PAGE_SIZE, page);
  }

  /** Pages 1 to `k`, one after the other. */
  function FirstPages(text: string, k: nat): string {
    if k == 0 then [] else FirstPages(text, k - 1) + GetPageContent(text, k)
  }

  /** The first `k` pages are the first `k * 5000` characters, or the whole text. */
  lemma {:induction false} FirstPagesPrefix(text: string, k: nat)
    ensures FirstPages(text, k) == text[..Min(k * PAGE_SIZE, |text|)]
  {
    if k > 0 {
      FirstPagesPrefix(text, k - 1);
      var a, b := Min((k - 1) * PAGE_SIZE, |text|), Min(k * PAGE_SIZE, |text|);
      assert text[..a] + text[a..b] == text[..b];
    }
  }

  /** Reading every page in order gives back the whole text: no character is lost or repeated. */
  lemma PagesCoverText(text: string)
    ensures FirstPages(text, CalculatePages(text)) == text
  {
    FirstPagesPrefix(text, CalculatePages(text));
    assert text[..|text|] == text;
  }

  /**
   * The state behind the paged view (`TextState`): the whole text, the page
   * on screen and the page count. `pageInfo.pageSize` is `pageSize`.
   */
  class TextState {
    var fullContent: string
    var currentContent: string
    var currentPage: int
    var totalPages: int
    var pageSize: int

    /**
     * What `updateTextState` and `goToPage` keep: at least one page, the
     * current page among them, and the current page on screen.
     */
    predicate Valid()
      reads this
    {
      && pageSize == PAGE_SIZE
      && totalPages == Max(1, CalculatePages(fullContent))
      && 1 <= currentPage <= totalPages
      && currentContent == GetPageContent(fullContent, currentPage)
    }

    /** `createTextState`: no text, on page 1 of 1. */
    constructor ()
      ensures fullContent == [] && currentContent == []
      ensures currentPage == 1 && totalPages == 1 && pageSize == PAGE_SIZE
      ensures Valid()
    {
      fullContent := [];
      currentContent := [];
      currentPage := 1;
      totalPages := 1;
      pageSize := PAGE_SIZE;
    }

    /**
     * `updateTextState`: a full update replaces the text and goes back to
     * page 1; any update then refreshes the page on screen. A partial update
     * ignores `newContent`.
     */
    method UpdateTextState(newContent: string, isFullUpdate: bool)
      modifies this
      ensures pageSize == old(pageSize)
      ensures isFullUpdate ==>
        && fullContent == newContent
        && totalPages == Max(1, CalculatePages(newContent))
        && currentPage == 1
      ensures !isFullUpdate ==>
        && fullContent == old(fullContent)
        && totalPages == old(totalPages)
        && currentPage == old(currentPage)
      ensures currentContent == GetPageContent(fullContent, currentPage)
      ensures isFullUpdate && pageSize == PAGE_SIZE ==> Valid()
      ensures old(Valid()) ==> Valid()
    {
      if isFullUpdate {
        fullContent := newContent;
        totalPages := Max(1, CalculatePages(newContent));
        currentPage := 1;
      }
      currentContent := GetPageContent(fullContent, currentPage);
    }

    /** `goToPage`: a page outside 1 to `totalPages` is ignored; any other is shown. */
    method GoToPage(page: int)
      modifies this
      ensures page < 1 || page > old(totalPages) ==> unchanged(this)
      ensures 1 <= page <= old(totalPages) ==>
        && currentPage == page
        && currentContent == GetPageContent(fullContent, page)
        && fullContent == old(fullContent)
        && totalPages == old(totalPages)
        && pageSize == old(pageSize)
      ensures old(Valid()) ==> Valid()
    {
      if page < 1 || page > totalPages {
        return;
      }
      currentPage := page;
      currentContent := GetPageContent(fullContent, page);
    }
  }

  /**
   * In a valid state the screen holds at most one page, and it is empty only
   * when the whole text is.
   */
  lemma ValidScreen(text: string, page: int, shown: string)
    requires 1 <= page <= Max(1, CalculatePages(text))
    requires shown == GetPageContent(text, page)
    ensures |shown| <= PAGE_SIZE
    ensures shown == [] <==> text == []
  {
    if text != [] {
      PageInRange(text, page);
    }
  }
}
