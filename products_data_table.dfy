/**
 * app/products/data-table.tsx: the debounced search box, the product details
 * dialog flags, the "Showing X to Y of Z" text and the pagination buttons.
 * The debounce timer is a single pending slot holding the value it will
 * search for; the timer firing is the explicit step `FireTimeout`. The table's
 * `onSearchChange` calls are recorded in `searches`, in order.
 */
module ProductsDataTable {
  import opened Wrappers
  import opened Text

  const MinSearchLength: nat := 2

  /** The text of `Search must be at least ${MIN_SEARCH_LENGTH} characters`. */
  const MinLengthError: string := "Search must be at least 2 characters"

  lemma MinLengthErrorText()
    ensures MinLengthError == "Search must be at least " + NatToString(MinSearchLength) + " characters"
  {
    assert NatToString(MinSearchLength) == "2";
  }

  class SearchBox {
    var searchValue: string
    var searchError: Option<string>
    var isSearching: bool
    /** `searchTimeoutRef.current`: the value a scheduled search will send. */
    var pending: Option<string>
    /** Every value passed to `onSearchChange`, oldest first. */
    var searches: seq<string>

    /**
     * Only inputs of the minimum length are ever scheduled, and the spinner is
     * on whenever a search is waiting.
     */
    predicate Valid()
      reads this
    {
      pending.Some? ==> JsLength(pending.value) >= MinSearchLength && isSearching
    }

    /**
     * The box's part of the condition under which the X that calls
     * `handleClearSearch` is rendered in place of the spinner, the error icon
     * and the search icon; the table's `isLoading` hides it as well.
     */
    predicate ClearButtonShown()
      reads this
    {
      !isSearching && searchError.None? && searchValue != ""
    }

    /** The spinner is on exactly while a search is waiting to be sent. */
    predicate SpinnerMatchesPending()
      reads this
    {
      isSearching <==> pending.Some?
    }

    /** A waiting search is always for the text in the box. */
    predicate PendingMatchesValue()
      reads this
    {
      pending.Some? ==> pending.value == searchValue
    }

    constructor ()
      ensures searchValue == "" && searchError == None && !isSearching
      ensures pending == None && searches == []
      ensures Valid() && SpinnerMatchesPending() && PendingMatchesValue()
    {
      searchValue := "";
      searchError := None;
      isSearching := false;
      pending := None;
      searches := [];
    }

    /**
     * `handleSearchInputChange`. Every keystroke cancels the waiting search;
     * an empty box searches "" at once; a too short input shows the length
     * error and searches nothing; a long enough input turns the spinner on and
     * schedules exactly that value.
     */
    method SearchInputChange(newValue: string)
      modifies this
      ensures searchValue == newValue
      ensures newValue == "" ==>
        searchError == None && !isSearching && pending == None && searches == old(searches) + [""]
      ensures newValue != "" && JsLength(newValue) < MinSearchLength ==>
        searchError == Some(MinLengthError) && isSearching == old(isSearching)
        && pending == None && searches == old(searches)
      ensures JsLength(newValue) >= MinSearchLength ==>
        searchError == None && isSearching && pending == Some(newValue) && searches == old(searches)
      ensures Valid() && PendingMatchesValue()
    {
      searchValue := newValue;
      searchError := None;
      pending := None;
      if newValue == "" {
        searches := searches + [""];
        isSearching := false;
        return;
      }
      if JsLength(newValue) < MinSearchLength {
        searchError := Some(MinLengthError);
        return;
      }
      isSearching := true;
      pending := Some(newValue);
    }

    /**
     * The same handler with the short-input branch also turning the spinner
     * off, so nothing spins without a waiting search.
     */
    method SearchInputChangeCorrected(newValue: string)
      modifies this
      ensures searchValue == newValue
      ensures newValue == "" ==>
        searchError == None && !isSearching && pending == None && searches == old(searches) + [""]
      ensures newValue != "" && JsLength(newValue) < MinSearchLength ==>
        searchError == Some(MinLengthError) && !isSearching && pending == None && searches == old(searches)
      ensures JsLength(newValue) >= MinSearchLength ==>
        searchError == None && isSearching && pending == Some(newValue) && searches == old(searches)
      ensures Valid() && SpinnerMatchesPending() && PendingMatchesValue()
    {
      searchValue := newValue;
      searchError := None;
      pending := None;
      if newValue == "" {
        searches := searches + [""];
        isSearching := false;
        return;
      }
      if JsLength(newValue) < MinSearchLength {
        searchError := Some(MinLengthError);
        isSearching := false;
        return;
      }
      isSearching := true;
      pending := Some(newValue);
    }

    /** The debounce timer fires: the waiting value is searched and the spinner stops. */
    method FireTimeout()
      modifies this
      ensures old(pending).Some? ==>
        searches == old(searches) + [old(pending).value] && !isSearching && pending == None
      ensures old(pending).None? ==>
        searches == old(searches) && isSearching == old(isSearching) && pending == None
      ensures searchValue == old(searchValue) && searchError == old(searchError)
      ensures old(Valid()) ==> Valid()
      ensures old(SpinnerMatchesPending()) ==> SpinnerMatchesPending()
      ensures PendingMatchesValue()
    {
      if pending.Some? {
        searches := searches + [pending.value];
        isSearching := false;
        pending := None;
      }
    }

    /**
     * `handleClearSearch`, which only the X can call: empties the box, clears
     * the error, searches "" and stops the spinner. It leaves the timer slot as
     * it is, but while the X is on screen nothing is waiting.
     */
    method ClearSearch()
      requires ClearButtonShown()
      modifies this
      ensures searchValue == "" && searchError == None && !isSearching
      ensures searches == old(searches) + [""]
      ensures pending == old(pending)
      ensures old(Valid()) ==> Valid() && pending == None
    {
      searchValue := "";
      searchError := None;
      searches := searches + [""];
      isSearching := false;
    }
  }

  /** The X is never on screen while a search is waiting, since the spinner takes its place. */
  lemma NoClearWhileWaiting(box: SearchBox)
    requires box.Valid() && box.pending.Some?
    ensures !box.ClearButtonShown()
  {
  }

  /**
   * A clear made from the X is the last search: the timer has nothing left
   * to send afterwards, so the table searches "" as the box shows.
   */
  method ClearIsLastSearch(box: SearchBox)
    requires box.Valid() && box.ClearButtonShown()
    modifies box
    ensures box.searchValue == "" && box.pending == None
    ensures box.searches == old(box.searches) + [""]
  {
    box.ClearSearch();
    box.FireTimeout();
  }

  /**
   * Typing "ab" and then deleting one character leaves the spinner on with no
   * search waiting, and no later step turns it off until the next keystroke.
   */
  method StuckSpinner() returns (spinning: bool, waiting: bool, shown: string)
    ensures spinning && !waiting && shown == "a"
  {
    var box := new SearchBox();
    box.SearchInputChange("ab");
    box.SearchInputChange("a");
    box.FireTimeout();
    spinning, waiting, shown := box.isSearching, box.pending.Some?, box.searchValue;
  }

  /** With the corrected handler the same keystrokes leave the spinner off. */
  method StuckSpinnerCorrected() returns (spinning: bool, waiting: bool, shown: string)
    ensures !spinning && !waiting && shown == "a"
  {
    var box := new SearchBox();
    box.SearchInputChangeCorrected("ab");
    box.SearchInputChangeCorrected("a");
    box.FireTimeout();
    spinning, waiting, shown := box.isSearching, box.pending.Some?, box.searchValue;
  }

  // ------------------------------------------------- product details dialog

  /** The dialog state: which product was last clicked and whether the dialog is open. */
  class ProductDialog<P> {
    var selectedProduct: Option<P>
    var isModalOpen: bool

    constructor ()
      ensures selectedProduct == None && !isModalOpen
    {
      selectedProduct := None;
      isModalOpen := false;
    }

    /** `handleRowClick` */
    method RowClick(product: P)
      modifies this
      ensures selectedProduct == Some(product) && isModalOpen
    {
      selectedProduct := Some(product);
      isModalOpen := true;
    }

    /** `handleCloseModal`: closes the dialog and keeps the selection. */
    method CloseModal()
      modifies this
      ensures !isModalOpen && selectedProduct == old(selectedProduct)
    {
      isModalOpen := false;
    }
  }

  // ----------------------------------------------------- the range text

  datatype RangeText =
    | Showing(first: int, last: int, total: int)
    | LoadingProducts
    | NoProducts

  function Min(a: int, b: int): int {
    if a <= b then a else b
  }

  function Max(a: int, b: int): int {
    if a >= b then a else b
  }

  /** The text beside the search box. */
  function RangeTextFor(pageIndex: int, pageSize: int, totalItems: int, isLoading: bool): RangeText {
    if totalItems > 0 then
      Showing(pageIndex * pageSize + 1, Min((pageIndex + 1) * pageSize, totalItems), totalItems)
    else if isLoading then LoadingProducts
    else NoProducts
  }

  /**
   * With results, the range counts from the first row of the current page to
   * its last row, cut off at the total; on a page that holds rows it is a
   * non-empty range of at most one page inside 1..total. Without results the
   * text says whether a load is running.
   */
  lemma RangeTextMeaning(pageIndex: int, pageSize: int, totalItems: int, isLoading: bool)
    requires pageIndex >= 0 && pageSize > 0
    ensures var t := RangeTextFor(pageIndex, pageSize, totalItems, isLoading);
      (t.Showing? <==> totalItems > 0)
      && (t.Showing? ==>
        t.first == pageIndex * pageSize + 1 && t.total == totalItems
        && t.last <= totalItems && t.last <= (pageIndex + 1) * pageSize
        && (t.last == totalItems || t.last == (pageIndex + 1) * pageSize)
        && (pageIndex * pageSize < totalItems ==> 1 <= t.first <= t.last && t.last - t.first < pageSize))
      && (!t.Showing? ==> (t.LoadingProducts? <==> isLoading))
  {
    if totalItems > 0 {
      assert (pageIndex + 1) * pageSize == pageIndex * pageSize + pageSize;
    }
  }

  // ------------------------------------------------- pagination buttons

  /** First and Previous */
  predicate BackDisabled(pageIndex: int, isLoading: bool) {
    pageIndex == 0 || isLoading
  }

  /** Next and Last */
  predicate ForwardDisabled(pageIndex: int, pageCount: int, isLoading: bool) {
    pageIndex >= pageCount - 1 || isLoading
  }

  /** The page label: `Page {pageIndex + 1} of {Math.max(1, pageCount)}`. */
  function PageLabel(pageIndex: int, pageCount: int): (int, int) {
    (pageIndex + 1, Max(1, pageCount))
  }

  /**
   * Every enabled button asks for a page inside 0..pageCount-1: Previous for
   * the page before, Next for the page after and Last for the final page; no
   * button is enabled while loading.
   */
  lemma EnabledButtonsStayInRange(pageIndex: int, pageCount: int, isLoading: bool)
    requires 0 <= pageIndex
    ensures !BackDisabled(pageIndex, isLoading) ==> !isLoading && 0 <= pageIndex - 1 < pageIndex
    ensures !ForwardDisabled(pageIndex, pageCount, isLoading) ==>
      !isLoading && pageIndex + 1 <= pageCount - 1 && 0 <= pageCount - 1
    ensures isLoading ==> BackDisabled(pageIndex, isLoading) && ForwardDisabled(pageIndex, pageCount, isLoading)
    ensures pageCount <= 1 ==> ForwardDisabled(pageIndex, pageCount, isLoading)
  {
  }

  /** The label never shows fewer than one page, and shows the count when there is one. */
  lemma PageLabelMeaning(pageIndex: int, pageCount: int)
    ensures PageLabel(pageIndex, pageCount).0 == pageIndex + 1
    ensures PageLabel(pageIndex, pageCount).1 >= 1
    ensures pageCount >= 1 ==> PageLabel(pageIndex, pageCount).1 == pageCount
    ensures pageCount < 1 ==> PageLabel(pageIndex, pageCount).1 == 1
  {
  }

  /** The page sizes the size selector offers; choosing one asks for page 0. */
  const PageSizeOptions: seq<int> := [10, 20, 30, 40, 50]

  lemma PageSizeOptionsPositive()
    ensures forall i :: 0 <= i < |PageSizeOptions| ==> PageSizeOptions[i] > 0
  {
  }

  /** The message in an empty table. */
  function EmptyTableText(searchValue: string): string {
    if searchValue != "" then "No products found matching your search." else "No products available."
  }

  /** An empty table blames the search exactly when the box holds text. */
  lemma EmptyTableTextMeaning(searchValue: string)
    ensures EmptyTableText(searchValue) == "No products found matching your search." <==> searchValue != ""
    ensures EmptyTableText(searchValue) == "No products available." <==> searchValue == ""
  {
  }
}
