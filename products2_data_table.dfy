/**
 * app/products2/data-table.tsx: the same debounced search box as the first
 * product table (`ProductsDataTable.SearchBox`, whose handler is identical),
 * with pagination buttons that are also locked while a search is scheduled,
 * a loading indicator beside the page label, and a minimum-length hint in an
 * empty table.
 */
module Products2DataTable {
  import opened Text
  import opened ProductsDataTable

  /** First and Previous */
  predicate BackDisabled2(pageIndex: int, isLoading: bool, isSearching: bool) {
    pageIndex == 0 || isLoading || isSearching
  }

  /** Next and Last */
  predicate ForwardDisabled2(pageIndex: int, pageCount: int, isLoading: bool, isSearching: bool) {
    pageIndex >= pageCount - 1 || isLoading || isSearching
  }

  /**
   * The buttons follow the first table's rules with the search spinner as a
   * second kind of loading, so every button is locked while a search is
   * scheduled, and an enabled button still asks for a page in range.
   */
  lemma ButtonsLockWhileSearching(pageIndex: int, pageCount: int, isLoading: bool, isSearching: bool)
    requires 0 <= pageIndex
    ensures BackDisabled2(pageIndex, isLoading, isSearching) <==> BackDisabled(pageIndex, isLoading || isSearching)
    ensures ForwardDisabled2(pageIndex, pageCount, isLoading, isSearching) <==>
      ForwardDisabled(pageIndex, pageCount, isLoading || isSearching)
    ensures isSearching ==>
      BackDisabled2(pageIndex, isLoading, isSearching) && ForwardDisabled2(pageIndex, pageCount, isLoading, isSearching)
    ensures !ForwardDisabled2(pageIndex, pageCount, isLoading, isSearching) ==> pageIndex + 1 <= pageCount - 1
    ensures !BackDisabled2(pageIndex, isLoading, isSearching) ==> 0 <= pageIndex - 1
  {
    EnabledButtonsStayInRange(pageIndex, pageCount, isLoading || isSearching);
  }

  /** The spinner beside the page label. */
  predicate LabelSpinner(isLoading: bool, isSearching: bool) {
    isLoading || isSearching
  }

  /** Whenever the spinner beside the page label turns, all four buttons are locked. */
  lemma LabelSpinnerLocksButtons(pageIndex: int, pageCount: int, isLoading: bool, isSearching: bool)
    requires 0 <= pageIndex
    ensures LabelSpinner(isLoading, isSearching) <==> isLoading || isSearching
    ensures LabelSpinner(isLoading, isSearching) ==>
      BackDisabled2(pageIndex, isLoading, isSearching) && ForwardDisabled2(pageIndex, pageCount, isLoading, isSearching)
  {
  }

  datatype EmptyTableMessage = EnterMoreCharacters(minimum: nat) | NoResults

  /** The message in an empty table. */
  function EmptyTableText2(searchValue: string): EmptyTableMessage {
    if searchValue != "" && JsLength(searchValue) < MinSearchLength then EnterMoreCharacters(MinSearchLength)
    else NoResults
  }

  /** The hint shows exactly for a non-empty value shorter than the minimum, and names that minimum. */
  lemma HintMeaning(searchValue: string)
    ensures EmptyTableText2(searchValue).EnterMoreCharacters? <==> 0 < JsLength(searchValue) < MinSearchLength
    ensures EmptyTableText2(searchValue).EnterMoreCharacters? ==> EmptyTableText2(searchValue).minimum == 2
  {
  }

  /**
   * After typing "ab" and deleting one character, the spinner stays on with no
   * search waiting, so all four pagination buttons stay locked on every page.
   */
  method LockedPagination(pageIndex: int, pageCount: int, isLoading: bool)
    returns (backDisabled: bool, forwardDisabled: bool)
    ensures backDisabled && forwardDisabled
  {
    var box := new SearchBox();
    box.SearchInputChange("ab");
    box.SearchInputChange("a");
    box.FireTimeout();
    backDisabled := BackDisabled2(pageIndex, isLoading, box.isSearching);
    forwardDisabled := ForwardDisabled2(pageIndex, pageCount, isLoading, box.isSearching);
  }

  /** With the corrected handler, the same keystrokes leave the buttons as the page and loading state say. */
  method LockedPaginationCorrected(pageIndex: int, pageCount: int, isLoading: bool)
    returns (backDisabled: bool, forwardDisabled: bool)
    ensures backDisabled <==> BackDisabled(pageIndex, isLoading)
    ensures forwardDisabled <==> ForwardDisabled(pageIndex, pageCount, isLoading)
  {
    var box := new SearchBox();
    box.SearchInputChangeCorrected("ab");
    box.SearchInputChangeCorrected("a");
    box.FireTimeout();
    backDisabled := BackDisabled2(pageIndex, isLoading, box.isSearching);
    forwardDisabled := ForwardDisabled2(pageIndex, pageCount, isLoading, box.isSearching);
  }
}
