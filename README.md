# svennProductsFE: a verified model of the client logic

svennProductsFE is a Next.js client for a product-price and scraper-script backend. This
project models the logic that the client runs itself and proves it correct:

- the product table's reducer, sorting, paging and query function;
- the two debounced search boxes and their pagination and range rules;
- the script list: schedules, the run-now execution map and the logs guard;
- the schedule dialog;
- the image gallery, the retailer price comparison and the product search panel;
- the URL builders for the backend and for product search;
- the sidebar menu and the breadcrumb;
- credential sign-in with the token and session callbacks;
- the warehouse-scripts hook;
- the MariaDB adapter of the authentication library.

There is one Dafny module per source file. State that the source keeps in React state
or in argument objects is a class field, and its handlers are methods with `modifies`
clauses. Pure expressions are functions, and the promises the code makes are lemmas
about them.

Helper modules:
- `Wrappers`: `Option` and `Outcome`, where `Outcome` is a value or a thrown error with an
  optional message. It also holds the `error instanceof Error ? message : fallback` rule and
  the toast records.
- `Text`: prefixes and suffixes, `join`, one-character `split`, decimal numbers,
  `parseInt`, and JavaScript's `length`, which counts UTF-16 code units (`JsLength`). Every
  minimum-length rule of the search boxes and queries is stated with `JsLength`.
- `FormQuery`: `URLSearchParams` serialization as the WHATWG URL standard defines the
  application/x-www-form-urlencoded serializer (UTF-8, percent-escapes, `+` for a space),
  and the matching parser. `FormQuery.ParseSerialize` proves that parsing a serialized
  parameter list gives the list back in order.
- `Config`'s `ParseRoute`: reads a URL under the base back into path segments and query
  parameters. It is the reference against which every URL builder is proved.
- `Types`: the records of lib/types.ts.

Everything the code awaits is a parameter of the method that awaits it: fetch responses,
the rows a query returns, fresh UUIDs and the current time. Where the code shows a state
while a request is outstanding (loading on), the handler is split into a `Begin…` and a
`Finish…` method. The debounce timer is a pending slot (`Option<string>`), and its firing is
the explicit method `FireTimeout`.

## Model

| member | source | states |
|---|---|---|
| TablePage.SetPageIndexFrame | app/products2/page.tsx:31-32 | SET_PAGE_INDEX sets the page index to its payload; page size, sorting and search term stay as they were |
| TablePage.ConfigurationResetsPage | app/products2/page.tsx:33-38 | SET_PAGE_SIZE, SET_SORTING and SET_SEARCH_TERM each set their own field and reset the page index to 0; the other fields are kept |
| TablePage.ResetAndDefault | app/products2/page.tsx:39-42 | RESET_PAGINATION gives the same state with page index 0; an unknown action gives the state back unchanged |
| TablePage.ReducerIdempotent | app/products2/page.tsx:29-44 | dispatching the same action twice has the effect of dispatching it once |
| TablePage.ReducerPreservesValid | app/products2/page.tsx:29-44 | one action with a valid payload keeps the page index non-negative and the page size positive |
| TablePage.ReducerPreservesValidAll | app/products2/page.tsx:29-44 | so does any sequence of such actions |
| TablePage.GetSortParamsMeaning | app/products2/page.tsx:66-86 | a sort field is sent exactly when a sort order is; both are sent exactly when the first sorting entry names a mapped column; the order is descending exactly when that entry says so; later entries never matter |
| TablePage.SortFieldMapping | app/products2/page.tsx:73-77 | base_name maps to name, median_price_all_retailers to price, retailer_count to retailer_count, and no other column maps |
| TablePage.PaginationChange | app/products2/page.tsx:128-137 | a changed page size is set and the page goes back to 0; otherwise the requested page index is set; sorting and the term are kept |
| TablePage.OffsetPages | app/products2/page.tsx:63 | the offset is non-negative; one page forward adds one page size; RESET_PAGINATION brings it to 0 |
| TablePage.CeilDivMeaning | app/products2/page.tsx:150-152 | `Math.ceil(n / d)` is the least whole number of blocks of `d` that cover `n`, and 0 only for `n = 0` |
| TablePage.PageCountMeaning | app/products2/page.tsx:150-152 | no results gives 0 pages; otherwise the count is the least number of pages that hold the total |
| TablePage.TotalItemsMeaning | app/products2/page.tsx:193 | the table's total is the response's total, and it is 0 exactly when the page count is 0 |
| TablePage.QueryFnMeaning | app/products2/page.tsx:100-122 | a term of JavaScript length 1 gets an immediate empty first page (no items, total 0, offset 0, no more); any other term is requested with the state's page size, offset and mapped sort; an empty term sends no `q` parameter |
| TablePage.EnabledQueryRequests | app/products2/page.tsx:123 | whenever the query is enabled it makes a request |
| TablePage.ErrorBannerMeaning | app/products2/page.tsx:170-175 | the error banner appears exactly for a failed query on a fetchable term; it shows the error's message, or the fallback text when the message is empty |
| ProductsDataTable.MinLengthErrorText | app/products/data-table.tsx:94 | the length error names the minimum of 2 characters |
| Text.JsLengthAstral | app/products/data-table.tsx:93 | a character outside the Basic Multilingual Plane has JavaScript length 2, so one emoji already meets the minimum of 2 |
| Text.JsLengthBmp | app/products/data-table.tsx:93 | for text inside the Basic Multilingual Plane, JavaScript's length is the number of characters |
| ProductsDataTable.SearchBox.SearchInputChange | app/products/data-table.tsx:75-106 | each keystroke cancels the waiting search and clears the error; an empty box searches "" at once and stops the spinner; an input of JavaScript length 1 shows the length error and schedules nothing; a longer input turns the spinner on and schedules exactly that value; the same handler is app/products2/data-table.tsx:68-99 |
| ProductsDataTable.SearchBox.FireTimeout | app/products/data-table.tsx:101-104 | the timer firing searches the waiting value and stops the spinner; with nothing waiting nothing happens; the invariants are kept |
| ProductsDataTable.SearchBox.ClearSearch | app/products/data-table.tsx:109-113 | only the X calls it, and the X shows only with no spinner, no error and text in the box (lines 202-211); clearing empties the box, clears the error, searches "" and stops the spinner; it leaves the timer slot as it was, which is then empty, so the invariant is kept |
| ProductsDataTable.SearchBox.SearchInputChangeCorrected | app/products/data-table.tsx:93-96 | the keystroke handler with the short-input branch also stopping the spinner; the spinner is then on exactly while a search waits |
| ProductsDataTable.StuckSpinner | app/products/data-table.tsx:93-96 | typing "ab" and then deleting a character leaves the spinner on with no search waiting |
| ProductsDataTable.StuckSpinnerCorrected | app/products/data-table.tsx:93-96 | with the corrected handler the same keystrokes leave the spinner off |
| ProductsDataTable.NoClearWhileWaiting | app/products/data-table.tsx:202-211 | while a search waits the spinner is on, so the X that clears the box is not on screen |
| ProductsDataTable.ClearIsLastSearch | app/products/data-table.tsx:109-113 | a clear made from the X is the last search: the timer sends nothing afterwards, and the table's last search is "", as the box shows |
| ProductsDataTable.ProductDialog.RowClick | app/products/data-table.tsx:122-125 | a row click selects that product and opens the dialog |
| ProductsDataTable.ProductDialog.CloseModal | app/products/data-table.tsx:128-130 | closing only closes the dialog; the selection is kept |
| ProductsDataTable.RangeTextMeaning | app/products/data-table.tsx:223-231 | with results the range runs from the page's first row to its last row, capped at the total, and is at most one page long; without results the text says whether a load is running; products2 shows the same text (app/products2/data-table.tsx:186-194) |
| ProductsDataTable.EnabledButtonsStayInRange | app/products/data-table.tsx:292-335 | an enabled First/Previous button leads to a page index of at least 0, and an enabled Next/Last button to at most the last page; loading locks all four buttons; one page or none locks Next and Last |
| ProductsDataTable.PageLabelMeaning | app/products/data-table.tsx:307 | the label shows page index + 1 of the page count, and never fewer than one page |
| ProductsDataTable.PageSizeOptionsPositive | app/products/data-table.tsx:315 | every offered page size is positive |
| ProductsDataTable.EmptyTableTextMeaning | app/products/data-table.tsx:279 | an empty table says "No products found matching your search." exactly when the box holds text, else "No products available." |
| Products2DataTable.ButtonsLockWhileSearching | app/products2/data-table.tsx:264-298 | the four buttons follow the first table's rules with a waiting search counted as loading, so all of them are locked while a search waits |
| Products2DataTable.LabelSpinnerLocksButtons | app/products2/data-table.tsx:281-283 | the spinner beside the page label turns exactly while loading or searching, and then all four buttons are locked |
| Products2DataTable.HintMeaning | app/products2/data-table.tsx:244-250 | the "enter more characters" hint shows exactly for a non-empty value whose JavaScript length is below 2, and names the minimum 2 |
| Products2DataTable.LockedPagination | app/products2/data-table.tsx:86-89 | after "ab" and then "a", all four pagination buttons stay locked on every page |
| Products2DataTable.LockedPaginationCorrected | app/products2/data-table.tsx:86-89 | with the corrected handler the buttons follow only the page and loading state |
| ScriptList.FindScheduledJobMeaning | components/script-list.tsx:42-46 | no result exactly when no job is a schedule of the script (its script id, and a job id starting "script_"); otherwise the first such job |
| ScriptList.ManualRunsIgnored | components/script-list.tsx:44 | a job whose id lacks the "script_" prefix never changes which schedule is found |
| ScriptList.WarehouseScriptsMembers | components/script-list.tsx:48-50 | the filtered list holds exactly the catalogue's scripts of the given warehouse |
| ScriptList.WarehouseScriptsConcat | components/script-list.tsx:48-50 | filtering a concatenation concatenates the filtered parts, so the catalogue order is kept |
| ScriptList.FetchJobsUrlRoute | components/script-list.tsx:59 | the corrected jobs URL is the `/api/jobs` route with `scheduled_only=true` |
| ScriptList.FetchJobsUrlAsWrittenMisses | components/script-list.tsx:59 | the URL as written, with a function's text interpolated, is not under the API base at all |
| ScriptList.FetchJobsDefaultBaseMisses | components/script-list.tsx:59 | in particular not under the default base, for the arrow function's text |
| ScriptList.RunFailureMessageMeaning | components/script-list.tsx:97 | the failure message is never empty: the response's error, or "Script execution failed" |
| ScriptList.RecordRunMeaning | components/script-list.tsx:81-95 | a completed run is recorded under that script with its execution id, status completed and the time; any other response leaves the map as it was; other scripts' entries never change; entries stay filed under their own script |
| ScriptList.ViewLogsMeaning | components/script-list.tsx:131-143 | the logs dialog opens exactly for a script with a recorded run, and the selected script then carries that run as its last execution |
| ScriptList.RunThenViewLogs | components/script-list.tsx:81-143 | after a completed run, the script's logs button is enabled and the dialog shows that run's execution id |
| ScriptList.RowMeaning | components/script-list.tsx:159-247 | the pause/resume button exists exactly when the script has a schedule and offers to pause exactly when that schedule is enabled; the logs button is disabled exactly when no run is recorded |
| ScriptList.ScriptListView.BeginFetchJobs | components/script-list.tsx:56-59 | loading starts and the corrected scheduled-jobs URL is requested (see Findings); nothing else changes |
| ScriptList.ScriptListView.FinishFetchJobs | components/script-list.tsx:60-72 | data replaces the jobs; an error raises a toast with its message or the fallback; either way loading ends |
| ScriptList.ScriptListView.RunNow | components/script-list.tsx:75-109 | posts to the run-now route of the script; updates the map as `RecordRun` says; a completed run toasts success; a failed run toasts its message and skips the refetch; any other status refetches the jobs; a thrown error toasts and refetches nothing; the invariant is kept |
| ScriptList.ScriptListView.ToggleStatus | components/script-list.tsx:111-129 | posts to the toggle route and changes no job locally; on success the jobs are refetched and replaced; each failure toasts its own message |
| ScriptList.ScriptListView.ViewLogs | components/script-list.tsx:131-143 | without a recorded run an error toast appears and the dialog stays closed; otherwise the script with its last run is selected and the dialog opens |
| ScriptList.ScriptListView.OpenSchedule | components/script-list.tsx:224-227 | the calendar button selects the script and opens the schedule dialog, and nothing else changes |
| ScheduleModal.SubmittedExpressionMeaning | components/schedule-modal.tsx:48 | the submitted expression is the chosen one when set, else the typed one; it is empty exactly when Save is disabled; with exclusive inputs it is the one that is set |
| ScheduleModal.PredefinedEnablesSave | lib/constants.ts:3-9 | every predefined schedule is a non-empty expression, so choosing one enables Save |
| ScheduleModal.ScheduleForm.ChoosePredefined | components/schedule-modal.tsx:80-83 | choosing a predefined schedule sets it and clears the typed expression; at most one input is non-empty afterwards |
| ScheduleModal.ScheduleForm.TypeCustom | components/schedule-modal.tsx:102-105 | typing sets the custom expression and clears the choice; at most one input is non-empty afterwards |
| ScheduleModal.ScheduleForm.Submit | components/schedule-modal.tsx:40-67 | PUTs the submitted expression to `/api/jobs/{id}`; an ok response calls `onSchedule`, closes the dialog and toasts success; a non-ok response or a thrown error does neither and toasts the failure |
| ImageGallery.JsRemMeaning | components/ui/image-gallery.tsx:23 | JavaScript's `%` equals Dafny's on non-negative operands and is non-positive on negative ones |
| ImageGallery.StepsStayInRange | components/ui/image-gallery.tsx:22-28 | from an index in range, next and previous stay in range and wrap around at the ends |
| ImageGallery.StepsAreInverse | components/ui/image-gallery.tsx:22-28 | previous undoes next, and next undoes previous |
| ImageGallery.NextRepairsIndex | components/ui/image-gallery.tsx:23 | one next from any non-negative index, even one past the end, lands in range |
| ImageGallery.NextTimesMeaning | components/ui/image-gallery.tsx:23 | `k` presses of next move `k` places around the circle |
| ImageGallery.FullCircle | components/ui/image-gallery.tsx:23 | as many presses of next as there are images come back to the start |
| ImageGallery.Gallery.ShowNext | components/ui/image-gallery.tsx:22-24 | the index becomes `(i + 1) mod n`; a valid index stays valid |
| ImageGallery.Gallery.ShowPrevious | components/ui/image-gallery.tsx:26-28 | the index becomes `(i - 1 + n) mod n`; a valid index stays valid |
| ImageGallery.Gallery.DisplayMeaning | components/ui/image-gallery.tsx:43-67 | a valid gallery shows one of its images; the counter reads a position from 1 to the number of images; the buttons and the counter render exactly when there is more than one image |
| PriceComparison.SortByPricePermutes | components/products/price-comparison.tsx:33-37 | the sorted copy holds the same retailers, each as often |
| PriceComparison.SortByPriceSorted | components/products/price-comparison.tsx:33-37 | the sorted copy is ordered by average price in the chosen direction |
| PriceComparison.SortedRetailersMeaning | components/products/price-comparison.tsx:33-37 | a permutation of the retailer list, or empty when the list is missing; prices are non-decreasing in asc order and non-increasing in desc order |
| PriceComparison.FormatPriceMeaning | components/products/price-comparison.tsx:45-48 | "N/A" exactly for a missing number; otherwise a number with two decimals followed by " NOK" |
| PriceComparison.FormatPriceReadBack | components/products/price-comparison.tsx:45-48 | the price text reads back as the price: its whole part is the magnitude divided by 100, its two decimals the remainder, with the sign in front |
| PriceComparison.FormatPriceSign | components/products/price-comparison.tsx:45-48 | the price text starts with "-" exactly for a negative price, and "N/A" reads as no price |
| PriceComparison.ToggleTwice | components/products/price-comparison.tsx:81 | each press of the sort button changes the order, and two presses restore it |
| PriceComparison.PriceComparisonView.ToggleSort | components/products/price-comparison.tsx:81 | asc and desc swap; the gallery state is kept |
| PriceComparison.PriceComparisonView.ImageClick | components/products/price-comparison.tsx:39-42 | selects the clicked image and opens the gallery, which is then on screen exactly when the product has an image list (line 89) |
| PriceComparison.PriceComparisonView.CloseGallery | components/products/price-comparison.tsx:89-93 | closes the gallery, which leaves the screen, and keeps the selection and the order |
| ProductSearch.QueryRequestMeaning | components/products/product-search.tsx:41-54 | a request is made exactly for a term whose JavaScript length is at least 2; the URL reads back as the search route with exactly `q` = the term, `limit` = 10 and `offset`, in that order |
| ProductSearch.QueryParamValues | components/products/product-search.tsx:43-47 | the limit parameter reads back as 10 and the offset as the state's offset |
| ProductSearch.QueryResultMeaning | components/products/product-search.tsx:51 | an ok response gives its body; any other gives the error "Search failed" |
| ProductSearch.ProductSearchView.SetSearchTerm | components/products/product-search.tsx:58-60 | the term is set; a changed term resets the offset to 0, and the same term submitted again keeps the offset; the offset stays a whole number of pages |
| ProductSearch.ProductSearchView.LoadMore | components/products/product-search.tsx:113 | "Load More" adds the limit of 10 to the offset and keeps the term; the offset stays a whole number of pages |
| ProductSearch.LoadMoreMeaning | components/products/product-search.tsx:109-114 | the button is shown exactly when more results exist, and locked exactly while fetching |
| ProductSearch.SelectedCodeMeaning | components/products/product-search.tsx:83 | a card's click passes its NOBB code exactly when it has a non-empty one |
| ProductSearch.ResultsAreaMeaning | components/products/product-search.tsx:69-130 | "No results found" shows exactly for a finished search on a fetchable term that found nothing; the list shows exactly when loading is done and there are items |
| ProductSearchApi.SearchUrl.Append | lib/api/product-search.ts:39-43 | `append` adds the parameter at the end and changes nothing else |
| ProductSearchApi.BuildUrl | lib/api/product-search.ts:36-43 | the sequence of conditional appends builds exactly `SearchUrlFor` |
| ProductSearchApi.AppendPaging | lib/api/product-search.ts:40-41 | `limit` and `offset` are appended in that order, each only when defined |
| ProductSearchApi.AppendSorting | lib/api/product-search.ts:42-43 | `sort_by` and `sort_order` are appended in that order, each only when defined |
| ProductSearchApi.SearchProducts | lib/api/product-search.ts:35-71 | requests `SearchUrlFor`; a non-ok response throws "Failed to search products: " with the status code and its text; an ok response returns the parsed body; a thrown error passes through |
| ProductSearchApi.SearchQueryFields | lib/api/product-search.ts:39-43 | each of q, limit, offset, sort_by and sort_order reads back from the query exactly when it was defined, with its value |
| ProductSearchApi.SearchQueryOrder | lib/api/product-search.ts:39-43 | the parameters appear in the fixed order q, limit, offset, sort_by, sort_order, each at most once |
| ProductSearchApi.EmptyQuerySent | lib/api/product-search.ts:39 | a defined but empty `q` is still sent, as a leading `q=` |
| ProductSearchApi.SearchUrlRoute | lib/api/product-search.ts:36-43 | the URL is the `/api/products/search` route under the base, carrying exactly the appended parameters |
| ProductSearchApi.SearchUrlBare | lib/api/product-search.ts:36 | with no parameter defined the URL has no query at all |
| Config.ApiBaseUrl | lib/config.ts:3-4 | the base URL is the environment value when it is set and non-empty, else `http://localhost:8000` |
| Config.JobsRoute | lib/config.ts:7-8 | `jobs()` is the `/api/jobs` route, with the single parameter `scheduled_only=true` exactly when asked for |
| Config.StaticRoutes | lib/config.ts:9-10 | `scripts` is the `/api/scripts` route and `warehouses` the `/api/warehouses` route |
| Config.WarehouseScriptsRoute | lib/config.ts:11-12 | the warehouse id is the third path segment, before `scripts` |
| Config.RunScriptRoute | lib/config.ts:13-14 | a script id that is one segment is the third segment of `/api/run_now` |
| Config.ScriptExecutionStatusRoute | lib/config.ts:15-16 | the execution id is the fourth segment, between `execution` and `status` |
| Config.ToggleJobRoute | lib/config.ts:17-18 | the job id is the third segment, before `toggle` |
| Config.JobLogsRoute | lib/config.ts:19-20 | the execution id is the fourth segment, between `executions` and `logs` |
| Config.ScriptLastExecutionRoute | lib/config.ts:21-22 | the script's logs route, always with `skip=0` and `limit=1` |
| Config.ScriptLogsRoute | lib/config.ts:23-29 | the script's logs route; `skip` and then `limit` are parameters, each exactly when given and reading back as its number |
| Config.ScriptLogsQueryMark | lib/config.ts:27-28 | the URL holds a `?` exactly when `skip` or `limit` is given |
| Config.ParseBuiltRoute | lib/config.ts:6-29 | any URL built from the base, one-segment path pieces and a parameter list reads back as those segments and parameters |
| FormQuery.ParseSerialize | lib/config.ts:24-27 | parsing a `URLSearchParams` string gives back exactly the appended list, in order |
| FormQuery.FormRoundTrip | lib/config.ts:25-26 | decoding an encoded name or value gives it back, for every string |
| FormQuery.FormEncodeInt | lib/config.ts:25-26 | a decimal number is written into a query string unchanged |
| FormQuery.SerializeEmpty | lib/config.ts:27-28 | the query string is empty exactly when nothing was appended |
| MenuList.MenuStructure | lib/menu-list.ts:29-83 | one "Platform" group holding Products, Spider Scripts and Settings in that order, with 1, 2 and 2 submenus |
| MenuList.MenuActiveByPrefix | lib/menu-list.ts:28-85 | a top-level entry is active exactly when the pathname starts with its href |
| MenuList.SubmenuActiveByEquality | lib/menu-list.ts:28-85 | a submenu entry is active exactly when the pathname equals its href |
| MenuList.ActiveSubmenuActiveParent | lib/menu-list.ts:37-80 | an active submenu entry always has an active parent |
| MenuList.AtMostOneActiveSubmenu | lib/menu-list.ts:40-79 | no two submenu entries are active for the same pathname |
| Navigation.BreadcrumbMeaning | components/navigation.tsx:22-25 | the header renders nothing exactly on paths starting with `/login` or `/signup`, including any continuation of them |
| Navigation.NamedPages | components/navigation.tsx:29-30 | `/` is named "Scripts" and `/products` "View Products" |
| Navigation.GetPageNameMeaning | components/navigation.tsx:28-32 | any other path is named by the text after its last `/`: a suffix of the path with no `/` in it, preceded by `/` or the whole path; a trailing slash gives "" |
| Navigation.SplitLast | components/navigation.tsx:31 | the last piece of `split('/')` is the suffix after the last separator |
| Auth.FindByEmailMeaning | app/auth.ts:54 | `find` gives nothing exactly when no user has the email, else the first user who has it |
| Auth.AuthorizeMeaning | app/auth.ts:50-65 | a missing or empty email or password is refused; sign-in succeeds exactly when the first user with the email has the submitted password; the result is that user's id, name and email |
| Auth.DemoUsers | app/auth.ts:23-36 | the admin account signs in with its own password and not with any other |
| Auth.MaxAgeIsThirtyDays | app/auth.ts:90 | the session lifetime is 2592000 seconds, which is 30 days |
| Auth.Token.Jwt | app/auth.ts:74-79 | a signing-in user's id goes into the token; without a user the id is kept; the other claims never change |
| Auth.Session.SessionCallback | app/auth.ts:80-85 | the token's id is copied into the session's user, when there is one, and its other fields are kept |
| Auth.SignIn | app/auth.ts:50-85 | a whole sign-in: the accepted user's id reaches the session's user through the token, and a refused sign-in gives no session user |
| WarehouseScriptsHook.ScriptsHook.BeginFetch | hooks/use-warehouse-scripts.ts:13-20 | without a warehouse (null or 0) the list empties and nothing is requested, with loading and error untouched; otherwise that warehouse's scripts are requested and loading starts |
| WarehouseScriptsHook.ScriptsHook.FinishFetch | hooks/use-warehouse-scripts.ts:21-29 | data replaces the list and clears the error; an error empties the list and records its message or "Failed to fetch scripts"; loading always ends |
| WarehouseScriptsHook.ScriptsHook.Mutate | hooks/use-warehouse-scripts.ts:36-42 | a given list, even an empty one, replaces the scripts without a request; no list refetches |
| WarehouseScriptsHook.FetchOnce | hooks/use-warehouse-scripts.ts:13-30 | a whole fetch from a fresh hook: the request names the warehouse's route; afterwards loading is off and the error is set exactly when the fetch failed |
| MariaDbAdapter.FirstOrNull | lib/auth/mariadb-adapter.ts:40 | no row gives `null`; otherwise the first row |
| MariaDbAdapter.Adapter.CreateUser | lib/auth/mariadb-adapter.ts:16-32 | inserts the user under the fresh id, sending an empty image as NULL; returns role "user", not verified |
| MariaDbAdapter.Adapter.GetUser | lib/auth/mariadb-adapter.ts:35-41 | selects by id and returns the first row or null |
| MariaDbAdapter.Adapter.GetUserByEmail | lib/auth/mariadb-adapter.ts:44-50 | selects by email and returns the first row or null |
| MariaDbAdapter.Adapter.GetUserByAccount | lib/auth/mariadb-adapter.ts:53-62 | selects through the accounts join by provider and account id; returns the first row or null |
| MariaDbAdapter.FilterDefined | lib/auth/mariadb-adapter.ts:69 | the fields kept are exactly the keys whose value is defined, in key order |
| MariaDbAdapter.UpdateUserQueryMeaning | lib/auth/mariadb-adapter.ts:69-79 | no statement exactly when every field is undefined; otherwise the values are the defined fields' values in the same order, followed by the id |
| MariaDbAdapter.UpdateUserPlaceholders | lib/auth/mariadb-adapter.ts:73-79 | the UPDATE has as many `?` placeholders as it has parameters |
| MariaDbAdapter.AssignmentsCount | lib/auth/mariadb-adapter.ts:73 | the SET clause holds one placeholder per field |
| MariaDbAdapter.Adapter.UpdateUser | lib/auth/mariadb-adapter.ts:65-87 | with no defined field nothing is sent and the argument is returned; otherwise the UPDATE and then the re-reading SELECT are sent, and the first row read back is returned |
| MariaDbAdapter.Adapter.DeleteUser | lib/auth/mariadb-adapter.ts:90-92 | deletes the user by id |
| MariaDbAdapter.AccountParamsMeaning | lib/auth/mariadb-adapter.ts:98-116 | twelve parameters, one per column; the account's identity is sent as given; each of the six token fields is sent as its text, or as NULL exactly when it is absent or empty; the expiry is its number, or NULL exactly when it is missing or zero |
| MariaDbAdapter.Adapter.LinkAccount | lib/auth/mariadb-adapter.ts:95-120 | inserts the account under the fresh id and returns the account |
| MariaDbAdapter.Adapter.UnlinkAccount | lib/auth/mariadb-adapter.ts:123-128 | deletes the account by provider and account id |
| MariaDbAdapter.ExpiryTextMeaning | lib/auth/mariadb-adapter.ts:136 | the stored expiry is the ISO date and the time to the second, joined by a space; the fraction and the `Z` are cut off |
| MariaDbAdapter.Adapter.CreateSession | lib/auth/mariadb-adapter.ts:131-145 | inserts the session with the expiry in database form and returns it with the original expiry |
| MariaDbAdapter.Adapter.GetSessionAndUser | lib/auth/mariadb-adapter.ts:148-167 | null when no session has the token (and then the user is not looked up) or when its user is missing; otherwise the first session row and its user's first row |
| MariaDbAdapter.Adapter.UpdateSession | lib/auth/mariadb-adapter.ts:170-197 | both columns when the expiry and a non-empty user id are given, one column when only one is given, a plain SELECT with neither; the session is then re-read and its first row returned |
| MariaDbAdapter.Adapter.DeleteSession | lib/auth/mariadb-adapter.ts:200-202 | deletes the session by token |

## Left out

- Network and database I/O (`fetch`, `executeQuery`, `randomUUID`, `new Date()`): their results are method parameters, and the statements sent are recorded in `executed`.
- The 500 ms debounce and React's effect and render ordering: the timer is a pending slot and its firing is `FireTimeout`; the product search's offset reset is part of `SetSearchTerm`, and happens only when the term changes, as the effect's dependency list says.
- JSX, styling, icons and focus handling (`searchInputRef.focus()`): only the flags and texts that the markup reads are modelled; toasts are recorded as title, description and variant.
- Floating point: prices are whole numbers of hundredths, and `toFixed(2)` is exact on them; a non-number price is `None`.
- Locale formatting (`toLocaleString` of the last-run time): not modelled.
- `SCRIPTS` is imported from lib/constants.ts, which does not define it: the script catalogue is a parameter of the warehouse filter.
- ScriptList's prop is `warehouse` (components/script-list.tsx:28), while app/dashboard/page.tsx:82 and app/scripts/page.tsx:49 pass `warehouseId`: the filter takes the prop as the component declares it.
- The schedule dialog PUTs to the relative path `/api/jobs/{id}` with the raw expression and no validation. The model follows this code, not a POST/PUT with validation.
- bcrypt, JWT signing and next-auth itself (lib/auth/password-utils.ts, app/api/auth/login/route.ts) are foreign libraries: only the callbacks' assignments are modelled.
- SQL text that the source spreads over several lines is written on one line, whitespace normalised.
- `userData[key]` on a plain object would also see inherited prototype keys: the model's user data is an association list holding only its own fields.
- MariaDbAdapter.Adapter.UpdateUser: when the re-read finds no row the source returns `undefined`, which the model writes as `None`, like the other lookups.
- TablePage.PageCountMeaning: requires a positive page size. With size 0 the source's `Math.ceil(total / 0)` is `Infinity`, and the reducer's valid states never have size 0.
- ImageGallery.Gallery.ShowNext: requires at least one image. With none, the source's `% 0` is `NaN`, and the buttons are not rendered then.
- ImageGallery.Gallery.ShowPrevious: requires at least one image, for the same reason.
- Config.RunScriptRoute: stated for ids that are one path segment, without `/` or `?`. The same holds for the other id routes; an id holding those characters is not escaped by the source and reads back differently.
- ProductSearchApi.SearchProducts: the base is taken to be an absolute URL in canonical form. `new URL` (lib/api/product-search.ts:36, outside the `try`) throws a TypeError on a relative base and would also lower-case the scheme and host and drop a default port, which the model's text concatenation does not do. The same holds for ProductSearchApi.BuildUrl and ProductSearchApi.SearchUrlRoute.
- ProductSearchApi.SearchProducts: the parsed body is taken to be an object. A JSON `null` body makes the logging line's `data.total` (line 59) throw a TypeError that the `catch` rethrows; the model returns the body instead.
- MariaDbAdapter.Adapter: only successful queries are modelled. A rejected `executeQuery` (lib/db.ts rethrows every database error) propagates out of the adapter method, and no later statement of that method is sent; the model always goes on. An `undefined` bind value, which mysql2 rejects, is sent as NULL like `null` (for example `createUser` with no name).
- Text.IntToString: writes plain decimal digits. JavaScript's `toString` switches to exponent form from 1e21 on; the numbers the code converts (page sizes, offsets, ids, status codes) are taken to stay below that.
- Status polling, cron validation and run-concurrency guards are absent from the source and not modelled.

## Findings

| source | as written | input that shows it | evidently intended | confidence | as-written member | corrected member |
|---|---|---|---|---|---|---|
| components/script-list.tsx:59 | interpolates `API_ROUTES.jobs`, a function, into the URL template | any call of `fetchJobs`: the text becomes the arrow function's source followed by `?scheduled_only=true` | `API_ROUTES.jobs({ scheduledOnly: true })`, the `/api/jobs?scheduled_only=true` route | high, not executed | ScriptList.FetchJobsUrlAsWrittenMisses | ScriptList.FetchJobsUrlRoute |
| app/products/data-table.tsx:93-96 | the short-input branch returns without turning off the spinner that a longer input turned on | type "ab", then delete one character: the spinner stays on with no search waiting | the spinner goes off when no search is waiting | high, not executed | ProductsDataTable.StuckSpinner | ProductsDataTable.StuckSpinnerCorrected |
| app/products2/data-table.tsx:86-89 | the same short-input branch; here the spinner also locks the four pagination buttons | type "ab", then delete one character: every pagination button stays disabled | the buttons follow only the page and loading state | high, not executed | Products2DataTable.LockedPagination | Products2DataTable.LockedPaginationCorrected |
