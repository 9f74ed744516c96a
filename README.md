# Sales dashboard pages, modelled in Dafny

This project models the data shaping and the handler state machines of three pages of a
Next.js sales dashboard.

- **Forecast page** (`src/app/forecast/page.tsx`). A CSV of past sales is uploaded and a
  forecast for a horizon of days is requested. The answer holds two series: `historical`
  (`ds`, `y`) and `forecast` (`ds`, `yhat`, `yhat_lower`, `yhat_upper`). The page derives
  several views from it:
  - a default history window for the horizon (90, 180 or 365 days);
  - the visible tail of the history;
  - the separator date;
  - the merged chart series, with the future actual values hidden;
  - a total that sums the rounded predictions row by row;
  - a table filtered by a case-insensitive search on the date and capped at a number of rows.

  The file picker and the forecast request update the session state: file, result, error,
  horizon, history window and loading flag.
- **Transactions home page** (`src/app/page.tsx`). Fetched transactions are sorted in
  place, newest first, and shown ten to a page with clamped Previous/Next buttons. The
  new-transaction form is guarded by a check on the trimmed buyer name, the selected
  product and the quantity. It also shows a live price preview.
- **Products page** (`src/app/products/page.tsx`). The price field keeps only digits and
  reads them as a number; 0 is shown as an empty field. A submit goes to PUT
  `/products/{id}` while an id is being edited, otherwise to POST `/products`. The
  add/edit/cancel/submit handlers drive the form state.

Files:
- `common.dfy`: the JavaScript built-ins the pages rely on: nullable values, `slice`
  index rules, `toLowerCase`, `includes`, `endsWith`, `trim`, and the subsequence relation
  that describes `filter`.
- `forecast.dfy`: module `Forecast`.
- `transactions.dfy`: module `Transactions`.
- `products.dfy`: module `Products`.

Pure projections are functions. The page state is a class whose handler methods state the
whole new state. The in-place `data.sort` is a method on an array.

Some behaviours of the code are easy to misread. The model follows the code:
- A file whose name does not end in `.csv` clears the accepted file (`setFile(null)`). It
  does not leave the previous file in place.
- `Math.round` rounds halves up, toward +∞, so -2.5 becomes -2. It does not round them
  away from zero.
- Nothing discards the answer to an older forecast request. `FinishForecast` applies
  whatever answer arrives.
- The edited product id is checked for JavaScript truthiness. An id of 0 therefore gives a
  POST to the collection, not a PUT.
- Picking a new CSV resets the horizon and the history window, but neither the table search
  term nor the number of rows shown (`src/app/forecast/page.tsx:32-37`).
- The history window follows the horizon only when the horizon value actually changes: the
  effect depends on `[forecastPeriod]` (`src/app/forecast/page.tsx:87-95`). A successful
  request for the same horizon keeps a window the user picked by hand.

## Model

| member | source | states |
|---|---|---|
| Forecast.DefaultHistoryWindow | src/app/forecast/page.tsx:87-95 | the window is 90 exactly when the horizon is at most 30, 180 exactly when it is in (30, 90], 365 exactly when it is above 90; total over all integers |
| Forecast.WindowMonotone | src/app/forecast/page.tsx:88-94 | a longer horizon never gets a shorter default window |
| Forecast.DefaultWindowMatchesDefaultPeriod | src/app/forecast/page.tsx:20-21 | the initial window 90 is what the rule gives for the initial horizon 30 |
| Forecast.VisibleHistory | src/app/forecast/page.tsx:98-105 | 9999 shows the whole history; any other n shows the suffix of length min(max(n,0), len), in original order |
| Forecast.LimitedHistorical | src/app/forecast/page.tsx:99-100 | no result gives no history; otherwise the visible history of the result |
| Forecast.SeparatorDate | src/app/forecast/page.tsx:107-110 | the separator is absent exactly when the visible history is empty, else the `ds` of its last row |
| Forecast.SeparatorIsNewestHistoricalDate | src/app/forecast/page.tsx:98-110 | a separator exists iff there is history and the window is "all" or positive, and it is then the newest historical date of the whole response |
| Forecast.ChartData | src/app/forecast/page.tsx:112-125 | no result gives []; otherwise length is visible + forecast, the visible rows tagged historical unchanged, then each forecast row tagged forecast with `y` cleared and every other field kept |
| Forecast.ChartShape | src/app/forecast/page.tsx:113-124 | no forecast-tagged row carries an actual value, and no historical row follows a forecast row |
| Forecast.SeparatorEndsHistoricalSegment | src/app/forecast/page.tsx:107-124 | the separator is the date of the last historical-tagged chart row, and the row after it is a forecast row |
| Forecast.Round | src/app/forecast/page.tsx:130 | Math.round gives the integer n with n - 1/2 <= x < n + 1/2 |
| Forecast.TotalForecast | src/app/forecast/page.tsx:128-132 | no result totals 0; otherwise the row-by-row sum of rounded predictions |
| Forecast.TotalDefinedIffAllPredicted | src/app/forecast/page.tsx:129-131 | the total is a number (not NaN) exactly when every forecast row has a `yhat` |
| Forecast.TotalOfConcat | src/app/forecast/page.tsx:129-131 | the total of two consecutive runs of rows is the sum of their totals |
| Forecast.TotalNearSumOfPredictions | src/app/forecast/page.tsx:129-131 | the sum of roundings is within |rows|/2 of the sum of the raw predictions |
| Forecast.SumOfRoundingsExample | src/app/forecast/page.tsx:130 | two rows of 1.4 total 2, while rounding their sum would give 3 |
| Forecast.FilterByDate | src/app/forecast/page.tsx:139-142 | the kept rows are an order-preserving subsequence, and a row is kept iff its lower-cased `ds` contains the lower-cased term |
| Forecast.FilterOfConcat | src/app/forecast/page.tsx:140-142 | filtering distributes over concatenation, so the filter is fixed by its one-row behaviour |
| Forecast.FilterEmptyTermKeepsAll | src/app/forecast/page.tsx:137 | the early return for an empty search agrees with filtering, which keeps every row |
| Forecast.FilteredForecast | src/app/forecast/page.tsx:135-143 | no result gives []; otherwise the rows that match the search (all rows for an empty search) |
| Forecast.SearchMatchesMonth | src/app/forecast/page.tsx:139-142 | "2025-12" matches "2025-12-25" |
| Forecast.SearchSkipsOtherMonth | src/app/forecast/page.tsx:139-142 | "2025-12" does not match "2025-11-30" |
| Forecast.SearchIgnoresCase | src/app/forecast/page.tsx:139-142 | a lower-case term finds an upper-case date part ("t00" in "…T00:00") |
| Forecast.DisplayedForecast | src/app/forecast/page.tsx:145-149 | 9999 shows all filtered rows; n >= 0 shows the first min(n, count) in order; a negative n drops rows from the end as `slice` does |
| Forecast.TableColumnAddsUpToTotal | src/app/forecast/page.tsx:128-149 | with an empty search and all rows shown, the sum of the table's rounded predictions is the displayed total |
| Forecast.DefaultHorizonScenario | src/app/forecast/page.tsx:87-125 | 400 historical and 30 forecast rows at horizon 30 give a 120-row chart whose separator is the last historical date |
| Forecast.FailureMessage | src/app/forecast/page.tsx:64-73 | a failed request reports `details`, else `error`, else "Gagal melakukan forecast"; a thrown error reports its message, else "Terjadi kesalahan saat forecast"; the message is never empty |
| Forecast.ForecastSession.constructor | src/app/forecast/page.tsx:19-27 | no file, no result, no error, not loading, horizon 30, window 90, empty search, 25 rows |
| Forecast.ForecastSession.HandleFileChange | src/app/forecast/page.tsx:29-43 | a `.csv` name in any case sets the file, clears result and error, resets horizon 30 and window 90, and makes the file effect request horizon 30; any other name sets the CSV error and clears the file; no pick changes nothing |
| Forecast.ForecastSession.StartForecast | src/app/forecast/page.tsx:45-52 | without a file only the "choose a file" error is set; otherwise loading starts and the error clears; nothing else changes |
| Forecast.ForecastSession.FinishForecast | src/app/forecast/page.tsx:64-95 | success replaces the result wholesale and sets the horizon, and the window is re-derived only if the horizon changed; failure keeps result, horizon and window and sets the failure message; loading ends |
| Forecast.ForecastSession.SetHistoryDays | src/app/forecast/page.tsx:239 | the history select sets the window |
| Forecast.ForecastSession.SetSearchTerm | src/app/forecast/page.tsx:348 | the search box sets the term |
| Forecast.ForecastSession.SetRowsPerPage | src/app/forecast/page.tsx:356 | the rows select sets the page size |
| Forecast.ForecastSession.Chart | src/app/forecast/page.tsx:112-113 | the session's chart is empty while there is no result |
| Forecast.ForecastSession.Table | src/app/forecast/page.tsx:135-149 | the table holds only forecast rows matching the search, at most `rowsPerPage` of them, and every matching row when "all" is chosen; nothing without a result |
| Forecast.SuccessfulHorizonChange | src/app/forecast/page.tsx:69-110 | after a successful request for a new horizon, the chart has min(window(horizon), history) historical rows plus all forecast rows, and the separator is the newest historical date |
| Common.Trim | src/app/page.tsx:109 | `trim` returns the middle of the name between two all-whitespace ends, and the result neither starts nor ends with whitespace |
| Common.TrimEmptyIffBlank | src/app/page.tsx:109-110 | the trimmed name is empty exactly when the name is all whitespace |
| Common.Utf16Length | src/app/page.tsx:79 | `length` counts UTF-16 code units: between |s| and 2|s|, and exactly |s| iff every character is in the Basic Multilingual Plane |
| Common.Utf16LengthOfConcat | src/app/page.tsx:79 | the code units of a joined string are those of its parts added up |
| Transactions.TotalPages | src/app/page.tsx:142 | the page count is the least number of 10-item pages that hold n items (ceil(n/10)) |
| Transactions.PaginationShownIffMoreThanOnePage | src/app/page.tsx:282 | the pager is shown exactly when there are more than 10 transactions |
| Transactions.PageSlice | src/app/page.tsx:143-146 | page p (p >= 1) is the items from (p-1)*10 to min(p*10, n) |
| Transactions.PageBounds | src/app/page.tsx:142-146 | every page from 1 to totalPages holds 1 to 10 items, and its row i is item (p-1)*10 + i |
| Transactions.FirstPagesArePrefix | src/app/page.tsx:143-146 | the first k pages laid end to end are the first min(10k, n) items |
| Transactions.PagesCoverList | src/app/page.tsx:142-146 | all pages laid end to end are exactly the whole list |
| Transactions.ShownPageNonEmpty | src/app/page.tsx:142-146 | on any reachable current page the table shows at most 10 rows, and at least one when the list is non-empty |
| Transactions.PreviousPage | src/app/page.tsx:285 | Previous goes one page back and never below 1 |
| Transactions.NextPage | src/app/page.tsx:295 | Next goes one page on and never past totalPages |
| Transactions.SortNewestFirst | src/app/page.tsx:59-61 | the array ends up newest first and is a permutation of what was fetched |
| Transactions.InsertIntoPrefix | src/app/page.tsx:59-61 | one sorting step extends the newest-first prefix by one cell, keeping the same elements |
| Transactions.CheckSubmission | src/app/page.tsx:108-120 | a submission is refused iff the buyer name is all whitespace, no product is selected, or quantity <= 0; an accepted one sends the same product and quantity with the trimmed, non-empty name |
| Transactions.PreviewTotal | src/app/page.tsx:218-220 | the preview is shown iff a product is selected and quantity > 0, and is then quantity * unit price |
| Transactions.HomePage.constructor | src/app/page.tsx:33-45 | empty list, page 1, no suggestions, no selected product, empty product query, no `product_id` in the form |
| Transactions.HomePage.Paginated | src/app/page.tsx:142-146 | the table shows 1 to 10 rows (none only for an empty list), and row i is transaction (page-1)*10 + i |
| Transactions.HomePage.FetchSucceeded | src/app/page.tsx:57-64 | the fetched array is sorted newest first in place and becomes the list (a permutation of the data), and the page resets to 1 |
| Transactions.HomePage.GoToPreviousPage | src/app/page.tsx:285 | the page becomes max(1, p-1) and stays a valid page |
| Transactions.HomePage.GoToNextPage | src/app/page.tsx:295 | the page becomes min(totalPages, p+1) and stays a valid page |
| Transactions.HomePage.SetProductQuery | src/app/page.tsx:78-82 | the query is stored, and a query shorter than 2 UTF-16 code units clears the suggestions |
| Transactions.HomePage.SelectProduct | src/app/page.tsx:101-106 | the product is selected, the form's `product_id` becomes its id, its name fills the query, and the suggestions close; the form's id stays the selected product's |
| Transactions.HomePage.Submission | src/app/page.tsx:101-120 | a submission is sent iff the name is not blank, a product is selected and quantity > 0, and its body carries the trimmed name, the selected product's id and the quantity |
| Transactions.HomePage.SubmitSucceeded | src/app/page.tsx:125-128 | after an accepted submission `reset()` clears the form's `product_id`, and the selection, the product query and the suggestions are cleared |
| Products.KeepDigits | src/app/products/page.tsx:154 | the sanitised text contains only '0'-'9', is a subsequence of the input, and is the input itself when that is all digits |
| Products.KeepDigitsOfConcat | src/app/products/page.tsx:154 | sanitising distributes over concatenation |
| Products.DecimalString | src/app/products/page.tsx:152 | a non-negative price prints as a non-empty digit string with no leading zero |
| Products.DecimalRoundTrip | src/app/products/page.tsx:152-155 | parsing the printed digits of n gives n back |
| Products.PriceFromInput | src/app/products/page.tsx:153-155 | no digits gives price 0; otherwise the decimal value of the digits; never negative |
| Products.PriceDisplay | src/app/products/page.tsx:152 | the field is empty exactly when the price is 0; otherwise it shows the price's decimal digits |
| Products.PriceDisplayRoundTrip | src/app/products/page.tsx:152-155 | re-reading what the field shows gives back the stored non-negative price |
| Products.TypingADigit | src/app/products/page.tsx:152-155 | typing digit d after the displayed price p makes the price 10p + d, including from the empty field for 0 |
| Products.SubmitTarget | src/app/products/page.tsx:53-56 | PUT to the product iff a (truthy) editing id is set, otherwise POST to the collection |
| Products.ProductsPage.constructor | src/app/products/page.tsx:14-20 | empty lists, form hidden, no editing id, empty form, empty search |
| Products.ProductsPage.FetchSucceeded | src/app/products/page.tsx:33-36 | the product list and the search results both become the fetched list |
| Products.ProductsPage.HandleEdit | src/app/products/page.tsx:79-83 | the editing id is the product's id, the form holds its name and price, and the form is shown |
| Products.ProductsPage.OpenCreateForm | src/app/products/page.tsx:124-128 | the form is shown empty with no editing id |
| Products.ProductsPage.Cancel | src/app/products/page.tsx:166 | the form is hidden and the editing id cleared; the form values are untouched |
| Products.ProductsPage.SetName | src/app/products/page.tsx:143 | the name field replaces the name and keeps the price |
| Products.ProductsPage.SetPriceInput | src/app/products/page.tsx:153-156 | the price becomes the parsed digits of the typed text (>= 0) and the name is kept |
| Products.BrowserAcceptsIff | src/app/products/page.tsx:145-158 | the browser lets the form submit exactly when the name is non-empty and the price is positive |
| Products.ProductsPage.Submit | src/app/products/page.tsx:51-77 | nothing is sent, and nothing changes, unless the browser accepts the form; otherwise the request goes to SubmitTarget(editingId) with the form as body (a non-empty name and a positive price); an accepted one hides the form, clears the id and empties the form; a refused one changes nothing |

## Left out

- Network I/O. All `fetch` calls, URL building from the configured base URL, `FormData`
  multipart bodies, JSON parsing and HTTP status codes are left out. A forecast answer is
  an input value: a parsed body, an error body with `details`/`error`, or a thrown message.
  Other fetches are modelled only through their success branch.
- Overlapping requests. Several `runForecast` calls in flight at once, and the order in
  which their answers arrive, are concurrency. `FinishForecast` applies any answer.
- The 300 ms debounced product search of the home page (`src/app/page.tsx:83-98`). It is
  timing and concurrency. Only the immediate clearing of suggestions for short queries is
  modelled.
- The transaction search box and its `search` query parameter (`src/app/page.tsx:52-55`,
  `73-75`). Both only build a request URL.
- `handleDelete` on the products page. It is a confirmation dialog, a DELETE request and a
  re-fetch, all I/O.
- Rendering: JSX, charts, `toLocaleString('id-ID')`, Tailwind classes,
  `src/app/layout.tsx`, `tailwind.config.ts` and `src/app/transactions/[id]/page.tsx`.
- Form validation on the home page. It also relies on react-hook-form's `required`/`min: 1`
  rules and on a disabled submit button (`src/app/page.tsx:175`, `211`, `226`). Only
  `onSubmit`'s own guard is modelled. The quantity is an integer, so a NaN quantity cannot
  arise in the model. The products page's browser validation is modelled
  (`Products.BrowserAccepts`).
- Transactions.HomePage: of the react-hook-form values only `product_id` is a field. The
  typed buyer name and quantity are parameters of `Submission`, so `reset()` clearing them
  is not captured.
- Transactions.HomePage.SelectProduct: the suggestions close only at that moment. When the
  product's name differs from the query and is 2 or more code units long, the query effect
  runs again and its debounced search refills the suggestions about 300 ms later. That
  search is not modelled.
- Floating point. Predictions are reals and Math.round is floor(x + 1/2). NaN arises only
  from a row without `yhat`, modelled as `None`.
- Forecast.Point: an explicit `"yhat": null` in the answer is not represented; None
  stands for a missing field. `Math.round(null)` is 0, so such a row would add 0 to the
  total instead of making it NaN.
- Forecast.Point: every row has a `ds` string. A response without `historical` or
  `forecast` arrays is not modelled.
- Transactions.SortNewestFirst: `created_at` is an integer timestamp, not a parsed date
  string, so invalid dates are not modelled. The contract states order and permutation
  but not stability. JavaScript's sort keeps equal timestamps in their fetched order; the
  insertion step never swaps equal times, but this is not proved.
- Products.PriceFromInput: the price is an unbounded natural number. `parseInt` loses
  precision above 2^53 and gives Infinity for very long digit strings; neither is modelled.
- Common.Lower: only ASCII letters are lower-cased. Dates are ISO strings, and for the
  `.csv` check only the last four characters matter, which are ASCII.
