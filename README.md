# Pixar home screen: query and pagination controller

A Dafny model of the part of the Pixar image browser that decides which page of
which query is fetched, and what happens to the image list when the answer
arrives. The home screen (`app/home/index.js`) keeps a page counter, the list
of images shown, the selected filters, the active category, the search text
and an "end reached" flag for the scroll view. Six handlers change that state
and then call `fetchImages` with a request-parameter object:

- choosing a category;
- a settled search text;
- applying the filter panel;
- resetting the filter panel;
- removing one filter chip;
- a scroll event.

`fetchImages` then appends the returned hits to the list or replaces the list
with them. The filter panel's chips (`components/sectionView.js`) update the
filter map by selecting one value per filter name, and highlight the chip whose
value is selected.

Files and modules:

- `wrappers.dfy`, module `Wrappers`: `Option`, for JavaScript's `null`.
- `filter_selection.dfy`, module `FilterSelection`: the filter map, `onSelect` and `isActive` (the pure core of `components/sectionView.js`).
- `requests.dfy`, module `Requests`: the request-parameter objects. A JavaScript object built with spreads is a `map<string, Value>`. `{ a, ...b }` is `map[a] + b`, because in both the later key wins.
- `results.dfy`, module `Results`: the API response and the append/replace merge of `fetchImages`.
- `scroll_edge.dfy`, module `ScrollEdge`: the edge-triggered bottom detector of `handleScroll`, plus lemmas about runs of many scroll samples.
- `home.dfy`, module `Home`: class `HomeScreen`, whose fields are the screen's state and whose methods are the handlers. Each method is proved against the functions above. Two client methods, `FilterRemovalSession` and `ShortSearchThenScroll`, show what callers can conclude from those contracts alone.

Conventions used throughout:

- JavaScript truthiness is written out:
  - a category is sent only when it is non-null and non-empty;
  - the search text is sent only when it is non-empty;
  - a filter map counts as present even when it is empty;
  - an empty `hits` array counts as a delivered page.
- Scroll metrics are integers. The one-unit tolerance of `scrollOffset >= bottomPosition - 1` is kept.
- The API response of a handler's fetch is a method parameter. The request the handler sends is its result.

Behaviours of the code worth knowing, all kept in the model:

- In the merge step, a response without `hits`, or with `success` false, is ignored: the list is kept, not emptied (`Results.Merge`).
- Every handler that changes the query clears the list before it fetches (app/home/index.js lines 56, 68, 76, 99, 115 and 131). A failed response to such a fetch therefore leaves the list empty.
- `handleScroll` raises `page` before it fetches. After a failed next-page fetch that page is never asked for again: the next edge requests the page after it.
- Removing a filter chip fetches in the default append mode, not an explicit replace. `Results.AppendToEmptyIsReplace` shows that, on the list the handler has just cleared, the two agree.
- Choosing a category clears the search text with `clearSearch()` (`Home.HomeScreen.HandleChangeCategory`).
- Two actions change the query without resetting the page or the list: tapping a filter chip (`Home.HomeScreen.SelectFilter`) and a search text of one or two characters (`Home.HomeScreen.HandleSearch`). The next scroll edge then appends the next page of the new query (page 2 if the counter was at 1) to the old query's results. The client method `ShortSearchThenScroll` shows this for "cats" followed by "ca".

## Model

| member | source | states |
|---|---|---|
| `FilterSelection.Spread` | components/sectionView.js:19 | definition of `{ ...filters }`: a `null` filter map spreads to the empty map, a map to itself |
| `FilterSelection.OnSelect` | components/sectionView.js:18-20 | the new map sends `filterName` to `item`; its keys are the old keys plus `filterName`; every other key keeps its value; on a `null` map the result is the single entry `filterName ↦ item` (ColorFilterRow's copy at line 44 is identical) |
| `FilterSelection.IsActive` | components/sectionView.js:26 | a chip is active only when the filter map is present and holds `filterName`; a missing key reads as `undefined` and never equals a chip; otherwise the chip is active exactly when the map's value for `filterName` is the chip's value (ColorFilterRow's copy at line 51 is identical) |
| `FilterSelection.RowActivity` | components/sectionView.js:24-27 | one highlight flag per chip of the row, in order; flag `i` is set exactly when the filter map is present and maps `filterName` to chip `i`'s value (ColorFilterRow's copy at line 51 is identical) |
| `FilterSelection.NothingActiveWithoutFilters` | components/sectionView.js:26 | with a `null` filter map no chip of any row is highlighted |
| `FilterSelection.SelectedIsOnlyActive` | components/sectionView.js:19-26 | right after `onSelect(item)` a value is active in that row if and only if it equals `item` |
| `FilterSelection.SelectKeepsOtherRows` | components/sectionView.js:19-26 | selecting in one row leaves the highlighting of every other row unchanged, with or without an earlier filter map |
| `FilterSelection.OnSelectIdempotent` | components/sectionView.js:19 | selecting the same item twice gives the same map as selecting it once |
| `FilterSelection.RowHighlightsSelected` | components/sectionView.js:24-30 | in a row of distinct chips, selecting the chip at index `j` highlights index `j` and no other |
| `Requests.AsParams` | app/home/index.js:58 | definition of `...filters` inside a request literal: every filter key, with its value as a string field, and no other key |
| `Requests.Paged` | app/home/index.js:58 | `{ page, ...filters }` has exactly the key `page` plus the filter keys; `page` holds the counter unless a filter key of that name overrides it; every filter value is copied |
| `Requests.QueryParams` | app/home/index.js:100-105 | the request of the category, clear-search, apply, reset, remove-chip and scroll handlers. Its keys are `page`, the filter keys, `category` exactly when the category is truthy, and `q` exactly when the text is non-empty. Category and text override same-named filters. `page` holds the counter unless a filter overrides it |
| `Requests.SearchParams` | app/home/index.js:70 | `{ page, q: text, ...filters }` has keys `page`, `q` and the filter keys; since the filters come last, `q` holds the text and `page` the counter unless a filter of that name overrides it; every filter value is copied |
| `Requests.SearchParamsAgree` | app/home/index.js:70 | with the panel's own filter keys, the filters-last search literal sends the same request as the field-by-field construction with `q` set and no category |
| `Requests.QueryParamsPlain` | app/home/index.js:132-137 | with the panel's own filter keys, the request's `page` is the counter, `category` is present exactly when the category is truthy, `q` exactly when the text is non-empty, and every filter is sent |
| `Results.Delivers` | app/home/index.js:44 | a response is merged only when `success` is true and `hits` is present; a failed response and a response without `hits` are both ignored |
| `Results.Merge` | app/home/index.js:44-50 | success with hits in append mode: the old images followed by the hits, in order, with the sum of the lengths. In replace mode: exactly the hits. `success` false or `hits` missing: the images unchanged |
| `Results.AppendToEmptyIsReplace` | app/home/index.js:131-138 | appending to the just-cleared list equals replacing it, so the default-append fetch of `clearThisFilter` acts as a replace |
| `Results.TwoPagesAppend` | app/home/index.js:46 | two successful next-page loads give the old list, then the first page, then the second page; the length grows by the sum of both page sizes |
| `Results.FailureKeepsImages` | app/home/index.js:44 | a response with `success` false leaves the images unchanged in either mode |
| `ScrollEdge.AtBottom` | app/home/index.js:152-154 | a sample is at the bottom exactly when at most one unit of content is left below the viewport, that is `contentHeight - viewportHeight - scrollOffset <= 1` |
| `ScrollEdge.Fires` | app/home/index.js:154-155 | a sample triggers the next-page fetch exactly when it is at the bottom and the end flag is clear; while the flag is set, nothing fires |
| `ScrollEdge.Step` | app/home/index.js:152-167 | after a sample the flag equals the sample's at-bottom condition; the page grows by one exactly when the sample is at the bottom and the flag was clear, and is otherwise unchanged |
| `ScrollEdge.RunAppend` | app/home/index.js:148-168 | running two sample sequences one after the other equals running their concatenation |
| `ScrollEdge.RunCountsRisingEdges` | app/home/index.js:154-166 | after any run of samples the page has grown by exactly the number of rising edges (samples at the bottom whose predecessor, or initially the flag, was not), and the flag is the last sample's at-bottom condition |
| `ScrollEdge.StayAtBottom` | app/home/index.js:154-164 | any number (at least one) of consecutive at-bottom samples raise the page by exactly one when the flag was clear, and by nothing when it was set |
| `ScrollEdge.AwayFromBottom` | app/home/index.js:165-167 | samples away from the bottom clear the flag and leave the page alone |
| `ScrollEdge.LeaveAndReturn` | app/home/index.js:154-167 | reaching the bottom, leaving it and reaching it again raises the page by exactly two |
| `ScrollEdge.RunNeverLowersPage` | app/home/index.js:159 | no sequence of scroll samples lowers the page counter |
| `Home.HomeScreen.Valid` | app/home/index.js:22 | the page counter is at least 1; the constructor sets up this invariant and every handler requires it and keeps it |
| `Home.HomeScreen.constructor` | app/home/index.js:22-34 | initial state: page 1, no images, no filters, no category, empty search text, flag clear |
| `Home.HomeScreen.FetchImages` | app/home/index.js:41-51 | the images become `Merge` of the old images, the response and the mode; nothing else changes; the request is sent as given |
| `Home.HomeScreen.Mount` | app/home/index.js:37-39 | on mount, one fetch with `{ page: 1 }` in the default append mode |
| `Home.HomeScreen.SelectFilter` | app/home/index.js:285 | the screen's filter map becomes `OnSelect` of the old map, as the panel's `setFilters` call does |
| `Home.HomeScreen.HandleChangeCategory` | app/home/index.js:53-61 | page is 1; the category is set and the search text cleared; filters and the flag are unchanged; the images are the replace-merge of the response into the cleared list. The request is `QueryParams` with the current filters, `category` only when truthy, and no `q` beyond a same-named filter |
| `Home.HomeScreen.HandleSearch` | app/home/index.js:63-80 | the text is always stored. Longer than two characters: page 1, no category, replace fetch with `q = text` over the filters. Empty: page 1, no category, replace fetch without `q`. One or two characters: page, category and images unchanged and no fetch |
| `Home.HomeScreen.ApplyFilters` | app/home/index.js:96-109 | with no filter map nothing changes and nothing is sent. Otherwise page 1 and one replace fetch carrying the filters, plus category and `q` only when truthy. The filters, category, text and flag are unchanged |
| `Home.HomeScreen.ResetFilters` | app/home/index.js:111-124 | with no filter map nothing changes and nothing is sent. Otherwise the filters become `null`, page 1 and one replace fetch whose keys lie within `page`, `category` and `q`. Category, text and flag are unchanged |
| `Home.HomeScreen.ClearThisFilter` | app/home/index.js:126-139 | the filter map is the old one minus `filterName`, every other key keeping its value; page 1; the images are as for a replace of the cleared list; the request carries the reduced filters plus category and `q` when truthy, in the default append mode |
| `Home.HomeScreen.HandleScroll` | app/home/index.js:148-168 | flag and page move as `ScrollEdge.Step`. A fetch is sent exactly on a rising edge: page rises by exactly one and one append fetch follows with the new page and the current filters, category and text. Otherwise page and images are unchanged. Filters, category and text never change |

## Left out

- Rendering, styles, the image grid, the categories bar, the filter modal and its open/close calls, `handleScrollUp`, the router and `console.log`: presentation only.
- The `searchInputRef.current.clear()` call of `handleSearch("")`: it clears a native text box and holds no state of the controller.
- The 400 ms `debounce(handleSearch, 400)` timer: it is time-based scheduling. `HandleSearch` receives the already-settled text.
- `apiCall`, `async`/`await` and the network: the response of each fetch is a parameter. Out-of-order or interleaved responses are not modelled; the source has no guard against that race.
- React's stale closures: every handler reads the latest fields. Among the consequences that differ from a running app:
  - The debounced search callback is created once, so it sees the first render's `filters`.
  - `fetchImages` reads `images` from its render's closure. In the source, `clearThisFilter`'s default-append call can therefore re-append to the old list; the model appends to the cleared list.
  - `handleScroll` is created again on every render and reads `isEndReached` from that render. A second scroll event that arrives after `setIsEndReached(true)` but before the re-render still sees `false`. It raises the module-level `page` again and sends a second append fetch, and the two merges can overwrite each other's `images`. So the source can fire more than once per reach of the bottom. `ScrollEdge.StayAtBottom`, `ScrollEdge.LeaveAndReturn` and `ScrollEdge.RunCountsRisingEdges` describe the sequential semantics, in which every event sees the flag the previous one set.
- The page counter is a module-level variable in the source, so it survives an unmount and a remount of the screen. The model keeps it as a field that starts at 1 when the screen is created.
- `text.length` counts UTF-16 code units in JavaScript. The model counts Dafny characters, which differ for characters outside the Basic Multilingual Plane.
- Number widths: page and scroll metrics are unbounded integers. JavaScript's floating-point doubles and geometry are not modelled.
- `capitalize` and the colour styling of the chips: a library call and UI styling.
- The `data &&` guard of the rows: with no data nothing is rendered, and `RowActivity` takes the row's data as given.
