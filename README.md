# List-state stores and pagination arithmetic of a React/MobX data grid

This project models the sequential logic of a browser data grid that shows
paginated, sortable records fetched from a backend list endpoint:

- the **table store** (`src/stores/TableStore.ts`): a MobX store holding the
  current page of records, `loading` and `error` flags, the page window
  (`currentPage`, `pageSize`, `totalItems`) and the sort descriptor; it issues
  a GET request with `page` and `limit` and decodes an untyped response with
  the rule `items || body` / `totalItems || body.length`;
- the **event store** (`src/stores/EventStore.ts`): the same fields plus the
  selected `companyId`; it issues a POST whose body is
  `{companyId, page, limit}` and installs the typed response's `eventList`
  and `totCnt`;
- the **pagination control** (`src/components/Pagination.tsx`): the
  previous/next page targets `max(pageNo - 1, 1)` and
  `min(pageNo + 1, totalPages)`, and the six button slots it renders from the
  items a pagination hook reports.

Each store is a Dafny class with the source's fields. Its actions are also
written as a pure transition function `Step` over a snapshot of those fields
(`TableState`, `EventState`), in which each action names exactly the fields
it assigns and leaves the rest as they were; `Run` applies a sequence of
actions. The asynchronous fetch is split into its three state steps:
`BeginFetch` (loading on, error cleared, request issued; it returns the
request), `FetchSucceeded(response)` and `FetchFailed()`, plus
`FetchData`/`FetchEvents`, which runs begin and then the step an outcome
selects as one atomic transition. Every method is proved to move the object
from `old(State())` to `Step(old(State()), action)`. Lemmas over `Step` and
`Run` state what a whole fetch does, that the invariant "an error is shown only
when loading has stopped" (`FetchStateConsistent`) survives every sequence
of actions, that the setters never touch the records, the total or the
fetch flags, and that responses are installed in arrival order, so a late
answer to an earlier request overwrites a newer page.

The table store's response is untyped, so it is modelled as a JavaScript
value (`JsValues.JsValue`) and the language rules the decoding uses are
written out: truthiness, `||`, property access (which throws on `null` and
`undefined`) and numeric coercion. Consequences the lemmas state: an empty
`items` array is still installed (it is truthy), a `totalItems` of 0 is not
used and the total falls back to the body's `length`, which a wrapped body
normally lacks; a `null` body makes `response.data.items` throw inside the
`try`, so the fetch ends in its failure step. For this reason the table
store's `data` and `totalItems` fields hold JavaScript values, and its
`TotalPages` returns `None` for NaN.

The page count `Math.ceil(totalItems / pageSize)` is `ListState.PageCount`,
proved to be the least number of pages holding every item, zero exactly
when there are no items, and never larger for a larger page size.

Behaviour of the code that a reader might not expect:

- a failed fetch keeps the previous records and total; it does not clear them;
- neither request carries the sort descriptor;
- the success step does not itself clear `error` (the begin step already did);
- nothing keeps `1 <= currentPage <= max(totalPages, 1)`: `SetPage` accepts
  any page, and a fetch may shrink the total below the current page;
- the windowing policy of page numbers and ellipses belongs to the
  pagination hook, which is a library; the control itself only renders the
  six items the hook reports.

## Model

| member | source | states |
|---|---|---|
| JsValues.Or | src/stores/TableStore.ts:33-34 | the or-operator yields `a` when `a` is truthy, `b` otherwise; the result is truthy iff either operand is |
| JsValues.Truthy | src/stores/TableStore.ts:33-34 | ToBoolean as the or-operator uses it: null and undefined are falsy, every array and object (even empty) is truthy |
| JsValues.Get | src/stores/TableStore.ts:33-34 | reading a property throws exactly on null/undefined; an object yields its own key or undefined; an array's `length` is its element count; numbers and booleans yield undefined |
| JsValues.Utf16Length | src/stores/TableStore.ts:34 | a string's `length` in UTF-16 code units: between one and two per character, equal to the character count iff every character is in the Basic Multilingual Plane |
| JsValues.AstralCharacterCountsTwice | src/stores/TableStore.ts:34 | a one-character string outside the Basic Multilingual Plane has `length` 2 |
| JsValues.ToNumber | src/stores/TableStore.ts:60 | the dividend of `totalItems / pageSize`: a number is itself, null is 0, undefined and objects are NaN |
| ListState.PageCount | src/stores/TableStore.ts:59-61 | `ceil(totalItems / pageSize)` for `pageSize > 0`: `(k-1)*pageSize < totalItems <= k*pageSize` |
| ListState.PageCountIsLeast | src/stores/TableStore.ts:60 | no number of pages smaller than the page count holds all items |
| ListState.PageCountZeroIff | src/stores/EventStore.ts:73 | for `totalItems >= 0` the page count is non-negative, and zero exactly when there are no items |
| ListState.PageCountUnique | src/stores/EventStore.ts:73 | the page count is the only k with `(k-1)*pageSize < totalItems <= k*pageSize` |
| ListState.PageCountShrinksWithPageSize | src/stores/EventStore.ts:73 | for the same non-negative total, a larger page size never gives more pages |
| TableStore.DecodeListBody | src/stores/TableStore.ts:33-34 | decoding throws exactly on a nullish body; otherwise the records are truthy or the body itself |
| TableStore.BareArrayDecoding | src/stores/TableStore.ts:33-34 | a bare array of n records is installed as is, with total n |
| TableStore.StringBodyDecoding | src/stores/TableStore.ts:33-34 | a string body becomes the records, with its UTF-16 length as the total |
| TableStore.WrappedBodyDecoding | src/stores/TableStore.ts:33-34 | a wrapped body installs its `items` array even when empty, and a non-zero `totalItems` as the total |
| TableStore.ZeroTotalFallsBack | src/stores/TableStore.ts:34 | a `totalItems` of 0 is ignored: the total is the body's `length` key, undefined when absent |
| TableStore.MissingItemsFallBack | src/stores/TableStore.ts:33 | without a truthy `items` the body object itself becomes the records |
| TableStore.Failed | src/stores/TableStore.ts:36-39 | the catch step: fixed message, loading off, records, total, page window and sorting kept |
| TableStore.Step | src/stores/TableStore.ts:20-56 | each action's effect on the fields: it preserves the fetch-state invariant, begin sets loading and clears error, a completed fetch stops loading, the setters leave records, total and flags alone |
| TableStore.QueryOf | src/stores/TableStore.ts:26-29 | the GET params are the store's `currentPage` and `pageSize` |
| TableStore.FetchSettles | src/stores/TableStore.ts:20-40 | after begin and completion loading is off; an error is shown iff the request rejected or the body was nullish, and then it is the fixed message and records and total are kept; otherwise the decoded records and total are installed; page window and sorting unchanged |
| TableStore.SortingIsNotSent | src/stores/TableStore.ts:25-30 | the request is `{page, limit}` of the page window; changing the sorting does not change it |
| TableStore.RunKeepsFetchStateConsistent | src/stores/TableStore.ts:20-56 | after any sequence of fetch steps and setters, an error is shown only when loading has stopped |
| TableStore.SettersKeepRecords | src/stores/TableStore.ts:42-56 | any sequence of `setPage`, `setPageSize`, `setSorting` leaves records, total, loading and error unchanged |
| TableStore.StaleResponseOverwrites | src/stores/TableStore.ts:20-45 | with two overlapping requests, the response that arrives last is shown even when it answers the older request for another page |
| TableStore.TableStore.constructor | src/stores/TableStore.ts:11-17 | a fresh store: no records, not loading, no error, page 1, size 10, total 0, no sorting; the fetch-state invariant holds |
| TableStore.TableStore.BeginFetch | src/stores/TableStore.ts:21-30 | the new state sets loading and clears error and nothing else; the request carries the old `currentPage` and `pageSize` |
| TableStore.TableStore.FetchFailed | src/stores/TableStore.ts:36-39 | the new state shows the fixed message with loading off; every other field unchanged |
| TableStore.TableStore.FetchSucceeded | src/stores/TableStore.ts:32-39 | the new state installs the decoded records and total with loading off; a nullish body gives the failure state instead |
| TableStore.TableStore.FetchData | src/stores/TableStore.ts:20-40 | the new state is begin followed by the step the outcome selects; the request carries the old page window |
| TableStore.TableStore.SetPage | src/stores/TableStore.ts:43-45 | the new state differs only in `currentPage` |
| TableStore.TableStore.SetPageSize | src/stores/TableStore.ts:48-51 | the new state has the given `pageSize` and `currentPage` 1, and nothing else changes |
| TableStore.TableStore.SetSorting | src/stores/TableStore.ts:54-56 | the new state differs only in `sorting` |
| TableStore.TableStore.TotalPages | src/stores/TableStore.ts:59-61 | NaN exactly when the total is not numeric; otherwise the ceiling bracket, and for a non-negative numeric total zero pages iff zero items |
| EventStore.Step | src/stores/EventStore.ts:21-69 | each action's effect on the fields: it preserves the fetch-state invariant, begin sets loading and clears error, a completed fetch stops loading, the setters leave records, total and flags alone |
| EventStore.QueryOf | src/stores/EventStore.ts:28-30 | the POST body is the store's `companyId`, `currentPage` and `pageSize` |
| EventStore.FetchSettles | src/stores/EventStore.ts:21-47 | after begin and completion loading is off; an error is shown iff the request rejected, and then it is the fixed message and records and total are kept; otherwise records are `eventList` and total `totCnt`; page window, sorting and company unchanged |
| EventStore.SortingIsNotSent | src/stores/EventStore.ts:27-33 | the request body is `{companyId, page, limit}`; changing the sorting does not change it |
| EventStore.RunKeepsFetchStateConsistent | src/stores/EventStore.ts:21-69 | after any sequence of fetch steps and setters, an error is shown only when loading has stopped |
| EventStore.SettersKeepRecords | src/stores/EventStore.ts:50-69 | any sequence of `setPage`, `setPageSize`, `setSorting`, `setCompanyId` leaves records, total, loading and error unchanged |
| EventStore.EventStore.constructor | src/stores/EventStore.ts:7-14 | a fresh store: no records, not loading, no error, page 1, size 10, total 0, no sorting, company "2"; the fetch-state invariant holds |
| EventStore.EventStore.BeginFetch | src/stores/EventStore.ts:22-33 | the new state sets loading and clears error and nothing else; the request body is exactly the old `{companyId, page: currentPage, limit: pageSize}` |
| EventStore.EventStore.FetchSucceeded | src/stores/EventStore.ts:35-40 | the new state has records `eventList`, total `totCnt`, loading off; every other field unchanged |
| EventStore.EventStore.FetchFailed | src/stores/EventStore.ts:41-46 | the new state shows the fixed message with loading off; every other field unchanged |
| EventStore.EventStore.FetchEvents | src/stores/EventStore.ts:21-47 | the new state is begin followed by the step the outcome selects; the request carries the old company and page window |
| EventStore.EventStore.SetPage | src/stores/EventStore.ts:51-53 | the new state differs only in `currentPage` |
| EventStore.EventStore.SetPageSize | src/stores/EventStore.ts:56-59 | the new state has the given `pageSize` and `currentPage` 1, and nothing else changes |
| EventStore.EventStore.SetSorting | src/stores/EventStore.ts:62-64 | the new state differs only in `sorting` |
| EventStore.EventStore.SetCompanyId | src/stores/EventStore.ts:67-69 | the new state differs only in `companyId` |
| EventStore.EventStore.TotalPages | src/stores/EventStore.ts:72-74 | `(k-1)*pageSize < totalItems <= k*pageSize`, and for a non-negative total zero pages iff zero items |
| Pagination.PrevPage | src/components/Pagination.tsx:30-34 | the previous page is at least 1, and is `pageNo - 1` whenever `pageNo >= 2` |
| Pagination.NextPage | src/components/Pagination.tsx:32 | the next page is at most `totalPages`, and is `pageNo + 1` whenever `pageNo < totalPages` |
| Pagination.NeighboursInRange | src/components/Pagination.tsx:30-34 | from a page in `[1, totalPages]` both neighbours stay in `[1, totalPages]` |
| Pagination.NextPageWithoutPages | src/components/Pagination.tsx:32 | with zero pages the next page is 0 |
| Pagination.RenderSlot | src/components/Pagination.tsx:44-89 | slot i takes the branch of the kind the hook reports for i; first targets 1 and prev `PrevPage(pageNo)`; next targets `NextPage` and last `totalPages` |
| Pagination.Render | src/components/Pagination.tsx:37-89 | exactly six slots, slot i of the kind the hook reports for i; first targets 1 and last targets `totalPages`; first/prev share one disabled flag and next/last another; a numbered button is never disabled and is active iff its page is the hook's current page |
| Pagination.RenderedNavigationInRange | src/components/Pagination.tsx:44-79 | from a page in `[1, totalPages]` every first/prev/next/last button targets a page in `[1, totalPages]` |

## Left out

- HTTP: the GET and POST calls and the client's base URL, timeout and headers (`src/app/api/api.ts`) are I/O; the request is the value `BeginFetch` returns, the response is the parameter of `FetchSucceeded`, a rejection is `FetchFailed`.
- Asynchrony: each fetch step is an atomic, single-threaded transition; interleavings are modelled only as sequences of those steps, with no timing, and the missing cancellation guard is shown by one example, not fixed.
- MobX decorators, `makeObservable` and `runInAction` are reactive-framework plumbing; the `console.error` logging of a failure is I/O.
- The endpoint URL argument of `fetchData`/`fetchEvents` is only passed to the HTTP client.
- The pagination hook (`usePagination`) is a library: its current page, page count and per-index items are an opaque `HookResult`; the `itemCount`, `perPage` and `maxPageItems` it receives, the React keys, class names, icons and the click handler are not modelled.
- Pagination.Render: each hook item is taken to be one of previous, gap, next or a numbered page; an item with no page is not modelled.
- EventStore.EventStore.FetchSucceeded: the response is taken to have the declared `EventResponse` shape; a body of another shape, where the JavaScript would store undefined or throw, is not modelled.
- JsValues.ToNumber: non-empty strings and non-empty arrays are treated as NaN, whereas JavaScript would parse numeric text.
- JsValues.Get: array and string index keys and inherited properties other than `length` read as undefined; the model does not look them up.
- JavaScript numbers are modelled as unbounded integers: fractional values, NaN and Infinity as stored values are not modelled, and `totalPages` is modelled only for `pageSize > 0` (JavaScript yields Infinity or NaN otherwise).
- The React components (data tables, popups, context menus, buttons, pages), the sort toggle cycle (a library's) and the string-keyed method dispatch are UI plumbing or library code and are not part of this model.
