# Pager controller and debounced invoker

A Dafny model of the two state machines of a small airport-directory web app:

- the `usePager` hook (`hooks/usePager.ts`), which turns "start a new query"
  and "load the next page" into page fetches, merges the pages into one item
  list and keeps the `loading`, `lastPageLoaded` and `error` flags;
- the `debounce` wrapper (`utils/debounce.ts`), which keeps one timer per
  wrapped function so that a burst of calls runs the function once, on the
  last call's arguments.

Each is modelled twice, as the source is written and as a specification:

- `PagerModel` and `DebounceModel` hold the state as a datatype, every step
  as a function on it, and the lemmas about runs of steps;
- `UsePager.Pager` and `Debounce.Debouncer` are classes whose fields are the
  source's mutable cells (the six `useState` cells; the captured `timer`
  variable). Their methods update those fields in place and are proved to
  produce exactly the state the corresponding model function gives;
- the `...Scenario` methods replay the hook's and the wrapper's test cases on
  the classes and state the expected observations as postconditions;
  `Debounce.DefaultDelayScenario` is not from the tests and exercises the
  default delay.

Modelling choices:

- **Fetches.** The HTTP request is abstract. `Pager.Dispatch` is the body of
  the effect: it runs the guard and, when a fetch is due, records it in
  `inFlight` together with what the effect's closure captured (the page
  index, the append/replace decision and the current item list).
  `ResolveSuccess(k, page)` and `ResolveFailure(k)` deliver the outcome of the
  `k`-th outstanding fetch. The hook does not stop a second fetch from being
  issued while one is outstanding, so outstanding fetches are a sequence and
  may resolve in any order.
- **Notifications.** The `setTimeout(handlePageLoaded, 0)` after a success is
  a counter of scheduled notifications. `NotifyPageLoaded` is the later
  timer tick that runs one of them.
- **Debounce clock.** Time is an integer. `Call(args, now)` is a call of the
  wrapped function. `Tick(now)` is the runtime reaching time `now`, and it
  fires the pending timer once `now` is at or past its deadline. A call's
  promise is named by the call's number; `resolved` maps the numbers of
  settled promises to their values. The argument type `A` stands for the
  whole spread argument list, so the value `[1, 2]` stands for the call
  `func(1, 2)`.

Behaviour of the code worth knowing, which the model keeps:

- a fetch that resolves late for a superseded query is not discarded; its
  outcome lands on the new query. A non-empty next page overwrites the items
  with the items captured at its dispatch followed by that page
  (`PagerModel.LateResultMerges`). An empty page raises the new query's
  end-of-data flag, and also empties the items if it was page 0. A rejection
  raises the new query's error flag and ends its loading
  (`PagerModel.LateEmptyOrFailedResult`);
- `loadNextPage` does not check `lastPageLoaded`. Only the page hides the
  "More" button. Once an empty page has arrived, `lastPageLoaded` stays true
  until the next `startNewQuery`, even if later pages are non-empty;
- any resolution clears `loading`, even while another fetch is outstanding;
- within the same query, a rejected page is never fetched again: the failure leaves the page index
  recorded as dispatched, so the next `loadNextPage` asks for the page after it;
- if page 0 of a new query fails, the previous query's items stay, and later
  pages of the new query are appended to them (`PagerModel.EpochContents`);
- if `func` throws, the exception is raised inside the timer callback, after
  the promise executor has returned. The promise therefore never settles; it
  does not reject.

## Model

| member | source | states |
|---|---|---|
| PagerModel.Init | hooks/usePager.ts:17-22 | Initial cells: last dispatched index 0, page index = initial page, items = initial data, all three flags false, nothing in flight; a fetch is due iff the initial page is not 0, and that fetch would append |
| PagerModel.StartNewQuery | hooks/usePager.ts:24-30 | Page index 0, marker reset so the next fetch replaces, loading on, end-of-data and error cleared, items kept; a fetch becomes due |
| PagerModel.LoadNextPage | hooks/usePager.ts:32-36 | Page index + 1, loading on, error cleared; items, end-of-data, marker and in-flight fetches unchanged; from a well-formed state a fetch becomes due |
| PagerModel.Dispatch | hooks/usePager.ts:38-42 | A fetch is issued iff page index differs from the last dispatched one; issuing records the page index as dispatched and remembers page, append decision (marker not the reset value) and current items; otherwise nothing changes; afterwards no fetch is due; dispatched page indices strictly increase within one query (a new query resets the marker to -1) |
| PagerModel.ResolveSuccess | hooks/usePager.ts:46-59 | A non-empty page is appended to the items captured at dispatch, or replaces them for a first fetch; an empty page sets end-of-data and empties the items only for page 0; loading off, error unchanged, one notification scheduled, the fetch leaves the in-flight list |
| PagerModel.ResolveFailure | hooks/usePager.ts:60-63 | Loading off, error on; items, end-of-data and notifications unchanged; the fetch leaves the in-flight list |
| PagerModel.NotifyPageLoaded | hooks/usePager.ts:57-59 | A notification runs on a later tick iff one was scheduled; nothing but the count changes |
| PagerModel.Epoch | hooks/usePager.ts:24-68 | After a new query and one fetch per page, each resolved before the next action: nothing in flight and page index = marker = number of fetches - 1 |
| PagerModel.DispatchIdempotent | hooks/usePager.ts:41-42 | Running the effect again right after it issued a fetch issues nothing and changes nothing |
| PagerModel.FirstPageFetched | hooks/usePager.ts:47-63 | Page 0 of a new query: its items replace the list (empty page: empty list, end-of-data), a failure keeps the old list; loading off; error iff it failed |
| PagerModel.NextPageFetched | hooks/usePager.ts:32-63 | A later page of the same query is appended to the list; an empty or failed page leaves it; end-of-data rises on an empty page and never falls; error iff it failed |
| PagerModel.EpochContents | hooks/usePager.ts:24-68 | For every sequence of outcomes of one query: items = concatenation of all arrived pages (on top of the previous items only if page 0 failed); end-of-data iff some page was empty; error iff the last fetch failed; loading off; one notification per success |
| PagerModel.LateResultMerges | hooks/usePager.ts:25-53 | For any state, a next-page fetch issued before `startNewQuery` that resolves with a non-empty page after the new query's page 0, whatever that page's outcome, leaves the items captured at its dispatch followed by its page, with the page index still 0 |
| PagerModel.LateEmptyOrFailedResult | hooks/usePager.ts:25-63 | For the same late fetch: an empty page raises the new query's end-of-data flag and keeps its items, or empties them if the late page was page 0; a rejection raises the error flag, ends loading and keeps the items; the page index stays 0 |
| PagerModel.LateResultOfSupersededQuery | hooks/usePager.ts:38-48 | For example, a page of the previous query that resolves after page 0 of the new query overwrites the new items with the old items plus that page |
| UsePager.Pager.constructor | hooks/usePager.ts:17-22 | The fields start as `PagerModel.Init` |
| UsePager.Pager.StartNewQuery | hooks/usePager.ts:24-30 | The fields become `PagerModel.StartNewQuery` of the old fields |
| UsePager.Pager.LoadNextPage | hooks/usePager.ts:32-36 | The fields become `PagerModel.LoadNextPage` of the old fields |
| UsePager.Pager.Dispatch | hooks/usePager.ts:38-45 | Fields and result are `PagerModel.Dispatch` of the old fields; a fetch is issued iff page index differed from the last dispatched one |
| UsePager.Pager.ResolveSuccess | hooks/usePager.ts:46-59 | The fields become `PagerModel.ResolveSuccess` of the old fields |
| UsePager.Pager.ResolveFailure | hooks/usePager.ts:60-63 | The fields become `PagerModel.ResolveFailure` of the old fields |
| UsePager.Pager.NotifyPageLoaded | hooks/usePager.ts:57-59 | Fields and result are `PagerModel.NotifyPageLoaded` of the old fields |
| UsePager.InitScenario | hooks/usePager.test.ts:22-38 | Mounted on page 0 with no data: empty items, flags false, no fetch issued, no notification |
| UsePager.FetchNextPageScenario | hooks/usePager.test.ts:40-79 | `A,B` then `loadNextPage`: page 1 requested by exactly one fetch, loading meanwhile, items `A,B,C,D`, end-of-data false, notification pending after the update and run only on the later tick |
| UsePager.FetchLastPageScenario | hooks/usePager.test.ts:81-127 | After `C,D`, an empty page 2 sets end-of-data and keeps `A,B,C,D` |
| UsePager.NewQueryScenario | hooks/usePager.test.ts:129-157 | A new query resolving to `C,D` replaces `A,B`; loading while fetching, off after; end-of-data false |
| UsePager.EmptyNewQueryScenario | hooks/usePager.test.ts:165-189 | A new query resolving to an empty page clears the items and sets end-of-data |
| UsePager.FailedPageScenario | hooks/usePager.test.ts:227-256 | A rejected page 1 keeps `A,B`, loading off, end-of-data false, error on (and not before), no notification |
| DebounceModel.Init | utils/debounce.ts:1-5 | A fresh wrapper keeps the given delay and has no call, no timer, no run, no settled promise |
| DebounceModel.Call | utils/debounce.ts:7-12 | A call replaces the pending timer by its own, due `now + delay`, carrying its arguments; `func` does not run and no promise settles |
| DebounceModel.Tick | utils/debounce.ts:10-12 | A due timer runs `func` once on its call's arguments, resolves that call's promise with the result and empties the slot; before the deadline nothing changes |
| DebounceModel.StepPreservesInv | utils/debounce.ts:5-12 | One call or tick keeps the invariant: the pending timer is the latest call's and its promise is unsettled; each settled promise holds `func` of its own call's arguments; one run per settled promise |
| DebounceModel.RunPreservesInv | utils/debounce.ts:5-12 | Every sequence of calls and ticks keeps that invariant |
| DebounceModel.SupersededNeverResolves | utils/debounce.ts:8-11 | A promise whose timer was cleared never settles, whatever calls and ticks follow |
| DebounceModel.RunCalls | utils/debounce.ts:9-10 | After calls only, with no tick in between, the slot holds exactly the last call's timer, due `delay` after it, and nothing ran |
| DebounceModel.BurstWaits | utils/debounce.ts:9-10 | After a burst of calls, each made before the previous call's timer is due, a tick before the last call's deadline runs nothing and settles no promise |
| DebounceModel.BurstFiresOnce | utils/debounce.ts:7-12 | For such a burst, a tick at or after the last call's deadline runs `func` exactly once, on the last call's arguments, settles the last call's promise with `func`'s value and empties the slot |
| DebounceModel.BurstSettlesOnlyLast | utils/debounce.ts:8-11 | For such a burst, no promise other than the last one's is settled by the tick that follows it |
| Debounce.Debouncer.constructor | utils/debounce.ts:1-5 | Keeps `func` and `delay`; starts as `DebounceModel.Init` |
| Debounce.Debouncer.WithDefaultDelay | utils/debounce.ts:3 | Without a delay argument the delay is 500 |
| Debounce.Debouncer.Call | utils/debounce.ts:7-12 | The fields become `DebounceModel.Call` of the old fields; returns the call's promise number; the invariant is kept |
| Debounce.Debouncer.Tick | utils/debounce.ts:10-12 | The fields become `DebounceModel.Tick` of the old fields; returns `func`'s value exactly when the timer was due; the invariant is kept |
| Debounce.DelayExecutionScenario | utils/debounce.test.ts:8-15 | Call at 0 with delay 500: no run at 400, one run by 800 |
| Debounce.RetriggerScenario | utils/debounce.test.ts:17-26 | A second call at 400: no run at 800, the first promise never settles, one run at 900 |
| Debounce.ArgumentsScenario | utils/debounce.test.ts:28-34 | `debounced(1, 2)`: `func` runs once, on the argument list `[1, 2]`, i.e. as `func(1, 2)` |
| Debounce.ResultScenario | utils/debounce.test.ts:36-43 | The promise is unsettled at the call and resolves to `func`'s value `"hello world"` after the timer |
| Debounce.DefaultDelayScenario | utils/debounce.ts:3 | With the default delay: no run at 499, one run at 500 |

## Left out

- HTTP: `axios.get` and `urlFactory` (hooks/usePager.ts:2, 44-45) are not modelled. A fetch's outcome is the argument of the resolve methods, and the dispatched page index stands for the requested URL.
- React scheduling: `useState`, `useEffect`, `useCallback`, dependency arrays and stale closures are not modelled. Actions and the effect (`Dispatch`) run one at a time, in the order the caller chooses. After an action the effect runs only when the caller invokes `Dispatch`.
- `handlePageLoaded` itself (the page scrolls to the bottom) is not modelled. Only its scheduling and later run are counted.
- Real `setTimeout`/`clearTimeout` and timer handles are not modelled. They are replaced by the integer clock, the single `pending` slot and explicit `Tick` calls. A model run that skips the `Tick` for a due timer before the next call drops that timer. A real runtime would already have fired it.
- Debounce.Debouncer.Tick: `func` is a total function. An exception thrown by `func` is not modelled. In the source it would escape the timer callback and leave the promise unsettled.
- The record store, regex search and HTTP handlers (models/airport.ts, pages/api/airports/*) are not modelled. Neither is the page rendering (pages/index.tsx, components/*.tsx): they are outside the two state machines.
