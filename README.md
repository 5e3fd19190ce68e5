# Autocomplete search box: cache, filter and debounce

This project models the logic of the `Autocomplete` React component, a search box
that suggests items from a fixed list of sixty topics as the user types. What it
covers:

- **The corpus and its filter** (`corpus.dfy`, module `Corpus`). The filter keeps
  the items whose lower-cased name contains the lower-cased query. It is proved to
  keep exactly the matching items, each as often as in the corpus and in corpus
  order. It is also proved on the corpus itself: `"typescript"` finds
  "TypeScript Basics" and `"Typescript Advanced"` finds nothing.
- **The LRU result cache** (`result_cache.dfy`, module `ResultCache`). This is an
  ordered list of `{query, results}` entries, least recently used first, with
  room for ten. A lookup hit moves the entry to the back. An insert at capacity
  evicts the front entry. Both are pure functions from the old list to the new
  one, as in the component, which builds a new array each time.
- **`filterItems`** (`search.dfy`, module `Search`). It returns no items for the
  empty query, answers from the cache on a hit, and filters and caches on a
  miss. The main theorem is that the cached answer always equals a fresh filter
  of the corpus, as long as every entry came from the filter. The cache invariant
  covers capacity, one entry per query, no empty query, and every entry being a
  filter result. It is kept by every call.
- **The controller** (`controller.dfy`, class `Controller.Autocomplete`). The
  component's state (input text, suggestions, dropdown visibility, cache) becomes
  mutable fields. The debounce timer is one optional pending query, re-armed by
  every input event. Expiry is an explicit `Fire` step that runs the debounced
  callback. Input, item-click and focus handlers are methods. A ghost log of
  resolved queries shows that a burst of input events, followed by expiry,
  resolves only the last query, and only once.

`options.dfy` holds the `Option` type, which stands for a `null` return and for
an empty timer slot.

Three behaviours of the code differ from what one might expect of such a box.
The model follows the code in each case:

- Clicking a suggestion does not cancel an armed debounce timer.
  `Controller.Autocomplete.ClickBeforeTimerExpires` spells out what follows: when
  the timer expires, the typed query's results come back and the dropdown
  reopens if there are any.
- The focus handler sets visibility to "there are suggestions". It does not only
  ever open the dropdown. Under the controller invariant (an open dropdown always
  has suggestions) the two readings coincide.
- An empty result array is truthy in JavaScript. So a cached query with no
  matches is a cache hit, not a miss.

## Model

| member | source | states |
|---|---|---|
| Corpus.Lower | src/components/Autocomplete.tsx:117 | `toLowerCase` on ASCII, applied character by character through `LowerChar`: the result has the same length, each upper-case ASCII letter becomes its own lower-case letter, no upper-case ASCII letter is left, and every other character is kept |
| Corpus.Includes | src/components/Autocomplete.tsx:117 | `includes`: the empty string is found in every string, and a pattern longer than the string is never found (`IncludesIsContains` gives the full meaning) |
| Corpus.IncludesIsContains | src/components/Autocomplete.tsx:117 | the left-to-right `includes` scan succeeds exactly when the query occurs at some position of the name |
| Corpus.Matches | src/components/Autocomplete.tsx:116-117 | the filter callback accepts an item exactly when the lower-cased query occurs at some position of the lower-cased name |
| Corpus.Filter | src/components/Autocomplete.tsx:116-118 | an item is in the result exactly when it is in the corpus and its lower-cased name contains the lower-cased query |
| Corpus.FilterCounts | src/components/Autocomplete.tsx:116-118 | each matching item is kept as many times as it occurs in the corpus; every other item occurs zero times |
| Corpus.FilterKeepsOrder | src/components/Autocomplete.tsx:116-118 | the result is a subsequence of the corpus, so corpus order is kept |
| Corpus.FilterAppend | src/components/Autocomplete.tsx:116-118 | filtering a concatenation is the concatenation of the filtered parts |
| Corpus.FilterFindsNothing | src/components/Autocomplete.tsx:116-118 | if no name contains the query, case-insensitively, the filter returns the empty list |
| Corpus.FilterEmptyQueryKeepsAll | src/components/Autocomplete.tsx:112 | the filter alone would return the whole corpus for the empty query, which is why the empty query is answered by the guard instead |
| Corpus.MissingLetter | src/components/Autocomplete.tsx:117 | a name that lacks, in both cases, a letter of the lower-cased query (whatever its case as typed) cannot contain the query |
| Corpus.TypeScriptQueryFindsBasics | src/components/Autocomplete.tsx:44 | filtering the corpus for "typescript" gives a result that includes item 21, "TypeScript Basics" |
| Corpus.Items | src/components/Autocomplete.tsx:23-84 | the sixty corpus items, with their ids and names exactly as in the source, in source order |
| Corpus.ItemsInSourceOrder | src/components/Autocomplete.tsx:23-84 | the corpus has sixty items and their ids run from 1 to 60 in order |
| Corpus.ReactNotAdvanced | src/components/Autocomplete.tsx:24-33 | no React item (ids 1-10) matches "Typescript Advanced" |
| Corpus.NextJsNotAdvanced | src/components/Autocomplete.tsx:34-43 | no Next.js item (ids 11-20) matches "Typescript Advanced" |
| Corpus.TypeScriptNotAdvanced | src/components/Autocomplete.tsx:44-53 | no TypeScript item (ids 21-30) matches "Typescript Advanced" |
| Corpus.NodeJsNotAdvanced | src/components/Autocomplete.tsx:54-63 | no Node.js item (ids 31-40) matches "Typescript Advanced" |
| Corpus.ReduxNotAdvanced | src/components/Autocomplete.tsx:64-73 | no Redux item (ids 41-50) matches "Typescript Advanced" |
| Corpus.TailwindNotAdvanced | src/components/Autocomplete.tsx:74-83 | no Tailwind item (ids 51-60) matches "Typescript Advanced" |
| Corpus.AdvancedQueryFindsNothing | src/components/Autocomplete.tsx:23-84 | filtering the whole sixty-item corpus for "Typescript Advanced" returns the empty list |
| ResultCache.FirstIndex | src/components/Autocomplete.tsx:88 | the entry `find` stops at is the first one stored under the query |
| ResultCache.Without | src/components/Autocomplete.tsx:91 | filtering the cache never lengthens it |
| ResultCache.WithoutMembers | src/components/Autocomplete.tsx:91 | the filtered cache holds exactly the entries stored under other queries |
| ResultCache.WithoutAbsent | src/components/Autocomplete.tsx:91 | filtering out a query the cache does not hold changes nothing |
| ResultCache.WithoutShrinks | src/components/Autocomplete.tsx:91 | filtering out a query the cache holds makes it strictly shorter |
| ResultCache.WithoutAppend | src/components/Autocomplete.tsx:91 | filtering distributes over concatenation |
| ResultCache.WithoutSingle | src/components/Autocomplete.tsx:91 | removing the only entry under a query leaves the entries before and after it, in order |
| ResultCache.GetFromCache | src/components/Autocomplete.tsx:87-98 | a miss returns nothing and leaves the cache exactly as it was; a hit returns the first matching entry's results unchanged, makes that entry the last one, and leaves before it the other entries filtered of that query, in their old order, so exactly one entry holds the query |
| ResultCache.MoveToBackKeepsQueriesDistinct | src/components/Autocomplete.tsx:90-94 | moving one entry to the back keeps the queries distinct |
| ResultCache.LookupHitIsPermutation | src/components/Autocomplete.tsx:88-95 | with distinct queries, a hit removes the entry from its position and appends it; the cache keeps the same entries and length, and its queries stay distinct |
| ResultCache.HitOnOldestMovesItToBack | src/components/Autocomplete.tsx:90-94 | with queries Q1, Q2, Q3 (oldest first), a hit on Q1 returns its results and leaves the order Q2, Q3, Q1 |
| ResultCache.AddToCache | src/components/Autocomplete.tsx:101-108 | the new entry is last; below capacity the cache grows by one and keeps every old entry in place; at or above capacity exactly the front entry is dropped; a cache within capacity stays within capacity |
| ResultCache.AddToCacheKeepsQueriesDistinct | src/components/Autocomplete.tsx:101-108 | inserting a query the cache lacks keeps the queries distinct |
| ResultCache.AddToCacheKeepsNewest | src/components/Autocomplete.tsx:101-108 | from a cache within capacity, an insert leaves exactly the newest ten entries of the old cache followed by the new entry |
| ResultCache.AddAllKeepsNewest | src/components/Autocomplete.tsx:101-108 | after any run of inserts into a cache within capacity, the cache is exactly the ten most recent entries, oldest first |
| Search.FilterItems | src/components/Autocomplete.tsx:111-121 | the empty query returns no items and leaves the cache alone; a hit returns the stored results; a miss returns the corpus filter and leaves it as the last cache entry under the query; the new cache is exactly what `getFromCache` (hit) or `addToCache` (miss) leaves |
| Search.CachedEqualsFresh | src/components/Autocomplete.tsx:113-118 | when every cache entry is a filter result, the answer equals a fresh computation, hit or miss, and the new cache still holds only filter results |
| Search.FilterItemsKeepsWellFormed | src/components/Autocomplete.tsx:111-121 | the cache stays within capacity, with distinct and non-empty queries, each entry a filter result |
| Search.HitKeepsWellFormed | src/components/Autocomplete.tsx:113-114 | a hit keeps the cache within capacity, with distinct and non-empty queries |
| Search.MissKeepsWellFormed | src/components/Autocomplete.tsx:116-119 | a miss keeps the cache within capacity, with distinct and non-empty queries |
| Controller.Autocomplete.constructor | src/components/Autocomplete.tsx:15-18 | on mount the input is empty, there are no suggestions, the dropdown is closed, the cache is empty and no timer is armed |
| Controller.Autocomplete.Debounce | src/components/Autocomplete.tsx:124-130 | each call replaces whatever query was pending with its own, so at most one timer is armed |
| Controller.Autocomplete.HandleInputChange | src/components/Autocomplete.tsx:142-146 | the typed text becomes the input value and the pending query; suggestions, dropdown and cache are not touched until the timer expires |
| Controller.Autocomplete.Resolve | src/components/Autocomplete.tsx:134-138 | the suggestions become a fresh filter of the corpus for the query (none for the empty query), the dropdown is open exactly when there are suggestions, and the cache is what `filterItems` leaves |
| Controller.Autocomplete.Fire | src/components/Autocomplete.tsx:127-128 | with a pending query, the timer is disarmed and that query is resolved; with none, nothing changes |
| Controller.Autocomplete.HandleItemClick | src/components/Autocomplete.tsx:149-153 | the input shows the item's name, the suggestions are cleared and the dropdown closes; the pending timer and the cache are untouched |
| Controller.Autocomplete.HandleFocus | src/components/Autocomplete.tsx:198 | the dropdown is open exactly when there are suggestions; nothing else changes |
| Controller.Autocomplete.TypeThenSettle | src/components/Autocomplete.tsx:124-130 | after a burst of input events and one expiry, exactly one query has been resolved: the last one typed. Its fresh results are shown |
| Controller.Autocomplete.ClickBeforeTimerExpires | src/components/Autocomplete.tsx:149-153 | a click during the debounce window does not stop the typed query from being resolved when the timer expires: the input keeps the item's name, but the typed query's results are shown |

## Left out

- JSX rendering and the CSS import: presentation only.
- `highlightMatch`: it builds a regular expression from the user's text, and regular-expression semantics are outside the model. It only affects display.
- The click-outside `mousedown` listener and its cleanup: DOM event plumbing.
- Real time: `setTimeout`, `clearTimeout` and the 300 ms delay become the `pending` slot and the `Fire` step. There is no clock and no concurrency. The component does not cancel a pending timer on unmount (its only cleanup removes the `mousedown` listener); unmount is not modelled.
- React update semantics. The component batches `useState` updates and mixes functional `setCache(prev => …)` updates with reads of the rendered `cache`. Its debounced callback is created once through `useRef`, so it sees the first render's empty cache. The model has one coherent `cache` field that every call reads and writes. It states the behaviour the caching code intends, not React's stale-closure behaviour.
- Search.FilterItems, Search.CachedEqualsFresh: these hold for the intended design, not for the running component. There, the callback's `getFromCache` reads the captured empty `cache`, so it always misses. The hit case is therefore never taken at run time.
- ResultCache.AddToCache: the capacity bound also holds for the intended design only. The captured `addToCache` also reads the empty `cache`, so it always takes the `length < 10` branch. Its functional update then appends to the real list, which never evicts and grows past ten entries.
- Corpus.Lower, Corpus.LowerChar: only ASCII letters are lower-cased. The corpus and all the proved examples are ASCII, but full Unicode `toLowerCase` is not modelled.
- Corpus.Items: the sixty items are kept in six ten-item constants (one per topic, in source order) joined together. The verifier reasons much more cheaply about these short literals.
