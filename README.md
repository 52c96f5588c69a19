# Product listing: filter, sort and URL state

This project models the product-listing engine of a React/Redux storefront in Dafny and proves properties of the model.

The engine is a Redux slice. It holds:

- a catalog of products;
- the visible list derived from it;
- three category check boxes (Paid, Free, View only);
- a price range, a search term and a sort key;
- a `loading` flag.

Each reducer updates this one record. The visible list is derived in passes:

1. a category pass: OR across the ticked boxes, where no box ticked means every category passes;
2. a trimmed, case-insensitive search on title and user name;
3. an inclusive price range, skipped while the range is the default {0, 9999};
4. a stable sort by title or by effective price.

Around the engine, the model covers:

- the page effects that write the filter state to the query string and read it back;
- the single-box toggle and the reset button;
- the catalog client's wire-to-domain mapping, its pricing-code helpers, and its cache and in-flight flag;
- the HTTP wrapper's pure parts: the query string, the response envelope check, the request interceptor and the loading-overlay counter.

Modules:

- `Wrappers`: `Option` and `Result`.
- `Text`: `trim` (the exact ECMAScript white-space set), ASCII `toLowerCase`, `includes`, and a code-point order standing in for `localeCompare`.
- `Lists`: `Array.prototype.filter` and its facts: what survives, how often, and in which order.
- `Catalog`: the product record, the pricing enumeration, the filter predicates and the sort comparator.
- `ProductSort`: a stable insertion sort. It is proved ordered, a permutation of its input, and stable.
- `ProductsSlice`: the lists each reducer computes, the lemmas about them, and the class `ProductsStore` with one method per reducer. Its invariant is that the visible list is drawn from the catalog.
- `ProductsPage`: the query string as a list of name/value entries (`URLSearchParams`), the load and serialise effects, and the handlers.
- `ProductsApi`: the wire mapping, the pricing-code helpers, and the class `ProductsCache` for `cachedProducts` and `isFetching`.
- `HttpConfig`: `encodeURIComponent` (UTF-8, upper-case hex), `formatParams`, `createUrl`, `isApiResponse`, `responseInterceptor`, `requestInterceptor`, the verb wrappers, and the class `LoadingIndicator` for `requestCount`.

Points worth knowing about the code:

- The query keys are `Paid`, `Free` and `ViewOnly`.
- `setPriceRange` and the first filter of `updateFiltersAndApply` ignore the range when no box is ticked.
- `resetFilters` shows the catalog unsorted.
- The store's enumeration numbers the options PAID = 0, FREE = 1, VIEW_ONLY = 2. The wire mapping copies the code straight into it. The two unused helpers `mapPricingOptionFromNumber` and `mapPricingOption` use a different numbering, in which 1 is paid and 0 is free.

## Model

| member | source | states |
|---|---|---|
| `Catalog.FromCode` | src/store/productsSlice.ts:5-9 | the enumeration value whose number is the given code, 0 to 2 |
| `Catalog.CodeRoundTrip` | src/store/productsSlice.ts:5-9 | each enumeration value is recovered from its number |
| `Catalog.PricingMatch` | src/store/productsSlice.ts:117-121 | a product passes the category pass iff no box is ticked or the box of its pricing option is ticked |
| `Catalog.SearchMatch` | src/store/productsSlice.ts:124-127 | the search pass; a non-empty term can only match a title or user name at least as long as the term (its meaning is `Catalog.SearchMatchIff`) |
| `Catalog.SearchMatchIff` | src/store/productsSlice.ts:124-127 | an empty term matches everything; otherwise a product matches iff its lower-cased title or user name contains the lower-cased term at some index |
| `Catalog.EffectivePrice` | src/store/productsSlice.ts:152-156 | the price a paid product sorts by, 0 when it has none; 0 for every other product |
| `Catalog.InRange` | src/store/productsSlice.ts:137-139 | the price test, both ends included; a product without a price always passes, and an empty range (max below min) lets only those through |
| `Catalog.Compare` | src/store/productsSlice.ts:145-160 | the sort comparator; no contract of its own: what its sign means is `Catalog.LeqMeaning` and its order properties are `Catalog.LeqTotalPreorder` |
| `Catalog.LeqMeaning` | src/store/productsSlice.ts:148-159 | `name` orders titles ascending and ties only equal titles; `higherPrice` orders effective price descending; `lowerPrice` ascending |
| `Catalog.LeqTotalPreorder` | src/store/productsSlice.ts:145-160 | each sort key's comparator is a total, transitive preorder whose ties are symmetric |
| `Text.TrimStart` | src/store/productsSlice.ts:101 | `trim`'s left half: a suffix of the input, what it drops is white space, what it keeps starts with non-white-space |
| `Text.TrimEnd` | src/store/productsSlice.ts:101 | `trim`'s right half: a prefix of the input, what it drops is white space, what it keeps ends with non-white-space |
| `Text.Trim` | src/store/productsSlice.ts:101 | `trim`; no contract of its own: it is characterised by `Text.TrimIsInnerSlice`, `Text.TrimKeepsNoWhiteSpaceEnds`, `Text.TrimEmptyIff` and `Text.TrimIdempotent` |
| `Text.TrimIsInnerSlice` | src/store/productsSlice.ts:101 | the trimmed term is one slice of the term with only white space cut on either side |
| `Text.TrimKeepsNoWhiteSpaceEnds` | src/store/productsSlice.ts:101 | a non-empty trimmed term starts and ends with non-white-space |
| `Text.TrimEmptyIff` | src/store/productsSlice.ts:102 | the term counts as no search term (trims to empty) iff it is all white space |
| `Text.TrimIdempotent` | src/store/productsSlice.ts:101 | trimming a trimmed term changes nothing |
| `Text.ToLower` | src/store/productsSlice.ts:126 | lower-casing keeps the length and maps each character |
| `Text.ToLowerIdempotent` | src/store/productsSlice.ts:126-127 | lower-cased text has no capitals left and lower-cases to itself |
| `Text.Includes` | src/store/productsSlice.ts:126-127 | `includes`; a needle is only found in text at least as long (its meaning is `Text.IncludesIff`) |
| `Text.IncludesIff` | src/store/productsSlice.ts:126-127 | `includes` holds iff the needle occurs at some index |
| `Text.IncludesEmpty` | src/store/productsSlice.ts:124-127 | every string includes the empty string |
| `Text.LexCompare` | src/store/productsSlice.ts:150 | the title comparison returns -1, 0 or 1, and 0 exactly for equal titles (swapping and transitivity are the two lemmas below) |
| `Text.LexCompareAntisymmetric` | src/store/productsSlice.ts:150 | the title comparison flips sign when swapped, and is 0 only for equal titles |
| `Text.LexCompareTransitive` | src/store/productsSlice.ts:150 | the title comparison is transitive |
| `Lists.Filter` | src/store/productsSlice.ts:115-130 | `filter` returns no more elements than it is given; what it keeps is `Lists.FilterCount`, in what order `Lists.FilterIsSubsequence` |
| `Lists.FilterCount` | src/store/productsSlice.ts:115-130 | a product survives `filter` iff it was there and is accepted, exactly as often as it occurred |
| `Lists.FilterIsSubsequence` | src/store/productsSlice.ts:192-213 | `filter` keeps the survivors in catalog order |
| `Lists.FilterAgree` | src/store/productsSlice.ts:208-210 | filters with predicates that agree on the list give the same list |
| `Lists.FilterKeepsAll` | src/store/productsSlice.ts:112-113 | a filter that accepts everything returns the list unchanged |
| `Lists.FilterThenFilter` | src/store/productsSlice.ts:135-141 | two filters in a row are one filter by their conjunction |
| `ProductSort.InsertPermutes` | src/store/productsSlice.ts:145-160 | inserting adds exactly the one product |
| `ProductSort.InsertSorted` | src/store/productsSlice.ts:145-160 | inserting into an ordered list keeps it ordered |
| `ProductSort.InsertTies` | src/store/productsSlice.ts:145-160 | inserting puts a product ahead of the products it ties with |
| `ProductSort.Sort` | src/store/productsSlice.ts:145-160 | the stable sort; no contract of its own: ordered, permutation and stability are `ProductSort.SortCorrect` |
| `ProductSort.SortCorrect` | src/store/productsSlice.ts:145-160 | the sort's result is ordered, is a permutation of its input, and keeps tied products in input order |
| `ProductSort.SortOfSorted` | src/store/productsSlice.ts:145-160 | an already ordered list is left as it is |
| `ProductsSlice.RangeCategoryMatch` | src/store/productsSlice.ts:192-213 | the filter of `setPriceRange`: the search must match and, when some box is ticked, the product's box must be ticked and its price in range |
| `ProductsSlice.ApplyPassesAsOneFilter` | src/store/productsSlice.ts:112-141 | the shortcut copy, the category/search filter and the skipped-or-applied price pass together are one filter by all three tests |
| `ProductsSlice.ApplyFiltersView` | src/store/productsSlice.ts:112-160 | the list `applyFilters` stores; no contract of its own: its contents, order and ties are `ProductsSlice.ApplyFiltersSpec` |
| `ProductsSlice.ApplyFiltersSpec` | src/store/productsSlice.ts:112-160 | the list of `applyFilters` is a permutation of the catalog products passing all three passes; a product is shown iff it is in the catalog and passes; the list is ordered by the sort key; ties keep catalog order |
| `ProductsSlice.ApplyFiltersShowsAll` | src/store/productsSlice.ts:112-145 | with no box, a blank term and the default range, the whole catalog is shown, sorted |
| `ProductsSlice.PriceRangeView` | src/store/productsSlice.ts:192-213 | the list `setPriceRange` stores, never longer than the catalog; its contents and order are `ProductsSlice.PriceRangeSpec` |
| `ProductsSlice.PriceRangeSpec` | src/store/productsSlice.ts:183-213 | the list of `setPriceRange` keeps catalog order, shows a product iff it matches the search and, when some box is ticked, its box is ticked and its price is in range, and keeps each such product exactly as often as the catalog holds it |
| `ProductsSlice.PriceRangeIgnoredWithoutFilters` | src/store/productsSlice.ts:208-210 | with no box ticked, every range gives the same list |
| `ProductsSlice.UpdatePassesAsOneFilter` | src/store/productsSlice.ts:239-284 | the `setPriceRange` filter followed by the skipped-or-applied price pass is one filter: what `applyFilters` lets through and, when some box is ticked, a price in range |
| `ProductsSlice.UpdateFiltersView` | src/store/productsSlice.ts:239-303 | the list `updateFiltersAndApply` stores; no contract of its own: its contents, order and ties are `ProductsSlice.UpdateFiltersSpec` |
| `ProductsSlice.UpdateFiltersSpec` | src/store/productsSlice.ts:239-303 | the list of `updateFiltersAndApply` is a permutation of the catalog products that `applyFilters` would show and, when some box is ticked, whose price is in range even for the default range; a product is shown iff it is in the catalog and passes; the list is ordered by the sort key; ties keep catalog order |
| `ProductsSlice.UpdateAgreesWithApplyOffDefault` | src/store/productsSlice.ts:239-303 | off the default range, `updateFiltersAndApply` and `applyFilters` compute the same list |
| `ProductsSlice.SetProductsView` | src/store/productsSlice.ts:78-81 | the list `setProducts` stores; no contract of its own: its contents, order and ties are `ProductsSlice.SetProductsSpec` |
| `ProductsSlice.SetProductsSpec` | src/store/productsSlice.ts:78-81 | `setProducts` shows exactly the titled products, each as often as it occurs, sorted by title with ties in payload order |
| `ProductsSlice.ApplyFiltersDrawn` | src/store/productsSlice.ts:112-160 | the list of `applyFilters` takes no product more often than the catalog holds it |
| `ProductsSlice.PriceRangeDrawn` | src/store/productsSlice.ts:192-213 | the list of `setPriceRange` takes no product more often than the catalog holds it |
| `ProductsSlice.UpdateFiltersDrawn` | src/store/productsSlice.ts:239-303 | the list of `updateFiltersAndApply` takes no product more often than the catalog holds it |
| `ProductsSlice.SetProductsDrawn` | src/store/productsSlice.ts:78-81 | the list of `setProducts` takes no product more often than the payload holds it |
| `ProductsSlice.AfterReset` | src/store/productsSlice.ts:168-180 | the reset record: no box, empty term, default range, the catalog shown unsorted, `loading` set, sort key and catalog kept |
| `ProductsSlice.ResetIdempotent` | src/store/productsSlice.ts:168-180 | resetting twice is resetting once |
| `ProductsSlice.ProductsStore.constructor` | src/store/productsSlice.ts:41-57 | the store starts in `initialState` and satisfies the invariant |
| `ProductsSlice.ProductsStore.SetLoading` | src/store/productsSlice.ts:63-65 | only `loading` changes, to the payload |
| `ProductsSlice.ProductsStore.SetProducts` | src/store/productsSlice.ts:66-84 | a non-list empties both lists and leaves `loading`; a list becomes the catalog, the visible list is its titled products sorted by title, `loading` clears; nothing else changes |
| `ProductsSlice.ProductsStore.SetFilters` | src/store/productsSlice.ts:85-92 | only the boxes change, and `loading` is set |
| `ProductsSlice.ProductsStore.SetSearchTerm` | src/store/productsSlice.ts:93-96 | only the term (untrimmed) changes, and `loading` is set |
| `ProductsSlice.ProductsStore.ApplyFilters` | src/store/productsSlice.ts:97-163 | `loading` clears and the visible list becomes the `applyFilters` list of the current inputs; nothing else changes |
| `ProductsSlice.ProductsStore.SetSortBy` | src/store/productsSlice.ts:164-167 | only the sort key changes, and `loading` is set; nothing is re-sorted |
| `ProductsSlice.ProductsStore.ResetFilters` | src/store/productsSlice.ts:168-182 | the record becomes the reset record of its old value |
| `ProductsSlice.ProductsStore.SetPriceRange` | src/store/productsSlice.ts:183-216 | the range is stored, the visible list becomes the `setPriceRange` list, and `loading` ends cleared |
| `ProductsSlice.ProductsStore.UpdateFiltersAndApply` | src/store/productsSlice.ts:217-306 | boxes and term are stored; the range is replaced only when the payload has one; the visible list becomes the `updateFiltersAndApply` list; `loading` stays set |
| `ProductsPage.Get` | src/pages/products/index.tsx:23-29 | `params.get`: absent iff no entry has the name; otherwise the value of an entry with that name, which is the first one by `ProductsPage.GetReadsFirstEntry` |
| `ProductsPage.GetReadsFirstEntry` | src/pages/products/index.tsx:23-29 | `params.get` reads the value of the first entry with the name |
| `ProductsPage.RemoveName` | src/pages/products/index.tsx:34-37 | drops every entry of one name and leaves every other name's value alone |
| `ProductsPage.SetParam` | src/pages/products/index.tsx:34-37 | `params.set`: afterwards the name reads as the value, and every other name reads as before |
| `ProductsPage.ParseFilters` | src/pages/products/index.tsx:24-28 | each box is ticked iff its parameter is exactly `true` |
| `ProductsPage.ParseSearch` | src/pages/products/index.tsx:29 | the term is the `search` parameter, or empty when it is absent |
| `ProductsPage.SetWhen` | src/pages/products/index.tsx:34-37 | one guarded `params.set`: the name reads as the value when the guard holds and as before otherwise; every other name reads as before |
| `ProductsPage.SerializeFilters` | src/pages/products/index.tsx:33-37 | each box's key is `true` iff the box is ticked and absent otherwise; `search` is written iff the term is non-empty; reading the query back gives the same boxes and term |
| `ProductsPage.Toggle` | src/pages/products/index.tsx:42-47 | the named box flips and the other two are unchanged |
| `ProductsPage.ToggleTwice` | src/pages/products/index.tsx:42-47 | flipping the same box twice restores the boxes |
| `ProductsPage.ToggleCommutes` | src/pages/products/index.tsx:42-47 | flips of two boxes commute |
| `ProductsPage.OnLoad` | src/pages/products/index.tsx:22-30 | the store's boxes and term become those read from the query, with `loading` set |
| `ProductsPage.OnFiltersChanged` | src/pages/products/index.tsx:32-40 | the pushed query reads back as the store's boxes and term, and the visible list is recomputed by `applyFilters` |
| `ProductsPage.HandlePricingOptionChange` | src/pages/products/index.tsx:42-47 | the store's boxes become the old boxes with one flipped |
| `ProductsPage.HandleResetFilters` | src/pages/products/index.tsx:49-52 | the store is reset and the address loses its query, which reads back as the reset boxes and term |
| `ProductsApi.ToProduct` | src/api/products.ts:80-87 | photo is the image path, user name the creator; id, title, price and the pricing code are copied |
| `ProductsApi.ToApiProduct` | src/api/products.ts:13-20 | the endpoint form of a product, field for field |
| `ProductsApi.ProductMappingRoundTrip` | src/api/products.ts:80-87 | the product mapping loses nothing in either direction |
| `ProductsApi.MapProducts` | src/api/products.ts:80-87 | the mapped list has the same length and order, each element mapped |
| `ProductsApi.UnmapProducts` | src/api/products.ts:13-20 | the inverse list mapping, same length and order |
| `ProductsApi.MapProductsRoundTrip` | src/api/products.ts:80-87 | mapping a whole response and back gives the response |
| `ProductsApi.MapPricingOptionFromNumber` | src/api/products.ts:31-38 | 1 is paid, 2 is view-only, and any other number is free |
| `ProductsApi.MapPricingOption` | src/api/products.ts:103-111 | `paid` is 1, `view` is 2, and `free`, an absent tag or anything else is 0 |
| `ProductsApi.TagCodeRoundTrip` | src/api/products.ts:103-111 | a tag turned into a code and back names the tag's option |
| `ProductsApi.FromNumberAgreesOnlyOnViewOnly` | src/api/products.ts:31-37 | the helper's numbering agrees with the store's enumeration only on code 2 |
| `ProductsApi.ProductsCache.HealthyIsNotStuck` | src/api/products.ts:49-60 | while the flag is raised only with a request in flight, neither a caller arriving now nor a caller already polling waits for a list that nothing will deliver: a list is cached, a request is in flight, or nobody waits and the flag is down |
| `ProductsApi.ProductsCache.constructor` | src/api/products.ts:41-42 | no cache, flag down, and the fallback is the mapped fake products |
| `ProductsApi.ProductsCache.BeginFetch` | src/api/products.ts:45-62 | a cached list is returned; a raised flag makes the caller wait, adding one to the callers polling; otherwise the flag rises and exactly one request is issued; a stuck client stays stuck and its callers hang |
| `ProductsApi.ProductsCache.CheckCache` | src/api/products.ts:51-56 | a poll sees the cached list, if any, and the caller that sees it stops waiting; a poll of hung callers never sees a list |
| `ProductsApi.ProductsCache.CompleteFetchAsWritten` | src/api/products.ts:89-99 | success caches the mapped list and lowers the flag; an abort returns the fallback, an error is rethrown, and both leave the flag raised with nothing cached, so the next caller is stuck and callers already polling hang |
| `ProductsApi.ProductsCache.CompleteFetch` | src/api/products.ts:89-99 | corrected completion: same result and cache as written, but the flag is lowered on every path and every caller that was polling is settled with the same result, so afterwards no caller is stuck or hung |
| `ProductsApi.ProductsCache.FetchProductsAsWritten` | src/api/products.ts:44-101 | one call as written: the cache when set; polling (one more waiter) when the flag is raised, forever if the client was stuck; otherwise the mapped list (cached, flag lowered), or the fallback or the error, each leaving the client stuck |
| `ProductsApi.ProductsCache.FetchProducts` | src/api/products.ts:44-101 | the corrected composition of the head of `fetchProducts` with `CompleteFetch`: the same replies as written, but an issued request leaves the flag down and nobody waiting, and a healthy client stays healthy |
| `ProductsApi.TwoCallersOneRequest` | src/api/products.ts:45-62 | two callers with nothing cached share one request, and once it succeeds the waiting one's poll sees the cached list |
| `ProductsApi.StuckAfterTimeout` | src/api/products.ts:93-97 | as written, the caller after a timeout waits, its poll sees no list, and it is left hung |
| `ProductsApi.WaiterAfterTimeout` | src/api/products.ts:49-97 | as written, a caller already polling when the request times out is never resolved: the issuing caller gets the fallback, the waiter's poll sees no list, and it is left hung |
| `ProductsApi.RetryAfterTimeout` | src/api/products.ts:92-99 | with the flag lowered, the caller after a timeout issues a new request |
| `ProductsApi.WaiterSharesOutcome` | src/api/products.ts:49-97 | with the corrected completion, a caller polling when the request times out is settled with the same fallback list, and nobody is left stuck or hung |
| `HttpConfig.HexDigit` | src/api/config.ts:100 | a hex digit is an unreserved character |
| `HttpConfig.Utf8` | src/api/config.ts:100 | one to four bytes per character, one exactly for ASCII |
| `HttpConfig.PercentBytes` | src/api/config.ts:100 | three characters per byte, each `%` or unreserved |
| `HttpConfig.EncodeChar` | src/api/config.ts:100 | unreserved characters stay; others become at least three characters, each `%` or unreserved |
| `HttpConfig.EncodeURIComponent` | src/api/config.ts:100 | the output holds only unreserved characters and `%`, and is exactly as long as the input iff the input is all unreserved |
| `HttpConfig.EncodeFixedIff` | src/api/config.ts:100 | a string encodes to itself iff all its characters are unreserved |
| `HttpConfig.FormatParams` | src/api/config.ts:98-102 | the query is empty iff there are no params |
| `HttpConfig.EncodePairs` | src/api/config.ts:98-102 | one `key=value` piece per key, in key order |
| `HttpConfig.Split` | src/api/config.ts:101 | splitting yields at least one piece |
| `HttpConfig.SplitNoSeparator` | src/api/config.ts:101 | a string without the separator is one piece |
| `HttpConfig.SplitAtFirst` | src/api/config.ts:101 | a separator-free head splits off as the first piece |
| `HttpConfig.EncodedHasNo` | src/api/config.ts:100 | encoded text contains no reserved character other than `%` (so no `&` or `=`) |
| `HttpConfig.PairSplits` | src/api/config.ts:100 | each pair splits at `=` into exactly the encoded key and value |
| `HttpConfig.FormatParamsSplits` | src/api/config.ts:98-102 | the query splits at `&` into one encoded pair per key, in key order |
| `HttpConfig.CreateUrl` | src/api/config.ts:107-111 | no params or an empty query leave the address unchanged; otherwise the query follows a `?` |
| `HttpConfig.Lookup` | src/api/config.ts:116-118 | a member is absent iff no entry has the key; otherwise it is a value listed under the key |
| `HttpConfig.IsApiResponse` | src/api/config.ts:116-118 | a body is an envelope iff it is an object with a `code`, a `message` and a `data` member |
| `HttpConfig.ResponseInterceptor` | src/api/config.ts:158-163 | fails iff the code is not 200, with the message when truthy and `Error` otherwise; on 200 returns the envelope unchanged |
| `HttpConfig.HandleResponse` | src/api/config.ts:248-252 | a body fails iff it is an envelope (an object with code, message and data) whose code is not 200; otherwise it is returned unchanged |
| `HttpConfig.HeaderValue` | src/api/config.ts:133-136 | a header is absent iff no entry has the name; a present one reads as its first entry's value by `HttpConfig.HeaderValueReadsFirst` |
| `HttpConfig.HeaderValueReadsFirst` | src/api/config.ts:133-136 | a present header reads as the value of its first entry |
| `HttpConfig.SetHeader` | src/api/config.ts:133-136 | the header reads as the new value and others are unchanged; a new one goes last; an existing one is replaced in place by `HttpConfig.SetHeaderInPlace` |
| `HttpConfig.SetHeaderInPlace` | src/api/config.ts:133-136 | setting a present header replaces its first entry in place and leaves every other entry where it was |
| `HttpConfig.SetHeaderIdempotent` | src/api/config.ts:133-136 | setting the same header twice is setting it once |
| `HttpConfig.RequestInterceptor` | src/api/config.ts:123-146 | adds `Authorization: Bearer <token>` iff the token is required (default true) and non-empty, other headers unchanged; GET with params folds them into the address and drops them; otherwise address and params unchanged |
| `HttpConfig.InterceptorIdempotent` | src/api/config.ts:123-146 | intercepting an intercepted request changes nothing |
| `HttpConfig.VerbOptions` | src/api/config.ts:263-313 | each wrapper sets its verb; GET and DELETE pass params, POST, PUT and PATCH pass the body; headers and the token flag are kept |
| `HttpConfig.OnlyGetFoldsParams` | src/api/config.ts:140-143 | GET params end up in the address; DELETE params stay in the options |
| `HttpConfig.LoadingIndicator.constructor` | src/api/config.ts:316 | no request running, no overlay |
| `HttpConfig.LoadingIndicator.ShowLoading` | src/api/config.ts:321-339 | the count goes up by one; an overlay is added only when the count was 0 |
| `HttpConfig.LoadingIndicator.HideLoading` | src/api/config.ts:344-352 | the count goes down by one; an overlay is removed only when the count reaches 0 |
| `HttpConfig.LoadingIndicator.RequestWithLoading` | src/api/config.ts:357-381 | one show before and one hide after, so count and overlay are as before; the verb's options are the ones sent and the outcome is passed on |
| `HttpConfig.OverlappingRequests` | src/api/config.ts:321-352 | two overlapping requests show one overlay, from the first start to the last end |

## Left out

- Network I/O is not modelled. `fetch`, `AbortController`, the timeouts and the 100 ms `setTimeout` polling are absent. The request outcome is a parameter: a list, an abort or another error. One poll is `CheckCache`.
- The DOM and rendering are not modelled: the overlay element (only counted), the JSX, `window.history.pushState` (the pushed query is returned) and antd toasts (`errorHandler`).
- The Redux and React machinery is not modelled: `createSlice`, `dispatch`, `useEffect`, `useSelector`, the store object and `console` logging. The slice is a class; the effects are methods on it.
- `Text.LexCompare` is a code-point order, not locale collation. Locale-dependent `localeCompare` results are not captured.
- `Text.ToLower` lower-cases ASCII capitals only. Unicode case mapping is not captured.
- Prices are whole numbers. JavaScript floating point and `NaN` are not modelled.
- Titles and user names are always strings in this model. In the source a product whose title or user name is missing makes the search pass throw (src/store/productsSlice.ts:126-127, 205-206, 264-265); that error path is not modelled.
- The slice's `Product.imagePath` field is not modelled, because no reducer reads it. Null entries in a payload list are not modelled either: `p?.title` is modelled as a non-empty title.
- The `URLSearchParams` entry list is modelled, but not its `toString` serialisation. The round trip is proved on the entries.
- `HttpConfig.Lookup`: for an object with repeated keys it returns the last value, as `JSON.parse` does. Its contract only says that the value is listed under the key.
- Param values are modelled as the strings the template literal makes of them; `Object.keys` ordering of integer-like keys is not modelled.
- The error a failed envelope throws carries the message value; the string conversion done by `new Error(...)` is not modelled.
- `fetchRequest`'s option merge with the defaults, the base URL prefix, `checkStatus` on HTTP status codes, and `JSON.stringify` of the body are not modelled. `HandleResponse` models only its envelope step.
- `requestWithLoading`'s `Unsupported HTTP method` branch is not modelled, because the verb type admits only the five methods.
- The contents of the bundled fake products are not part of this model. `fake-products.ts` is a constructor parameter of `ProductsCache`.

## Findings

| source | as written | input that shows it | evidently intended | confidence | as-written member | corrected member |
|---|---|---|---|---|---|---|
| src/api/products.ts:92-99 | after an abort or any other error, `isFetching` stays true and nothing is cached | first call times out (fallback returned) while a second caller polls, then a third call | lower `isFetching` on every path and settle the callers that are polling, so nobody waits forever and a later call issues a new request | medium, not executed | `ProductsApi.ProductsCache.CompleteFetchAsWritten` | `ProductsApi.ProductsCache.CompleteFetch` |
| src/api/products.ts:44-101 | a call that finds the flag raised polls for a list; after a failed request nothing will ever deliver one | as above | a call issues a request or shares the outcome of the one in flight | medium, not executed | `ProductsApi.ProductsCache.FetchProductsAsWritten` | `ProductsApi.ProductsCache.FetchProducts` |

With the code as written, a caller that was already polling when the request failed keeps polling `checkCache` every 100 ms for a list that nothing will deliver (`ProductsApi.WaiterAfterTimeout`). A caller arriving later finds no cache and the flag raised, and joins it (`ProductsApi.StuckAfterTimeout`). The corrected completion lowers the flag and settles the polling callers with the same result (`ProductsApi.WaiterSharesOutcome`), so the caller after a timeout issues a new request (`ProductsApi.RetryAfterTimeout`). `FetchProducts` is the composition with the corrected completion; `FetchProductsAsWritten` is the one the source has.
