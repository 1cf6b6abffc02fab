# Photo gallery: cache keys, cache health and view selection, in Dafny

This project models the parts of a Next.js photo gallery that its own code decides. The
gallery is a search front end for a photo service: it debounces the search text, turns it
into query keys for the query library's cache, and checks the health of the cache that the
library persists to `localStorage`. It then chooses what to show: featured (random) photos,
a spinner, an error, "no results", or search results with pagination.

The model covers five source files:

- `src/utils/cacheUtils.ts` (module `CacheUtils`, file `cacheutils.dfy`). It covers the
  `CACHE_CONFIG` constants, `normalizeSearchQuery`, the two key builders, and the cache
  statistics. The stored entry is taken as a `localStorage` map held by a `BrowserStorage`
  object, with methods `ClearPersistedCache`, `GetCacheStats` and `IsCacheHealthy`.
  `ClearPersistedCache` states its new storage directly. `GetCacheStats` is specified by the
  pure function `CacheStatsOf`, and `IsCacheHealthy` by the health verdict `HealthCheck`. The lemmas about those functions give the health
  rules: no window, nothing stored, corrupt data, and the strict 7-day age bound.
- `src/hooks/useUnsplashPhotos.ts` and `src/hooks/usePhotoDetails.ts` (modules
  `UseUnsplashPhotos` and `UsePhotoDetails`). Each hook becomes a function from its
  arguments to the option record it hands to `useQuery`: key, `enabled`, `staleTime`,
  `gcTime`, `retry`, `refetchOnMount` and `refetchOnWindowFocus`. The photo hook also keeps
  the short circuit of its query function.
- `src/components/SearchBar.tsx` (module `SearchBar`). It becomes the three visibility
  decisions: hint, spinner and clear button.
- `src/app/page.tsx` (module `HomePage`). `Home` is a class holding the search text, the
  debounced text and `currentPage`. Its methods are the mount-time cache health check, the
  page-reset effect, `handlePageChange` and the search bar's `onChange`. The display is a pure function of the page state and the
  two query states. The panels are given twice and proved equal:
  - `Panels` writes each condition the way the page does;
  - `PanelTable` is a decision table.

Three supporting modules model what the code takes from JavaScript and from the query
library. `JsString` (`jsstring.dfy`) gives `trim`, `toLowerCase` and the truthiness of a
`string | null`. `QueryOptions` (`queryoptions.dfy`) gives the key arrays and the option
record. `Optional` (`optional.dfy`) holds the `Option` type.

`trim` removes exactly the ECMAScript WhiteSpace and LineTerminator characters. `toLowerCase`
is modelled on the ASCII letters `A`–`Z` only. Strings are sequences of Unicode scalar
values.

Some behaviours of the code are easy to misread; the model follows the code:

- **Page reset.** The page goes back to page 1 only when the debounced text changes to a
  valid search (at least 3 characters once trimmed). A change to a shorter text keeps the
  page. A "change" to the same text does nothing, because the React effect's dependency did
  not change.
- **Corrupt stored data.** `getCacheStats` catches the parse error and returns null. So
  `isCacheHealthy` reports stored data that does not parse as healthy and does not remove
  it. The `catch` branch of `isCacheHealthy` is still reachable. For stored text that parses,
  `now - stats.timestamp` converts the timestamp to a number, and that conversion throws for
  an object such as `{"toString": 0}`. The catch then removes the entry and reports failure.
  The model gives the timestamp three outcomes for this: a number, NaN, or a conversion that
  throws.
- **Random key.** The featured-photos key has three parts, `['photos', 'random', count]`.
- **Empty stored string.** An empty stored string counts as nothing stored (`!cacheData`).

## Model

| member | source | states |
|---|---|---|
| `JsString.TrimStart` | src/utils/cacheUtils.ts:27 | the leading-whitespace step of `trim`: the result is a suffix of the input, everything dropped is whitespace, and the result does not start with whitespace |
| `JsString.TrimEnd` | src/utils/cacheUtils.ts:27 | the trailing-whitespace step of `trim`: the result is a prefix, everything dropped is whitespace, and the result does not end with whitespace |
| `JsString.Trim` | src/utils/cacheUtils.ts:27 | `trim()` leaves no whitespace at either end |
| `JsString.TrimSplit` | src/utils/cacheUtils.ts:27 | the input is the trimmed string padded on both sides by whitespace only |
| `JsString.TrimIdempotent` | src/utils/cacheUtils.ts:27 | trimming twice is trimming once |
| `JsString.TrimIgnoresPadding` | src/utils/cacheUtils.ts:27 | adding whitespace on either side does not change the trimmed text |
| `JsString.ToLower` | src/utils/cacheUtils.ts:27 | `toLowerCase()` keeps the length and lower-cases each character |
| `JsString.LowerIdempotent` | src/utils/cacheUtils.ts:27 | lower-casing twice is lower-casing once, and no ASCII upper-case letter is left |
| `JsString.TrimLowerCommute` | src/hooks/useUnsplashPhotos.ts:18 | `s.trim().toLowerCase()` equals `s.toLowerCase().trim()` |
| `JsString.Truthy` | src/utils/cacheUtils.ts:61 | JavaScript truthiness of a string or null (also `!photoId` and `!!photoId` in src/hooks/usePhotoDetails.ts): null and the empty string are falsy, every non-empty string is truthy |
| `JsString.EqualIgnoringCaseIff` | src/utils/cacheUtils.ts:27 | the character-by-character case-insensitive comparison holds exactly when both lower-cased strings are equal |
| `CacheUtils.CacheTimesOrdered` | src/utils/cacheUtils.ts:5-89 | the cache times are 15 min/60 min, 30 min/24 h and 5 min/10 min; in each category the stale time is below the gc time; the 7-day health limit (604800000 ms) is above the 24-hour persistence age |
| `CacheUtils.NormalizeSearchQuery` | src/utils/cacheUtils.ts:26-28 | the normalised text has no whitespace at either end, no ASCII upper-case letter, and the length of the trimmed input |
| `CacheUtils.NormalizeIdempotent` | src/utils/cacheUtils.ts:26-28 | normalising twice is normalising once |
| `CacheUtils.NormalizeIgnoresCaseAndPadding` | src/utils/cacheUtils.ts:26-28 | texts that differ only in letter case and surrounding whitespace normalise to the same string |
| `CacheUtils.NormalizeEqualIff` | src/utils/cacheUtils.ts:26-28 | two texts normalise alike exactly when their trimmed forms are equal up to case |
| `CacheUtils.GetSearchCacheKey` | src/utils/cacheUtils.ts:33-35 | the key is `['search', q, page, perPage]` where `q` is trimmed and has no ASCII upper-case letter |
| `CacheUtils.SearchKeyDefaultPerPage` | src/utils/cacheUtils.ts:33 | an omitted `perPage` is 20 |
| `CacheUtils.SearchKeyEqualIff` | src/utils/cacheUtils.ts:33-35 | two search keys are equal exactly when their pages and page sizes are equal and the queries, once trimmed, are equal up to case |
| `CacheUtils.SearchKeyIgnoresCaseAndPadding` | src/utils/cacheUtils.ts:33-35 | texts that differ in case and surrounding whitespace share a key for every page and page size |
| `CacheUtils.GetPhotoCacheKey` | src/utils/cacheUtils.ts:40-42 | the key is `['photo', id]`, with the id passed through unchanged |
| `CacheUtils.PhotoKeyInjective` | src/utils/cacheUtils.ts:40-42 | photo keys are equal exactly when the ids are equal, and no photo key equals a search key |
| `CacheUtils.QueriesCount` | src/utils/cacheUtils.ts:67 | the number of persisted queries is the length of `clientState.queries`, or 0 when either field is missing |
| `CacheUtils.CacheStatsOf` | src/utils/cacheUtils.ts:56-74 | the statistics are null exactly when there is no window, nothing or the empty string is stored, or the text does not parse; otherwise they carry the parsed timestamp, the client state and the query count |
| `CacheUtils.IsTooOld` | src/utils/cacheUtils.ts:88-91 | only a timestamp that converts to a number can be too old (NaN compares false), and such a timestamp is too old exactly when the age exceeds 604800000 ms |
| `CacheUtils.HealthCheck` | src/utils/cacheUtils.ts:79-102 | the entry is removed exactly when the check fails while a window exists |
| `CacheUtils.HealthWithoutWindow` | src/utils/cacheUtils.ts:80 | without a window the check fails and removes nothing |
| `CacheUtils.HealthWhenNothingStored` | src/utils/cacheUtils.ts:61 | nothing stored, or the empty string, is healthy and nothing is removed |
| `CacheUtils.HealthWhenCorrupt` | src/utils/cacheUtils.ts:59-84 | text that does not parse gives null statistics, is reported healthy, and is not removed |
| `CacheUtils.HealthAgeBound` | src/utils/cacheUtils.ts:86-101 | for a record that parses, the entry is removed exactly when its age is strictly above 604800000 ms or its timestamp's number conversion throws (the latter also reports failure); an age of exactly 7 days is kept, and so is a timestamp that is NaN |
| `CacheUtils.HealthCheckIff` | src/utils/cacheUtils.ts:79-101 | the check fails exactly when there is no window, or a parsed record's timestamp is more than 7 days old or cannot be converted to a number |
| `CacheUtils.HealthMonotoneInTime` | src/utils/cacheUtils.ts:87-91 | a record removed at some time would also be removed at any later time |
| `CacheUtils.BrowserStorage.StoredCache` | src/utils/cacheUtils.ts:60 | `getItem` returns the cache entry when it is present, and null otherwise |
| `CacheUtils.BrowserStorage.ClearPersistedCache` | src/utils/cacheUtils.ts:47-51 | with a window, exactly the cache entry is removed; without one, storage is unchanged |
| `CacheUtils.BrowserStorage.GetCacheStats` | src/utils/cacheUtils.ts:56-74 | returns `CacheStatsOf` for the current storage and does not change it |
| `CacheUtils.BrowserStorage.IsCacheHealthy` | src/utils/cacheUtils.ts:79-102 | returns the `HealthCheck` verdict; storage loses exactly the cache entry when the verdict says to remove it, and is otherwise unchanged |
| `UseUnsplashPhotos.SearchPhotosConfig` | src/hooks/useUnsplashPhotos.ts:12-45 | the key equals `getSearchCacheKey(query, page, perPage)`; `enabled` holds exactly when the normalised text reaches `minLength`; stale and gc times are `CACHE_CONFIG`'s search values, with stale below gc; retry is 1; no refetch on mount or on focus |
| `UseUnsplashPhotos.SearchPhotosDefaults` | src/hooks/useUnsplashPhotos.ts:15-16 | an omitted `perPage` is 20 and an omitted `minLength` is 3 |
| `UseUnsplashPhotos.SearchConfigDependsOnNormalizedQuery` | src/hooks/useUnsplashPhotos.ts:18-44 | texts equal after normalisation give identical option records |
| `UseUnsplashPhotos.SearchConfigIgnoresCaseAndPadding` | src/hooks/useUnsplashPhotos.ts:18-22 | texts that differ in case and surrounding whitespace give identical option records |
| `UsePhotoDetails.PhotoDetailsConfig` | src/hooks/usePhotoDetails.ts:13-33 | the key is `['photo', photoId]` and agrees with `getPhotoCacheKey` for an id; `enabled` holds exactly for a non-null, non-empty id; stale and gc times are `CACHE_CONFIG`'s photo values, with stale below gc; retry is 2, above every search query's retry |
| `UsePhotoDetails.PhotoDetailsRequest` | src/hooks/usePhotoDetails.ts:16-25 | the query function fetches `/photos/<id>` exactly when the query is enabled, and otherwise yields null without a fetch |
| `UsePhotoDetails.EmptyIdNeverFetched` | src/hooks/usePhotoDetails.ts:15-26 | the empty id and null get different keys, but neither is enabled or fetched |
| `SearchBar.Render` | src/components/SearchBar.tsx:9-73 | the hint shows for a value of length strictly between 0 and `minLength`; the spinner shows exactly while searching; the clear button shows for a non-empty value when not searching; spinner and clear button never show together; an empty value shows neither the hint nor the clear button |
| `SearchBar.DefaultHint` | src/components/SearchBar.tsx:13-16 | with the default `minLength` of 3, the hint shows exactly for one or two characters, and no spinner shows |
| `SearchBar.RightSlotOccupancy` | src/components/SearchBar.tsx:43-67 | a spinner or clear button shows exactly when the value is non-empty or a search is running |
| `HomePage.PanelTable` | src/app/page.tsx:90-121 | exactly one panel shows, except for the error-with-results pair |
| `HomePage.Panels` | src/app/page.tsx:90-121 | the six independent render conditions give the same panels as the decision table |
| `HomePage.PanelExclusions` | src/app/page.tsx:90-121 | while loading, only the spinner shows; error and no-results never show together, nor do featured and search results; no-search shows exactly when not loading, not searched and with no featured photos; search panels need an active search; error and results show together exactly for a failed search that still has photos; something always shows |
| `HomePage.HasSearched` | src/app/page.tsx:64-66 | a valid search needs a trimmed debounced text of at least 3 characters, so the untrimmed debounced text has at least 3 characters too |
| `HomePage.HasSearchedIgnoresPadding` | src/app/page.tsx:64-66 | surrounding whitespace never makes a text a valid search or stops it being one |
| `HomePage.IsSearching` | src/app/page.tsx:73-75 | the indicator is off for raw text under 3 characters and once the debounce has caught up with no fetch running; for raw text of 3 or more characters it is on while the debounce is pending or a fetch is running |
| `HomePage.SelectDisplay` | src/app/page.tsx:63-75 | `hasSearched` holds exactly when the trimmed debounced text has at least 3 characters; the error flag is the search query's error; the searching indicator is `IsSearching` of the raw text, the debounced text and the fetching flag; the shown panels are those of the derived loading flag, search state, error and photo count |
| `HomePage.DisplaySources` | src/app/page.tsx:67-69 | without a search, the random loading flag applies, with the random photos (or none) and 1 page; with a search, the search loading flag applies, with its results (or none) and `total_pages` (or 0) |
| `HomePage.SearchPanelsIffSearchEnabled` | src/app/page.tsx:39-69 | the page has an active search exactly when the search hook it calls is enabled; featured panels appear only when the hook is disabled, and search panels only when it is enabled |
| `HomePage.PageSearchBarConsistent` | src/app/page.tsx:73-86 | as the page wires it, the search bar never shows the hint and the spinner together, and for empty text it shows none of hint, spinner and clear button |
| `HomePage.SettledIsNotSearching` | src/app/page.tsx:73-75 | the indicator is off when the debounce has caught up and no fetch is running, and whenever the raw text is shorter than 3 characters |
| `HomePage.RandomKeyDistinct` | src/hooks/useRandomPhotos.ts:11 | the featured-photos key never equals a search key or a photo key |
| `HomePage.Home.constructor` | src/app/page.tsx:21-22 | the page starts with empty text on page 1 |
| `HomePage.Home.CheckCacheOnMount` | src/app/page.tsx:25-27 | on mount, the health check runs; storage loses the cache entry exactly when the check says to remove it |
| `HomePage.Home.SetSearchQuery` | src/app/page.tsx:83 | sets the raw text and leaves the debounced text and the page unchanged |
| `HomePage.Home.DebouncedQueryChanged` | src/app/page.tsx:29-37 | stores the debounced text; the page becomes 1 exactly when the text changed to a valid search, and the search then requested is enabled and keyed for page 1; otherwise the page is unchanged |
| `HomePage.Home.HandlePageChange` | src/app/page.tsx:58-61 | the chosen page becomes current, and nothing else in the state changes |
| `HomePage.Home.SearchConfig` | src/app/page.tsx:40-50 | the page calls the search hook with the debounced text, the current page, 20 and 3; its key is `getSearchCacheKey(debounced, page, 20)`, and it is enabled exactly for an active search |
| `HomePage.Home.View` | src/app/page.tsx:63-121 | the render is `SelectDisplay` of the page state; the indicator follows the raw and debounced text and the fetching flag |

## Left out

- The query library's cache engine and persistence plugin (`src/providers/QueryProvider.tsx`). This covers freshness, garbage collection, request de-duplication, retries, cancellation, throttled writes, `maxAge` and `buster`. Their code is library code. The stale, gc and retry numbers are modelled only as option values.
- The debounce hook, the `Pagination` component and the API client (`@/api/unsplash`) are not part of this model. The debounced text is an input of `Home.DebouncedQueryChanged`, and the 400 ms delay is only a constant.
- The HTTP requests of the query functions, and the content of the photo payloads. A photo is reduced to its id. For the photo hook, only the null short circuit and the requested path are modelled.
- `localStorage` and `window` are reduced to a map and a flag. `JSON.parse`, together with the outcome of converting `timestamp` to a number (`Timestamp`: milliseconds, NaN, or a throwing conversion), is the `parse` parameter. `Date.now()` is the `now` parameter.
- Exceptions raised by `localStorage` itself (storage disabled, removal that throws). The `catch` branch of `isCacheHealthy` is modelled only for the throwing timestamp conversion, the one way its `try` block can throw here.
- `sizeBytes` (the `Blob` byte size) and `console.error`.
- Timestamps and page numbers that are not integers: numbers are integers here.
- `src/components/CacheIndicator.tsx` (polling, clock and number formatting), and the options of `src/hooks/useRandomPhotos.ts` apart from its key.
- The markup components (Header, LoadingSpinner, PhotoGrid, EmptyState, the component barrel), the search bar's placeholder and the message texts.
- `window.scrollTo` in `handlePageChange`.
- React's rendering order. When a new debounced text arrives, the page renders once with the old page number before the reset effect runs. `Home.DebouncedQueryChanged` applies the new text and the reset in one step.
- JsString.ToLower: only `A`–`Z` are lower-cased. Other upper-case letters (`É`, `Σ`, …) are left unchanged. So texts such as `CAFÉ` and `café` get different keys here but the same key in JavaScript. The model's lower-casing also keeps the length, but JavaScript's does not: `İ` (U+0130) becomes `i` followed by U+0307, two characters.
- CacheUtils.NormalizeSearchQuery: inherits the ASCII-only lower-casing of `JsString.ToLower`. Its "same length as the trimmed input" holds in the model only: in JavaScript a normalised text can be longer than the trimmed one (`"aİ"` trims to 2 characters and normalises to 3).
- UseUnsplashPhotos.SearchPhotosConfig: "enabled exactly when the trimmed text reaches `minLength`" holds only under the model's length-keeping lower-casing. The hook tests the length of the normalised text, so in JavaScript it is also enabled for `"aİ"`, whose trimmed length is 2. "Enabled exactly when the normalised text reaches `minLength`" matches the source.
- HomePage.SearchPanelsIffSearchEnabled: "the page has an active search exactly when the hook is enabled" holds only under the model's lower-casing. The page tests the trimmed length and the hook the normalised length. So in JavaScript, for the debounced text `"aİ"`, the page shows featured photos while the hook fetches `['search', 'ai̇', page, 20]`.
- HomePage.Home.SearchConfig: "enabled exactly for an active search" has the same gap as `HomePage.SearchPanelsIffSearchEnabled`. For `"aİ"`, JavaScript enables the hook although `hasSearched` is false.
- JsString.Trim: strings are sequences of Unicode scalar values, not UTF-16 code units. So a length (`HasSearched`, `SearchBar.Render`, `IsSearching`) counts a character outside the Basic Multilingual Plane once, where JavaScript counts it twice.
