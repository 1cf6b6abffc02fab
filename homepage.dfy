/**
 * The gallery's home page (`Home`): the page-number state and how it is reset, which query
 * options it requests, and which panels it shows for the current search text, the debounced
 * search text and the states of the search and featured-photo queries.
 *
 * The debounced text is an input: the debounce hook itself is not part of this model. The
 * fetch states are whatever the query library reports.
 */
module HomePage {
  import opened Optional
  import opened JsString
  import opened QueryOptions
  import opened CacheUtils
  import UseUnsplashPhotos
  import SearchBar

  const PHOTOS_PER_PAGE: int := 20
  const MIN_SEARCH_LENGTH: int := 3
  const DEBOUNCE_DELAY: int := 400

  /** The key of the featured (random) photos query as the page requests it. */
  const RANDOM_PHOTOS_KEY: QueryKey := [Str("photos"), Str("random"), Num(PHOTOS_PER_PAGE)]

  /** A photo of the photo service; only its identity matters here. */
  datatype Photo = Photo(id: string)

  /** The search endpoint's answer. */
  datatype SearchResponse = SearchResponse(total: int, totalPages: int, results: seq<Photo>)

  /** What the search query reports: its data, `isLoading`, whether `error` is set, `isFetching`. */
  datatype SearchFetch = SearchFetch(data: Option<SearchResponse>, isLoading: bool, hasError: bool, isFetching: bool)

  /** What the featured-photos query reports: its data and `isLoading`. */
  datatype RandomFetch = RandomFetch(data: Option<seq<Photo>>, isLoading: bool)

  /** The blocks the page may render below the search bar. */
  datatype Panel = LoadingSpinner | FeaturedPhotos | NoSearchState | ErrorState | NoResultsState | SearchResults

  /** Everything the page derives for one render. */
  datatype Display = Display(
    trimmedQuery: string,
    hasSearched: bool,
    isLoading: bool,
    photos: seq<Photo>,
    totalPages: int,
    hasError: bool,
    isSearching: bool,
    panels: set<Panel>)

  /** `isQueryValid` / `hasSearched`: the trimmed debounced text has at least 3 characters, so the raw text has too. */
  predicate HasSearched(debouncedQuery: string)
    ensures HasSearched(debouncedQuery) ==> |debouncedQuery| >= MIN_SEARCH_LENGTH
  {
    |Trim(debouncedQuery)| >= MIN_SEARCH_LENGTH
  }

  /** Surrounding whitespace never turns a text into a valid search or out of one. */
  lemma HasSearchedIgnoresPadding(w1: string, s: string, w2: string)
    requires AllWhitespace(w1) && AllWhitespace(w2)
    ensures HasSearched(w1 + s + w2) <==> HasSearched(s)
  {
    TrimIgnoresPadding(w1, s, w2);
  }

  /**
   * The searching indicator. It is off for raw text shorter than 3 characters and once the
   * debounce has caught up with no search in flight; for raw text of 3 or more characters it
   * is on while the debounce is pending and while a search is in flight.
   */
  predicate IsSearching(searchQuery: string, debouncedQuery: string, isSearchFetching: bool)
    ensures |searchQuery| < MIN_SEARCH_LENGTH ==> !IsSearching(searchQuery, debouncedQuery, isSearchFetching)
    ensures searchQuery == debouncedQuery && !isSearchFetching ==> !IsSearching(searchQuery, debouncedQuery, isSearchFetching)
    ensures |searchQuery| >= MIN_SEARCH_LENGTH && searchQuery != debouncedQuery ==> IsSearching(searchQuery, debouncedQuery, isSearchFetching)
    ensures |searchQuery| >= MIN_SEARCH_LENGTH && isSearchFetching ==> IsSearching(searchQuery, debouncedQuery, isSearchFetching)
  {
    |searchQuery| >= MIN_SEARCH_LENGTH && (searchQuery != debouncedQuery || isSearchFetching)
  }

  /**
   * The screen as a decision table: the spinner while loading; without a search the featured
   * photos or, when there are none, the "no search" state; with a search the results, the
   * error state, both (a failed refetch that still has results), or the "no results" state.
   */
  function PanelTable(isLoading: bool, hasSearched: bool, hasError: bool, photoCount: nat): (p: set<Panel>)
    ensures |p| == 1 || p == {ErrorState, SearchResults}
  {
    if isLoading then {LoadingSpinner}
    else if !hasSearched then (if photoCount > 0 then {FeaturedPhotos} else {NoSearchState})
    else if hasError then (if photoCount > 0 then {ErrorState, SearchResults} else {ErrorState})
    else if photoCount > 0 then {SearchResults}
    else {NoResultsState}
  }

  /**
   * The panels the page renders, each under its own condition as the page writes them,
   * for the loading flag, whether a search is active, whether the search failed and the
   * number of photos. They agree with the decision table.
   */
  function Panels(isLoading: bool, hasSearched: bool, hasError: bool, photoCount: nat): (p: set<Panel>)
    ensures p == PanelTable(isLoading, hasSearched, hasError, photoCount)
  {
    var spinner := if isLoading then {LoadingSpinner} else {};
    var featured := if !isLoading && !hasSearched && photoCount > 0 then {FeaturedPhotos} else {};
    var noSearch := if !isLoading && !hasSearched && photoCount == 0 then {NoSearchState} else {};
    var error := if !isLoading && hasSearched && hasError then {ErrorState} else {};
    var noResults := if !isLoading && hasSearched && !hasError && photoCount == 0 then {NoResultsState} else {};
    var results := if !isLoading && hasSearched && photoCount > 0 then {SearchResults} else {};
    spinner + featured + noSearch + error + noResults + results
  }

  /**
   * While loading only the spinner is shown; the error and "no results" states never appear
   * together, nor do featured photos and search results; the "no search" state appears
   * exactly when nothing loads, no search is active and there are no featured photos; search
   * panels appear only for an active search; and error and results appear together exactly
   * for a failed search that still has photos.
   */
  lemma PanelExclusions(isLoading: bool, hasSearched: bool, hasError: bool, photoCount: nat)
    ensures var p := PanelTable(isLoading, hasSearched, hasError, photoCount);
            && (isLoading ==> p == {LoadingSpinner})
            && !(ErrorState in p && NoResultsState in p)
            && !(FeaturedPhotos in p && SearchResults in p)
            && (NoSearchState in p <==> !isLoading && !hasSearched && photoCount == 0)
            && (FeaturedPhotos in p <==> !isLoading && !hasSearched && photoCount > 0)
            && ((ErrorState in p || NoResultsState in p || SearchResults in p) ==> hasSearched)
            && (p == {ErrorState, SearchResults} <==> !isLoading && hasSearched && hasError && photoCount > 0)
            && p != {}
  {
    var p := PanelTable(isLoading, hasSearched, hasError, photoCount);
    if !isLoading && hasSearched && hasError && photoCount == 0 {
      assert p == {ErrorState} && SearchResults !in p;
    } else if !isLoading && hasSearched && !hasError && photoCount > 0 {
      assert p == {SearchResults} && ErrorState !in p;
    }
  }

  /** The page's derivation for one render from its inputs. */
  function SelectDisplay(searchQuery: string, debouncedQuery: string, search: SearchFetch, random: RandomFetch): (d: Display)
    ensures d.hasSearched <==> HasSearched(debouncedQuery)
    ensures d.trimmedQuery == Trim(debouncedQuery)
    ensures d.hasError == search.hasError
    ensures d.isSearching <==> IsSearching(searchQuery, debouncedQuery, search.isFetching)
    ensures d.panels == Panels(d.isLoading, d.hasSearched, d.hasError, |d.photos|)
  {
    var trimmedQuery := Trim(debouncedQuery);
    var hasSearched := |trimmedQuery| >= MIN_SEARCH_LENGTH;
    var isLoading := if hasSearched then search.isLoading else random.isLoading;
    var photos :=
      if hasSearched then (if search.data.Some? then search.data.value.results else [])
      else (if random.data.Some? then random.data.value else []);
    var totalPages := if hasSearched then (if search.data.Some? then search.data.value.totalPages else 0) else 1;
    var hasError := search.hasError;
    var isSearching := IsSearching(searchQuery, debouncedQuery, search.isFetching);
    Display(trimmedQuery, hasSearched, isLoading, photos, totalPages, hasError, isSearching,
            Panels(isLoading, hasSearched, hasError, |photos|))
  }

  /**
   * Without an active search the page shows the featured photos with a single page and the
   * featured query's loading flag; with one, the search results, their page count and the
   * search query's loading flag. Missing data counts as no photos (and 0 pages).
   */
  lemma DisplaySources(searchQuery: string, debouncedQuery: string, search: SearchFetch, random: RandomFetch)
    ensures var d := SelectDisplay(searchQuery, debouncedQuery, search, random);
            && (!d.hasSearched ==>
                  && d.isLoading == random.isLoading
                  && d.photos == (if random.data.Some? then random.data.value else [])
                  && d.totalPages == 1)
            && (d.hasSearched ==>
                  && d.isLoading == search.isLoading
                  && d.photos == (if search.data.Some? then search.data.value.results else [])
                  && d.totalPages == (if search.data.Some? then search.data.value.totalPages else 0))
  {
  }

  /**
   * The page shows search panels exactly when the search hook it renders is enabled, and
   * the featured panels exactly when it is not, whatever the page number.
   */
  lemma SearchPanelsIffSearchEnabled(searchQuery: string, debouncedQuery: string, search: SearchFetch, random: RandomFetch, page: int)
    ensures var d := SelectDisplay(searchQuery, debouncedQuery, search, random);
            var c := UseUnsplashPhotos.SearchPhotosConfig(debouncedQuery, page, PHOTOS_PER_PAGE, MIN_SEARCH_LENGTH);
            && (d.hasSearched <==> c.enabled)
            && (FeaturedPhotos in d.panels || NoSearchState in d.panels ==> !c.enabled)
            && (ErrorState in d.panels || NoResultsState in d.panels || SearchResults in d.panels ==> c.enabled)
  {
    var d := SelectDisplay(searchQuery, debouncedQuery, search, random);
    PanelExclusions(d.isLoading, d.hasSearched, d.hasError, |d.photos|);
  }

  /**
   * On the page the search bar never shows the length hint and the spinner together, and
   * for an empty text it shows none of hint, spinner and clear button.
   */
  lemma PageSearchBarConsistent(searchQuery: string, debouncedQuery: string, isSearchFetching: bool)
    ensures var v := SearchBar.Render(searchQuery, MIN_SEARCH_LENGTH, IsSearching(searchQuery, debouncedQuery, isSearchFetching));
            && !(v.showHint && v.showSpinner)
            && (searchQuery == "" ==> !v.showHint && !v.showSpinner && !v.showClear)
  {
  }

  /** Once the debounce has caught up and no search is in flight the indicator is off, and it is always off for raw text shorter than 3 characters. */
  lemma SettledIsNotSearching(searchQuery: string, debouncedQuery: string, isSearchFetching: bool)
    ensures !IsSearching(searchQuery, searchQuery, false)
    ensures |searchQuery| < MIN_SEARCH_LENGTH ==> !IsSearching(searchQuery, debouncedQuery, isSearchFetching)
  {
  }

  /** The featured-photos key never collides with a search or a photo key. */
  lemma RandomKeyDistinct(query: string, page: int, perPage: int, photoId: string)
    ensures RANDOM_PHOTOS_KEY != GetSearchCacheKey(query, page, perPage)
    ensures RANDOM_PHOTOS_KEY != GetPhotoCacheKey(photoId)
  {
  }

  /** The page's own state: the search text, the debounced search text, and the current page. */
  class Home {
    var searchQuery: string
    var debouncedQuery: string
    var currentPage: int

    /** The first render: empty text on page 1 (the reset effect does nothing for the empty text). */
    constructor ()
      ensures searchQuery == "" && debouncedQuery == "" && currentPage == 1
    {
      searchQuery := "";
      debouncedQuery := "";
      currentPage := 1;
    }

    /** On mount: the health check of the persisted cache, whose verdict the page ignores. */
    method CheckCacheOnMount(storage: BrowserStorage, parse: JsonParser, now: int)
      modifies storage
      ensures var o := HealthCheck(storage.hasWindow, old(storage.StoredCache()), parse, now);
              storage.items == if o.clearsStorage then old(storage.items) - {CACHE_STORAGE_KEY} else old(storage.items)
    {
      var _ := storage.IsCacheHealthy(parse, now);
    }

    /** The search bar's `onChange`: new raw text. */
    method SetSearchQuery(value: string)
      modifies this
      ensures searchQuery == value
      ensures debouncedQuery == old(debouncedQuery) && currentPage == old(currentPage)
    {
      searchQuery := value;
    }

    /**
     * The debounce hook delivers `value`. The reset effect runs only when the debounced value
     * actually changes, and then goes back to page 1 if the new text is a valid search.
     */
    method DebouncedQueryChanged(value: string)
      modifies this
      ensures debouncedQuery == value && searchQuery == old(searchQuery)
      ensures currentPage == if value != old(debouncedQuery) && HasSearched(value) then 1 else old(currentPage)
      ensures value != old(debouncedQuery) && HasSearched(value) ==>
                SearchConfig().queryKey == GetSearchCacheKey(value, 1) && SearchConfig().enabled
    {
      if value != debouncedQuery {
        debouncedQuery := value;
        if |Trim(debouncedQuery)| >= MIN_SEARCH_LENGTH {
          currentPage := 1;
        }
      }
    }

    /** `handlePageChange`: the chosen page becomes current; nothing else in the state changes. */
    method HandlePageChange(page: int)
      modifies this
      ensures currentPage == page
      ensures searchQuery == old(searchQuery) && debouncedQuery == old(debouncedQuery)
    {
      currentPage := page;
    }

    /** The search query the page requests: keyed by the debounced text and the current page, enabled exactly for a valid search. */
    function SearchConfig(): (c: QueryConfig)
      reads this
      ensures c == UseUnsplashPhotos.SearchPhotosConfig(debouncedQuery, currentPage, PHOTOS_PER_PAGE, MIN_SEARCH_LENGTH)
      ensures c.queryKey == GetSearchCacheKey(debouncedQuery, currentPage, PHOTOS_PER_PAGE)
      ensures c.enabled <==> HasSearched(debouncedQuery)
    {
      UseUnsplashPhotos.SearchPhotosConfig(debouncedQuery, currentPage, PHOTOS_PER_PAGE, MIN_SEARCH_LENGTH)
    }

    /** What the page renders for the current state and the two query states. */
    function View(search: SearchFetch, random: RandomFetch): (d: Display)
      reads this
      ensures d == SelectDisplay(searchQuery, debouncedQuery, search, random)
      ensures d.isSearching <==> IsSearching(searchQuery, debouncedQuery, search.isFetching)
    {
      SelectDisplay(searchQuery, debouncedQuery, search, random)
    }
  }
}
