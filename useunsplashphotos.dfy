/**
 * The `useUnsplashPhotos` hook: from the search text, page, page size and minimum length it
 * derives the options handed to `useQuery`. The request itself (`queryFn`) is not modelled.
 */
module UseUnsplashPhotos {
  import opened JsString
  import opened QueryOptions
  import opened CacheUtils

  const DEFAULT_MIN_LENGTH: int := 3

  /**
   * The options of `useQuery` for a search: keyed like `getSearchCacheKey`, enabled exactly
   * when the normalised text reaches `minLength`, with the search cache times of
   * `CACHE_CONFIG`, one retry, and no refetch on mount or on window focus.
   */
  function SearchPhotosConfig(query: string, page: int, perPage: int := 20, minLength: int := DEFAULT_MIN_LENGTH): (c: QueryConfig)
    ensures c.queryKey == GetSearchCacheKey(query, page, perPage)
    ensures c.enabled <==> |NormalizeSearchQuery(query)| >= minLength
    ensures c.enabled <==> |Trim(query)| >= minLength
    ensures c.staleTime == SEARCH_STALE_TIME && c.gcTime == SEARCH_GC_TIME && c.staleTime < c.gcTime
    ensures c.retry == 1 && !c.refetchOnMount && !c.refetchOnWindowFocus
  {
    var trimmedQuery := ToLower(Trim(query));
    var isQueryValid := |trimmedQuery| >= minLength;
    QueryConfig(
      [Str("search"), Str(trimmedQuery), Num(page), Num(perPage)],
      isQueryValid,
      15 * 60 * 1000,
      60 * 60 * 1000,
      1,
      false,
      false)
  }

  /** Omitted `perPage` and `minLength` are 20 and 3. */
  lemma SearchPhotosDefaults(query: string, page: int)
    ensures SearchPhotosConfig(query, page) == SearchPhotosConfig(query, page, 20, 3)
  {
  }

  /** Search texts that are equal once normalised yield the same options, key included. */
  lemma SearchConfigDependsOnNormalizedQuery(a: string, b: string, page: int, perPage: int, minLength: int)
    requires NormalizeSearchQuery(a) == NormalizeSearchQuery(b)
    ensures SearchPhotosConfig(a, page, perPage, minLength) == SearchPhotosConfig(b, page, perPage, minLength)
  {
  }

  /** Search texts that differ in case and surrounding whitespace share options and so one cache entry. */
  lemma SearchConfigIgnoresCaseAndPadding(w1: string, a: string, w2: string, w3: string, b: string, w4: string, page: int, perPage: int, minLength: int)
    requires AllWhitespace(w1) && AllWhitespace(w2) && AllWhitespace(w3) && AllWhitespace(w4)
    requires EqualIgnoringCase(a, b)
    ensures SearchPhotosConfig(w1 + a + w2, page, perPage, minLength) == SearchPhotosConfig(w3 + b + w4, page, perPage, minLength)
  {
    NormalizeIgnoresCaseAndPadding(w1, a, w2, w3, b, w4);
  }
}
