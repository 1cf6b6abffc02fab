/**
 * The `usePhotoDetails` hook: the `useQuery` options for one photo, and what its query
 * function does before any request (it returns null for a missing or empty id).
 */
module UsePhotoDetails {
  import opened Optional
  import opened JsString
  import opened QueryOptions
  import opened CacheUtils
  import UseUnsplashPhotos

  /**
   * The options of `useQuery` for a photo id (`string | null`): keyed `['photo', photoId]`,
   * agreeing with `getPhotoCacheKey` for an id; enabled exactly when the id is truthy; with the
   * photo cache times of `CACHE_CONFIG` and two retries, more than a search gets.
   */
  function PhotoDetailsConfig(photoId: Option<string>): (c: QueryConfig)
    ensures photoId.Some? ==> c.queryKey == GetPhotoCacheKey(photoId.value)
    ensures photoId.None? ==> c.queryKey == [Str("photo"), Null]
    ensures c.enabled <==> photoId.Some? && photoId.value != ""
    ensures c.staleTime == PHOTO_STALE_TIME && c.gcTime == PHOTO_GC_TIME && c.staleTime < c.gcTime
    ensures c.retry == 2
    ensures forall q, p, n, m :: c.retry > UseUnsplashPhotos.SearchPhotosConfig(q, p, n, m).retry
    ensures !c.refetchOnMount && !c.refetchOnWindowFocus
  {
    QueryConfig(
      [Str("photo"), if photoId.Some? then Str(photoId.value) else Null],
      Truthy(photoId),
      30 * 60 * 1000,
      24 * 60 * 60 * 1000,
      2,
      false,
      false)
  }

  /**
   * The query function's first step: None when it resolves to null without fetching,
   * otherwise the path it requests. It fetches exactly when the query is enabled.
   */
  function PhotoDetailsRequest(photoId: Option<string>): (path: Option<string>)
    ensures path.Some? <==> PhotoDetailsConfig(photoId).enabled
    ensures path.Some? ==> path.value == "/photos/" + photoId.value
  {
    if !Truthy(photoId) then None else Some("/photos/" + photoId.value)
  }

  /** An empty id gets its own key, distinct from null's, but neither is fetched. */
  lemma EmptyIdNeverFetched()
    ensures PhotoDetailsConfig(Some("")).queryKey != PhotoDetailsConfig(None).queryKey
    ensures !PhotoDetailsConfig(Some("")).enabled && !PhotoDetailsConfig(None).enabled
    ensures PhotoDetailsRequest(Some("")) == None && PhotoDetailsRequest(None) == None
  {
    assert PhotoDetailsConfig(Some("")).queryKey[1] != PhotoDetailsConfig(None).queryKey[1];
  }
}
