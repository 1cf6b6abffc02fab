/**
 * The gallery's cache helpers: the cache timing constants, normalisation of search text,
 * the builders of search and photo query keys, and the health check of the query cache
 * that the persistence plugin keeps in the browser's `localStorage`.
 *
 * `localStorage` is a map from keys to strings held by a `BrowserStorage` object, together
 * with whether a browser `window` exists at all. `JSON.parse` is a parameter of the
 * operations that read the stored record; `Date.now()` is the parameter `now`.
 */
module CacheUtils {
  import opened Optional
  import opened JsString
  import opened QueryOptions

  // ---------------------------------------------------------------------------
  // CACHE_CONFIG (milliseconds)

  const SEARCH_STALE_TIME: int := 15 * 60 * 1000
  const SEARCH_GC_TIME: int := 60 * 60 * 1000
  const PHOTO_STALE_TIME: int := 30 * 60 * 1000
  const PHOTO_GC_TIME: int := 24 * 60 * 60 * 1000
  const RANDOM_STALE_TIME: int := 5 * 60 * 1000
  const RANDOM_GC_TIME: int := 10 * 60 * 1000
  const PERSIST_MAX_AGE: int := 24 * 60 * 60 * 1000
  const PERSIST_THROTTLE: int := 1000

  /** The `localStorage` entry the persister writes and the health check reads and removes. */
  const CACHE_STORAGE_KEY: string := "unsplash-gallery-cache"

  /** The age beyond which the health check discards the persisted cache: 7 days. */
  const MAX_CACHE_AGE: int := 7 * 24 * 60 * 60 * 1000

  /** The default `perPage` of `getSearchCacheKey`. */
  const DEFAULT_PER_PAGE: int := 20

  /** In every category data turns stale before it is garbage-collected, and the 7-day health limit exceeds the 24-hour persistence age. */
  lemma CacheTimesOrdered()
    ensures SEARCH_STALE_TIME == 900000 && SEARCH_GC_TIME == 3600000
    ensures PHOTO_STALE_TIME == 1800000 && PHOTO_GC_TIME == 86400000
    ensures RANDOM_STALE_TIME == 300000 && RANDOM_GC_TIME == 600000
    ensures SEARCH_STALE_TIME < SEARCH_GC_TIME
    ensures PHOTO_STALE_TIME < PHOTO_GC_TIME
    ensures RANDOM_STALE_TIME < RANDOM_GC_TIME
    ensures MAX_CACHE_AGE == 604800000 && PERSIST_MAX_AGE < MAX_CACHE_AGE
  {
  }

  // ---------------------------------------------------------------------------
  // Normalisation and keys

  /** `normalizeSearchQuery`: trimmed and lower-cased, so no whitespace at either end and no upper-case ASCII letter. */
  function NormalizeSearchQuery(query: string): (r: string)
    ensures IsTrimmed(r)
    ensures forall k :: 0 <= k < |r| ==> !IsAsciiUpper(r[k])
    ensures |r| == |Trim(query)|
  {
    LowerKeepsTrimmed(Trim(query));
    LowerIdempotent(Trim(query));
    ToLower(Trim(query))
  }

  /** Normalising twice is normalising once. */
  lemma NormalizeIdempotent(query: string)
    ensures NormalizeSearchQuery(NormalizeSearchQuery(query)) == NormalizeSearchQuery(query)
  {
    var n := NormalizeSearchQuery(query);
    TrimOfTrimmed(n);
    LowerIdempotent(Trim(query));
  }

  /** Queries that differ only in letter case and in surrounding whitespace normalise alike. */
  lemma NormalizeIgnoresCaseAndPadding(w1: string, a: string, w2: string, w3: string, b: string, w4: string)
    requires AllWhitespace(w1) && AllWhitespace(w2) && AllWhitespace(w3) && AllWhitespace(w4)
    requires EqualIgnoringCase(a, b)
    ensures NormalizeSearchQuery(w1 + a + w2) == NormalizeSearchQuery(w3 + b + w4)
  {
    TrimIgnoresPadding(w1, a, w2);
    TrimIgnoresPadding(w3, b, w4);
    EqualIgnoringCaseIff(a, b);
    TrimLowerCommute(a);
    TrimLowerCommute(b);
  }

  /** Two queries normalise alike exactly when their trimmed forms agree up to letter case. */
  lemma NormalizeEqualIff(a: string, b: string)
    ensures NormalizeSearchQuery(a) == NormalizeSearchQuery(b) <==> EqualIgnoringCase(Trim(a), Trim(b))
  {
    EqualIgnoringCaseIff(Trim(a), Trim(b));
  }

  /** `getSearchCacheKey(query, page, perPage = 20)`: the four-part search key, whose text part is normalised. */
  function GetSearchCacheKey(query: string, page: int, perPage: int := DEFAULT_PER_PAGE): (key: QueryKey)
    ensures |key| == 4 && key[0] == Str("search") && key[2] == Num(page) && key[3] == Num(perPage)
    ensures key[1].Str? && IsTrimmed(key[1].s)
    ensures forall k :: 0 <= k < |key[1].s| ==> !IsAsciiUpper(key[1].s[k])
  {
    [Str("search"), Str(NormalizeSearchQuery(query)), Num(page), Num(perPage)]
  }

  /** Omitting `perPage` is passing 20. */
  lemma SearchKeyDefaultPerPage(query: string, page: int)
    ensures GetSearchCacheKey(query, page) == GetSearchCacheKey(query, page, 20)
  {
  }

  /**
   * Two search keys are equal exactly when the pages and page sizes are equal and the
   * queries agree once trimmed, up to letter case.
   */
  lemma SearchKeyEqualIff(a: string, pageA: int, perPageA: int, b: string, pageB: int, perPageB: int)
    ensures GetSearchCacheKey(a, pageA, perPageA) == GetSearchCacheKey(b, pageB, perPageB)
        <==> pageA == pageB && perPageA == perPageB && EqualIgnoringCase(Trim(a), Trim(b))
  {
    NormalizeEqualIff(a, b);
    var ka, kb := GetSearchCacheKey(a, pageA, perPageA), GetSearchCacheKey(b, pageB, perPageB);
    if ka == kb {
      assert ka[1] == kb[1] && ka[2] == kb[2] && ka[3] == kb[3];
    }
  }

  /** Queries that differ only in case or surrounding whitespace share one cache entry per page. */
  lemma SearchKeyIgnoresCaseAndPadding(w1: string, a: string, w2: string, w3: string, b: string, w4: string, page: int, perPage: int)
    requires AllWhitespace(w1) && AllWhitespace(w2) && AllWhitespace(w3) && AllWhitespace(w4)
    requires EqualIgnoringCase(a, b)
    ensures GetSearchCacheKey(w1 + a + w2, page, perPage) == GetSearchCacheKey(w3 + b + w4, page, perPage)
  {
    NormalizeIgnoresCaseAndPadding(w1, a, w2, w3, b, w4);
  }

  /** `getPhotoCacheKey(photoId)`: the two-part photo key; the id is passed through as given. */
  function GetPhotoCacheKey(photoId: string): (key: QueryKey)
    ensures |key| == 2 && key[0] == Str("photo") && key[1] == Str(photoId)
  {
    [Str("photo"), Str(photoId)]
  }

  /** Distinct photo ids get distinct keys (ids are not normalised), and no photo key is a search key. */
  lemma PhotoKeyInjective(a: string, b: string, query: string, page: int, perPage: int)
    ensures GetPhotoCacheKey(a) == GetPhotoCacheKey(b) <==> a == b
    ensures GetPhotoCacheKey(a) != GetSearchCacheKey(query, page, perPage)
  {
    if GetPhotoCacheKey(a) == GetPhotoCacheKey(b) {
      assert GetPhotoCacheKey(a)[1] == GetPhotoCacheKey(b)[1];
    }
  }

  // ---------------------------------------------------------------------------
  // The persisted record and its statistics

  /** One dehydrated query of the persisted client state; its payload is not modelled. */
  datatype PersistedQuery = PersistedQuery(queryKey: QueryKey)

  /** `clientState`, whose `queries` array may be missing. */
  datatype ClientState = ClientState(queries: Option<seq<PersistedQuery>>)

  /**
   * What the parsed `timestamp` becomes when `now - parsed.timestamp` converts it to a number:
   * a number of milliseconds (a number, a numeric string, `null` as 0, ...), NaN (a missing
   * field, a non-numeric string, a plain object), or a TypeError from the conversion itself
   * (an object such as `{"toString": 0}`, whose `valueOf` and `toString` give no primitive).
   */
  datatype Timestamp = Millis(ms: int) | NotANumber | Unconvertible

  /** What `JSON.parse` gives for the stored string, as far as the health check reads it. */
  datatype PersistedRecord = PersistedRecord(timestamp: Timestamp, clientState: Option<ClientState>)

  /** `JSON.parse` followed by the field reads: None when it throws. */
  type JsonParser = string -> Option<PersistedRecord>

  /** The result of `getCacheStats`, without `sizeBytes`. */
  datatype CacheStats = CacheStats(timestamp: Timestamp, clientState: Option<ClientState>, queriesCount: nat)

  /** `parsed.clientState?.queries?.length || 0`. */
  function QueriesCount(clientState: Option<ClientState>): (n: nat)
    ensures n == 0 <== (clientState.None? || clientState.value.queries.None?)
    ensures clientState.Some? && clientState.value.queries.Some? ==> n == |clientState.value.queries.value|
  {
    match clientState
    case Some(ClientState(Some(queries))) => |queries|
    case _ => 0
  }

  /**
   * What `getCacheStats` returns for the given environment: null without a window, when
   * nothing (or the empty string) is stored, or when the stored text does not parse;
   * otherwise the parsed timestamp and client state with the number of stored queries.
   */
  function CacheStatsOf(hasWindow: bool, stored: Option<string>, parse: JsonParser): (r: Option<CacheStats>)
    ensures r.Some? <==> hasWindow && Truthy(stored) && parse(stored.value).Some?
    ensures r.Some? ==>
              && r.value.timestamp == parse(stored.value).value.timestamp
              && r.value.clientState == parse(stored.value).value.clientState
              && r.value.queriesCount == QueriesCount(r.value.clientState)
  {
    if !hasWindow || !Truthy(stored) then None
    else
      match parse(stored.value)
      case None => None
      case Some(parsed) => Some(CacheStats(parsed.timestamp, parsed.clientState, QueriesCount(parsed.clientState)))
  }

  // ---------------------------------------------------------------------------
  // The health check

  /** What `isCacheHealthy` returns and whether it removes the stored entry. */
  datatype HealthOutcome = HealthOutcome(healthy: bool, clearsStorage: bool)

  /** `cacheAge > maxAge` for a timestamp that converts: false when it converts to NaN. */
  predicate IsTooOld(timestamp: Timestamp, now: int)
    ensures IsTooOld(timestamp, now) ==> timestamp.Millis?
    ensures timestamp.Millis? ==> (IsTooOld(timestamp, now) <==> now - timestamp.ms > 604800000)
  {
    timestamp.Millis? && now - timestamp.ms > MAX_CACHE_AGE
  }

  /**
   * The decision of `isCacheHealthy`: the stored entry is removed exactly when the check fails
   * with a window present. A timestamp whose conversion throws reaches the `catch`, which
   * removes the entry and reports failure.
   */
  function HealthCheck(hasWindow: bool, stored: Option<string>, parse: JsonParser, now: int): (o: HealthOutcome)
    ensures o.clearsStorage <==> hasWindow && !o.healthy
  {
    if !hasWindow then HealthOutcome(false, false)
    else
      match CacheStatsOf(hasWindow, stored, parse)
      case None => HealthOutcome(true, false)
      case Some(stats) =>
        if stats.timestamp.Unconvertible? || IsTooOld(stats.timestamp, now) then HealthOutcome(false, true)
        else HealthOutcome(true, false)
  }

  /** Without a window the check fails and touches nothing. */
  lemma HealthWithoutWindow(stored: Option<string>, parse: JsonParser, now: int)
    ensures HealthCheck(false, stored, parse, now) == HealthOutcome(false, false)
  {
  }

  /** Nothing stored (or the empty string) is healthy and nothing is removed. */
  lemma HealthWhenNothingStored(stored: Option<string>, parse: JsonParser, now: int)
    requires !Truthy(stored)
    ensures HealthCheck(true, stored, parse, now) == HealthOutcome(true, false)
  {
  }

  /** Stored text that does not parse is reported healthy and is NOT removed. */
  lemma HealthWhenCorrupt(stored: string, parse: JsonParser, now: int)
    requires stored != "" && parse(stored).None?
    ensures CacheStatsOf(true, Some(stored), parse).None?
    ensures HealthCheck(true, Some(stored), parse, now) == HealthOutcome(true, false)
  {
  }

  /**
   * For a stored record that parses, the entry is removed exactly when its age is strictly
   * greater than 7 days or its timestamp cannot be converted to a number; an age of exactly
   * 7 days and a timestamp that is NaN keep it.
   */
  lemma HealthAgeBound(stored: string, parse: JsonParser, now: int)
    requires stored != "" && parse(stored).Some?
    ensures var o := HealthCheck(true, Some(stored), parse, now);
            var ts := parse(stored).value.timestamp;
            && (o.clearsStorage <==> ts.Unconvertible? || (ts.Millis? && now - ts.ms > 604800000))
            && (ts.Unconvertible? ==> !o.healthy)
            && (ts.NotANumber? ==> o.healthy)
            && (ts.Millis? && now - ts.ms == 604800000 ==> o.healthy)
  {
    CacheTimesOrdered();
  }

  /**
   * The check fails exactly without a window, or when a record that parses carries a
   * timestamp that is older than 7 days or cannot be converted to a number.
   */
  lemma HealthCheckIff(hasWindow: bool, stored: Option<string>, parse: JsonParser, now: int)
    ensures !HealthCheck(hasWindow, stored, parse, now).healthy
        <==> || !hasWindow
             || (&& Truthy(stored)
                 && parse(stored.value).Some?
                 && (parse(stored.value).value.timestamp.Unconvertible? || IsTooOld(parse(stored.value).value.timestamp, now)))
  {
  }

  /** Age only grows: a record found too old stays too old later, and one kept is kept at every earlier time. */
  lemma HealthMonotoneInTime(hasWindow: bool, stored: Option<string>, parse: JsonParser, now: int, later: int)
    requires now <= later
    ensures HealthCheck(hasWindow, stored, parse, now).clearsStorage ==> HealthCheck(hasWindow, stored, parse, later).clearsStorage
  {
  }

  // ---------------------------------------------------------------------------
  // localStorage

  /** The browser's `localStorage` and whether code runs with a `window` at all. */
  class BrowserStorage {
    const hasWindow: bool
    var items: map<string, string>

    constructor (hasWindow: bool, items: map<string, string>)
      ensures this.hasWindow == hasWindow && this.items == items
    {
      this.hasWindow := hasWindow;
      this.items := items;
    }

    /** `localStorage.getItem('unsplash-gallery-cache')`. */
    function StoredCache(): (r: Option<string>)
      reads this
      ensures r.Some? <==> CACHE_STORAGE_KEY in items
      ensures r.Some? ==> r.value == items[CACHE_STORAGE_KEY]
    {
      if CACHE_STORAGE_KEY in items then Some(items[CACHE_STORAGE_KEY]) else None
    }

    /** `clearPersistedCache`: removes the cache entry when a window exists, and nothing else. */
    method ClearPersistedCache()
      modifies this
      ensures items == if hasWindow then old(items) - {CACHE_STORAGE_KEY} else old(items)
      ensures hasWindow ==> StoredCache() == None
    {
      if hasWindow {
        items := items - {CACHE_STORAGE_KEY};
      }
    }

    /** `getCacheStats`: reads the entry without changing storage. */
    method GetCacheStats(parse: JsonParser) returns (stats: Option<CacheStats>)
      ensures stats == CacheStatsOf(hasWindow, StoredCache(), parse)
    {
      if !hasWindow {
        return None;
      }
      var cacheData := StoredCache();
      if !Truthy(cacheData) {
        return None;
      }
      var parsed := parse(cacheData.value);
      if parsed.None? {
        return None;
      }
      var record := parsed.value;
      return Some(CacheStats(record.timestamp, record.clientState, QueriesCount(record.clientState)));
    }

    /** `isCacheHealthy`: the verdict of `HealthCheck`, removing the cache entry exactly when it says so. */
    method IsCacheHealthy(parse: JsonParser, now: int) returns (healthy: bool)
      modifies this
      ensures var o := HealthCheck(hasWindow, old(StoredCache()), parse, now);
              healthy == o.healthy
              && items == if o.clearsStorage then old(items) - {CACHE_STORAGE_KEY} else old(items)
    {
      if !hasWindow {
        return false;
      }
      var stats := GetCacheStats(parse);
      if stats.None? {
        return true;
      }
      if stats.value.timestamp.Unconvertible? {
        // `now - stats.timestamp` throws; the catch clears the cache and reports failure
        ClearPersistedCache();
        return false;
      }
      if IsTooOld(stats.value.timestamp, now) {
        ClearPersistedCache();
        return false;
      }
      return true;
    }
  }
}
