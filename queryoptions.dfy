/**
 * The shapes the gallery hands to the query library's `useQuery`: a query key (an array of
 * strings, numbers and `null`, compared by value) and the option fields the hooks set.
 * What the library then does with them (freshness, eviction, retries) is not part of this model.
 */
module QueryOptions {

  /** One element of a query key array. */
  datatype KeyPart = Str(s: string) | Num(n: int) | Null

  type QueryKey = seq<KeyPart>

  /** The `useQuery` options the hooks set, apart from `queryFn`. Times are milliseconds. */
  datatype QueryConfig = QueryConfig(
    queryKey: QueryKey,
    enabled: bool,
    staleTime: int,
    gcTime: int,
    retry: int,
    refetchOnMount: bool,
    refetchOnWindowFocus: bool)
}
