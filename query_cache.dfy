/** The shared query client of the pages, reduced to what the pages do with
    it: each cached query is known by its key and carries a staleness flag;
    `invalidateQueries({ queryKey })` marks stale every cached query whose
    key starts with the given key. Fetching and refetch timing belong to the
    library and are not modelled. */
module QueryCache {

  datatype KeyPart = Str(s: string) | Num(n: int)

  /** A query key such as `["slots", 1, "2026-02-02"]`. */
  type QueryKey = seq<KeyPart>

  /** Partial matching of a filter key against a cached key: every element
      of the filter equals the element at the same position. */
  predicate Matches(filter: QueryKey, key: QueryKey) {
    |filter| <= |key| && key[..|filter|] == filter
  }

  /** The staleness flags after invalidating `filter`. */
  function Invalidated(stale: map<QueryKey, bool>, filter: QueryKey): (r: map<QueryKey, bool>)
    ensures r.Keys == stale.Keys
    ensures forall k :: k in r ==> (r[k] <==> stale[k] || Matches(filter, k))
  {
    map k | k in stale :: stale[k] || Matches(filter, k)
  }

  /** Invalidating twice with the same filter is the same as once. */
  lemma InvalidateIdempotent(stale: map<QueryKey, bool>, filter: QueryKey)
    ensures Invalidated(Invalidated(stale, filter), filter) == Invalidated(stale, filter)
  {
  }

  /** A one-element filter `[p]` matches exactly the keys whose first part
      is `p`, whatever follows it. */
  lemma SingleFilterMatches(p: KeyPart, k: QueryKey)
    ensures Matches([p], k) <==> (|k| >= 1 && k[0] == p)
  {
  }

  class QueryClient {
    /** Staleness flag of each cached query. */
    var stale: map<QueryKey, bool>

    constructor (cached: map<QueryKey, bool>)
      ensures stale == cached
    {
      stale := cached;
    }

    /** `queryClient.invalidateQueries({ queryKey: filter })`. */
    method Invalidate(filter: QueryKey)
      modifies this
      ensures stale == Invalidated(old(stale), filter)
    {
      stale := Invalidated(stale, filter);
    }
  }
}
