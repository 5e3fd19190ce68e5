/**
 * `filterItems`: the empty query gives no suggestions; any other query is
 * answered from the cache when it can be, and otherwise by filtering the corpus
 * and caching the answer.
 */
module Search {
  import opened Options
  import opened Corpus
  import opened ResultCache

  /** What a call of `filterItems` produces: the suggestions and the cache afterwards. */
  datatype Outcome = Outcome(results: seq<Item>, cache: seq<CacheItem>)

  /** The answer a fresh computation gives, with no cache involved. */
  function Fresh(corpus: seq<Item>, query: string): seq<Item> {
    if query == "" then [] else Filter(corpus, query)
  }

  /** Every entry holds exactly what filtering the corpus for its query gives. */
  ghost predicate Sound(corpus: seq<Item>, cache: seq<CacheItem>) {
    forall i :: 0 <= i < |cache| ==> cache[i].results == Filter(corpus, cache[i].query)
  }

  /**
   * The cache invariant the component relies on: within capacity, one entry per
   * query, never an entry for the empty query, and every entry a true filter result.
   */
  ghost predicate WellFormed(corpus: seq<Item>, cache: seq<CacheItem>) {
    && |cache| <= Capacity
    && DistinctQueries(cache)
    && (forall i :: 0 <= i < |cache| ==> cache[i].query != "")
    && Sound(corpus, cache)
  }

  /**
   * `filterItems(query)`. The empty query returns no items and leaves the cache
   * alone. A cached query returns the stored results. Any other query returns the
   * corpus filter and leaves `(query, those results)` as the most recent entry.
   * (An empty array is truthy in JavaScript, so a cached empty result is a hit.)
   */
  function FilterItems(corpus: seq<Item>, cache: seq<CacheItem>, query: string): (r: Outcome)
    ensures query == "" ==> r.results == [] && r.cache == cache
    ensures query != "" && HasQuery(cache, query) ==>
      && r.results == cache[FirstIndex(cache, query)].results
      && r.cache == GetFromCache(cache, query).cache
      && |r.cache| <= |cache|
    ensures query != "" && !HasQuery(cache, query) ==>
      && r.results == Filter(corpus, query)
      && r.cache == AddToCache(cache, query, r.results)
      && |r.cache| > 0
      && r.cache[|r.cache| - 1] == CacheItem(query, r.results)
  {
    if query == "" then Outcome([], cache)
    else
      var lookup := GetFromCache(cache, query);
      if lookup.hit.Some? then Outcome(lookup.hit.value, lookup.cache)
      else
        var filtered := Filter(corpus, query);
        Outcome(filtered, AddToCache(cache, query, filtered))
  }

  /**
   * Cache correctness: when every entry was produced by the filter, what
   * `filterItems` returns equals a fresh computation, hit or miss, and the cache
   * it leaves behind still holds only filter results.
   */
  lemma CachedEqualsFresh(corpus: seq<Item>, cache: seq<CacheItem>, query: string)
    requires Sound(corpus, cache)
    ensures FilterItems(corpus, cache, query).results == Fresh(corpus, query)
    ensures Sound(corpus, FilterItems(corpus, cache, query).cache)
  {
    var r := FilterItems(corpus, cache, query);
    if query != "" {
      if HasQuery(cache, query) {
        var lookup := GetFromCache(cache, query);
        WithoutMembers(cache, query);
        forall i | 0 <= i < |r.cache| ensures r.cache[i].results == Filter(corpus, r.cache[i].query) {
          if i < |r.cache| - 1 {
            assert r.cache[i] == r.cache[..|r.cache| - 1][i];
            assert r.cache[i] in cache;
          }
        }
      } else {
        var drop := if |cache| >= Capacity then 1 else 0;
        forall i | 0 <= i < |r.cache| - 1 ensures r.cache[i] == cache[i + drop] {
          assert r.cache[i] == r.cache[..|r.cache| - 1][i];
        }
      }
    }
  }

  /** `filterItems` keeps the cache invariant. */
  lemma FilterItemsKeepsWellFormed(corpus: seq<Item>, cache: seq<CacheItem>, query: string)
    requires WellFormed(corpus, cache)
    ensures WellFormed(corpus, FilterItems(corpus, cache, query).cache)
  {
    CachedEqualsFresh(corpus, cache, query);
    if query != "" {
      if HasQuery(cache, query) {
        HitKeepsWellFormed(corpus, cache, query);
      } else {
        MissKeepsWellFormed(corpus, cache, query);
      }
    }
  }

  /** A hit only reorders the cache, so its structural invariant survives. */
  lemma HitKeepsWellFormed(corpus: seq<Item>, cache: seq<CacheItem>, query: string)
    requires |cache| <= Capacity && DistinctQueries(cache)
    requires forall k :: 0 <= k < |cache| ==> cache[k].query != ""
    requires query != "" && HasQuery(cache, query)
    ensures var c := FilterItems(corpus, cache, query).cache;
      |c| <= Capacity && DistinctQueries(c) && forall k :: 0 <= k < |c| ==> c[k].query != ""
  {
    LookupHitIsPermutation(cache, query);
    var c := FilterItems(corpus, cache, query).cache;
    assert c == GetFromCache(cache, query).cache;
    forall k | 0 <= k < |c| ensures c[k].query != "" {
      assert c[k] in multiset(cache);
    }
  }

  /**
   * A miss appends one entry for a query not yet cached, evicting the oldest when
   * full, so its structural invariant survives.
   */
  lemma MissKeepsWellFormed(corpus: seq<Item>, cache: seq<CacheItem>, query: string)
    requires |cache| <= Capacity && DistinctQueries(cache)
    requires forall k :: 0 <= k < |cache| ==> cache[k].query != ""
    requires query != "" && !HasQuery(cache, query)
    ensures var c := FilterItems(corpus, cache, query).cache;
      |c| <= Capacity && DistinctQueries(c) && forall k :: 0 <= k < |c| ==> c[k].query != ""
  {
    AddToCacheKeepsQueriesDistinct(cache, query, Filter(corpus, query));
    var c := FilterItems(corpus, cache, query).cache;
    var drop := if |cache| >= Capacity then 1 else 0;
    forall k | 0 <= k < |c| - 1 ensures c[k] == cache[k + drop] {
      assert c[k] == c[..|c| - 1][k];
    }
  }
}
