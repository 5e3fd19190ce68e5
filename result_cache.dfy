/**
 * The component's query-result cache: an array of `{query, results}` entries
 * ordered from least recently used (front) to most recently used (back), with
 * room for ten entries. `getFromCache` and `addToCache` build a new array each
 * time, so both are functions from the old cache to the new one.
 */
module ResultCache {
  import opened Options
  import opened Corpus

  /** The most entries `addToCache` keeps before it starts evicting. */
  const Capacity: nat := 10

  /** One cached answer: the query exactly as typed and the items it produced. */
  datatype CacheItem = CacheItem(query: string, results: seq<Item>)

  /** The outcome of a lookup: the cached results (`None` for a miss) and the reordered cache. */
  datatype Lookup = Lookup(hit: Option<seq<Item>>, cache: seq<CacheItem>)

  /** Some entry of `cache` is stored under `query`. */
  predicate HasQuery(cache: seq<CacheItem>, query: string) {
    exists i :: 0 <= i < |cache| && cache[i].query == query
  }

  /** No two entries share a query. */
  ghost predicate DistinctQueries(cache: seq<CacheItem>) {
    forall i, j :: 0 <= i < j < |cache| ==> cache[i].query != cache[j].query
  }

  /** Position of the first entry stored under `query` (what `cache.find` stops at). */
  function FirstIndex(cache: seq<CacheItem>, query: string): (i: nat)
    requires HasQuery(cache, query)
    ensures i < |cache| && cache[i].query == query
    ensures forall j :: 0 <= j < i ==> cache[j].query != query
  {
    if cache[0].query == query then 0
    else
      assert HasQuery(cache[1..], query) by {
        var k :| 0 <= k < |cache| && cache[k].query == query;
        assert cache[1..][k - 1].query == query;
      }
      1 + FirstIndex(cache[1..], query)
  }

  /** The filtering step of a hit: drops every entry stored under `query`. */
  function Without(cache: seq<CacheItem>, query: string): (r: seq<CacheItem>)
    ensures |r| <= |cache|
  {
    if cache == [] then []
    else if cache[0].query != query then [cache[0]] + Without(cache[1..], query)
    else Without(cache[1..], query)
  }

  /** The entries left are exactly those stored under another query. */
  lemma {:induction false} WithoutMembers(cache: seq<CacheItem>, query: string)
    ensures forall e :: e in Without(cache, query) <==> e in cache && e.query != query
  {
    if cache != [] {
      WithoutMembers(cache[1..], query);
      assert cache == [cache[0]] + cache[1..];
    }
  }

  /** Filtering out a query the cache does not hold changes nothing. */
  lemma {:induction false} WithoutAbsent(cache: seq<CacheItem>, query: string)
    requires !HasQuery(cache, query)
    ensures Without(cache, query) == cache
  {
    if cache != [] {
      assert !HasQuery(cache[1..], query);
      WithoutAbsent(cache[1..], query);
      assert cache[0].query != query;
    }
  }

  /** Filtering out a query the cache holds removes at least one entry. */
  lemma {:induction false} WithoutShrinks(cache: seq<CacheItem>, query: string)
    requires HasQuery(cache, query)
    ensures |Without(cache, query)| < |cache|
  {
    if cache[0].query != query {
      assert HasQuery(cache[1..], query) by {
        var k :| 0 <= k < |cache| && cache[k].query == query;
        assert cache[1..][k - 1].query == query;
      }
      WithoutShrinks(cache[1..], query);
    }
  }

  /** Filtering distributes over concatenation. */
  lemma {:induction false} WithoutAppend(a: seq<CacheItem>, b: seq<CacheItem>, query: string)
    ensures Without(a + b, query) == Without(a, query) + Without(b, query)
    decreases |a|
  {
    if a == [] {
      assert a + b == b;
    } else {
      WithoutAppend(a[1..], b, query);
      assert (a + b)[0] == a[0];
      assert (a + b)[1..] == a[1..] + b;
      var head := if a[0].query != query then [a[0]] else [];
      assert Without(a + b, query) == head + Without(a[1..] + b, query);
      assert Without(a, query) == head + Without(a[1..], query);
    }
  }

  /**
   * `getFromCache`: on a miss, nothing is returned and the cache is untouched; on a
   * hit, the first entry stored under `query` is returned unchanged and moved to the
   * back, every other entry under `query` is dropped, and the remaining entries keep
   * their relative order.
   */
  function GetFromCache(cache: seq<CacheItem>, query: string): (r: Lookup)
    ensures r.hit.None? <==> !HasQuery(cache, query)
    ensures r.hit.None? ==> r.cache == cache
    ensures r.hit.Some? ==>
      && HasQuery(cache, query)
      && |r.cache| > 0
      && r.cache[|r.cache| - 1] == cache[FirstIndex(cache, query)]
      && r.hit.value == r.cache[|r.cache| - 1].results
      && r.cache[..|r.cache| - 1] == Without(cache, query)
      && (forall i :: 0 <= i < |r.cache| - 1 ==> r.cache[i].query != query)
      && |r.cache| <= |cache|
  {
    if HasQuery(cache, query) then
      var found := cache[FirstIndex(cache, query)];
      var moved := Without(cache, query) + [found];
      WithoutShrinks(cache, query);
      WithoutMembers(cache, query);
      assert moved[..|moved| - 1] == Without(cache, query);
      assert forall i :: 0 <= i < |moved| - 1 ==> moved[i] in Without(cache, query);
      Lookup(Some(found.results), moved)
    else
      Lookup(None, cache)
  }

  /** Filtering out the one entry stored under `query` leaves the entries around it. */
  lemma WithoutSingle(before: seq<CacheItem>, hit: CacheItem, after: seq<CacheItem>)
    requires !HasQuery(before, hit.query) && !HasQuery(after, hit.query)
    ensures Without(before + [hit] + after, hit.query) == before + after
  {
    WithoutAbsent(before, hit.query);
    WithoutAbsent(after, hit.query);
    WithoutAppend(before + [hit], after, hit.query);
    WithoutAppend(before, [hit], hit.query);
    assert Without([hit], hit.query) == [];
  }

  /** Moving one entry of a cache with distinct queries to the back keeps them distinct. */
  lemma MoveToBackKeepsQueriesDistinct(cache: seq<CacheItem>, i: nat)
    requires DistinctQueries(cache) && i < |cache|
    ensures DistinctQueries(cache[..i] + cache[i + 1..] + [cache[i]])
  {
    var moved := cache[..i] + cache[i + 1..] + [cache[i]];
    forall a | 0 <= a < |moved| ensures moved[a] == cache[if a < i then a else if a < |cache| - 1 then a + 1 else i] {
    }
  }

  /**
   * With distinct queries, a hit only reorders the cache: the hit entry moves from
   * its position to the back, the others close up in order, the entries (and hence
   * the length) are unchanged, and the queries stay distinct.
   */
  lemma LookupHitIsPermutation(cache: seq<CacheItem>, query: string)
    requires DistinctQueries(cache) && HasQuery(cache, query)
    ensures var r := GetFromCache(cache, query);
      && var i := FirstIndex(cache, query);
      && r.cache == cache[..i] + cache[i + 1..] + [cache[i]]
      && multiset(r.cache) == multiset(cache)
      && |r.cache| == |cache|
      && DistinctQueries(r.cache)
  {
    var i := FirstIndex(cache, query);
    var before, after := cache[..i], cache[i + 1..];
    assert cache == before + [cache[i]] + after;
    assert !HasQuery(before, query);
    assert !HasQuery(after, query);
    WithoutSingle(before, cache[i], after);
    MoveToBackKeepsQueriesDistinct(cache, i);
    assert multiset(before + after + [cache[i]]) == multiset(before + [cache[i]] + after);
  }

  /** The recency example: with queries Q1, Q2, Q3 (Q1 oldest), a hit on Q1 gives Q2, Q3, Q1. */
  lemma HitOnOldestMovesItToBack(r1: seq<Item>, r2: seq<Item>, r3: seq<Item>)
    ensures var e1, e2, e3 := CacheItem("Q1", r1), CacheItem("Q2", r2), CacheItem("Q3", r3);
      GetFromCache([e1, e2, e3], "Q1") == Lookup(Some(r1), [e2, e3, e1])
  {
    var e1, e2, e3 := CacheItem("Q1", r1), CacheItem("Q2", r2), CacheItem("Q3", r3);
    var cache := [e1, e2, e3];
    assert cache[0].query == "Q1";
    assert FirstIndex(cache, "Q1") == 0;
    assert !HasQuery([e2, e3], "Q1");
    WithoutSingle([], e1, [e2, e3]);
    assert [] + [e1] + [e2, e3] == cache;
  }

  /**
   * `addToCache`: the new entry becomes the most recently used one; when the cache
   * already holds `Capacity` or more entries exactly the front (least recently used)
   * entry is evicted, otherwise nothing is; every surviving entry keeps its order.
   */
  function AddToCache(cache: seq<CacheItem>, query: string, results: seq<Item>): (r: seq<CacheItem>)
    ensures |r| > 0 && r[|r| - 1] == CacheItem(query, results)
    ensures |cache| < Capacity ==> |r| == |cache| + 1 && r[..|r| - 1] == cache
    ensures |cache| >= Capacity ==> |r| == |cache| && r[..|r| - 1] == cache[1..]
    ensures |cache| <= Capacity ==> |r| <= Capacity
  {
    if |cache| >= Capacity then
      assert (cache[1..] + [CacheItem(query, results)])[..|cache| - 1] == cache[1..];
      cache[1..] + [CacheItem(query, results)]
    else
      assert (cache + [CacheItem(query, results)])[..|cache|] == cache;
      cache + [CacheItem(query, results)]
  }

  /** Inserting a query the cache does not hold keeps the queries distinct. */
  lemma AddToCacheKeepsQueriesDistinct(cache: seq<CacheItem>, query: string, results: seq<Item>)
    requires DistinctQueries(cache) && !HasQuery(cache, query)
    ensures DistinctQueries(AddToCache(cache, query, results))
  {
    var r := AddToCache(cache, query, results);
    var drop := if |cache| >= Capacity then 1 else 0;
    forall i | 0 <= i < |r| - 1 ensures r[i] == cache[i + drop] {
      assert r[i] == r[..|r| - 1][i];
    }
  }

  /** The newest `n` elements of `s` (all of them when `s` is shorter). */
  function Newest<T>(s: seq<T>, n: nat): (r: seq<T>)
    ensures |r| == if |s| <= n then |s| else n
  {
    if |s| <= n then s else s[|s| - n..]
  }

  /** Below or at capacity, an insert keeps exactly the newest `Capacity` entries. */
  lemma AddToCacheKeepsNewest(cache: seq<CacheItem>, query: string, results: seq<Item>)
    requires |cache| <= Capacity
    ensures AddToCache(cache, query, results) == Newest(cache + [CacheItem(query, results)], Capacity)
  {
    var r := AddToCache(cache, query, results);
    var n := Newest(cache + [CacheItem(query, results)], Capacity);
    assert |r| == |n|;
    forall k | 0 <= k < |r| ensures r[k] == n[k] {
      if k < |r| - 1 {
        assert r[k] == r[..|r| - 1][k];
      }
    }
  }

  /** A run of inserts, oldest first, as the component performs them on successive misses. */
  function AddAll(cache: seq<CacheItem>, entries: seq<CacheItem>): seq<CacheItem>
    decreases |entries|
  {
    if entries == [] then cache
    else AddAll(AddToCache(cache, entries[0].query, entries[0].results), entries[1..])
  }

  /**
   * After any run of inserts into a cache within capacity, the cache holds exactly
   * the `Capacity` most recent entries, least recently used first.
   */
  lemma {:induction false} AddAllKeepsNewest(cache: seq<CacheItem>, entries: seq<CacheItem>)
    requires |cache| <= Capacity
    ensures AddAll(cache, entries) == Newest(cache + entries, Capacity)
    decreases |entries|
  {
    if entries == [] {
      assert cache + entries == cache;
    } else {
      var e, rest := entries[0], entries[1..];
      var next := AddToCache(cache, e.query, e.results);
      AddToCacheKeepsNewest(cache, e.query, e.results);
      AddAllKeepsNewest(next, rest);
      NewestOfNewest(cache + [e], rest, Capacity);
      calc {
        AddAll(cache, entries);
        AddAll(next, rest);
        Newest(next + rest, Capacity);
        { assert next == Newest(cache + [e], Capacity); }
        Newest(Newest(cache + [e], Capacity) + rest, Capacity);
        Newest(cache + [e] + rest, Capacity);
        { assert cache + [e] + rest == cache + entries; }
        Newest(cache + entries, Capacity);
      }
    }
  }

  /** Trimming to the newest `n` before appending more does not change the newest `n` after. */
  lemma NewestOfNewest<T>(s: seq<T>, t: seq<T>, n: nat)
    ensures Newest(Newest(s, n) + t, n) == Newest(s + t, n)
  {
    var a, b := Newest(Newest(s, n) + t, n), Newest(s + t, n);
    assert |a| == |b|;
    forall k | 0 <= k < |a| ensures a[k] == b[k] {
      var m := Newest(s, n);
      if |m + t| - |a| + k < |m| {
        assert a[k] == m[|m + t| - |a| + k];
      }
    }
  }
}
