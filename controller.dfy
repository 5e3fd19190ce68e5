/**
 * The search box's state and event handlers. React state updates become field
 * assignments; the debounce timer becomes one optional pending query, armed by
 * every input event and consumed by an explicit `Fire` step when it expires.
 */
module Controller {
  import opened Options
  import opened Corpus
  import opened ResultCache
  import opened Search

  class Autocomplete {
    /** The corpus searched (the component's `items`). */
    const corpus: seq<Item>
    /** The text in the input box. */
    var inputValue: string
    /** The suggestions shown in the dropdown. */
    var filteredItems: seq<Item>
    /** Whether the dropdown is open. */
    var showDropdown: bool
    /** The query-result cache, least recently used first. */
    var cache: seq<CacheItem>
    /** The query the armed debounce timer will resolve, if a timer is armed. */
    var pending: Option<string>
    /** Every query the debounced callback has resolved so far, oldest first. */
    ghost var resolved: seq<string>

    /**
     * The invariant every handler keeps: the cache is well formed, the dropdown is
     * open only when it has something to show, and it only shows corpus items.
     */
    ghost predicate Valid()
      reads this
    {
      && WellFormed(corpus, cache)
      && (showDropdown ==> |filteredItems| > 0)
      && (forall it :: it in filteredItems ==> it in corpus)
    }

    /** Mounting: empty input, no suggestions, closed dropdown, empty cache, no timer. */
    constructor ()
      ensures Valid()
      ensures corpus == Items
      ensures inputValue == "" && filteredItems == [] && !showDropdown
      ensures cache == [] && pending == None && resolved == []
    {
      corpus := Items;
      inputValue := "";
      filteredItems := [];
      showDropdown := false;
      cache := [];
      pending := None;
      resolved := [];
    }

    /** The debounced wrapper: cancels any armed timer and arms one for `query`. */
    method Debounce(query: string)
      modifies this`pending
      ensures pending == Some(query)
    {
      pending := Some(query);
    }

    /** `handleInputChange`: records the typed text and (re)arms the debounce timer. */
    method HandleInputChange(value: string)
      requires Valid()
      modifies this`inputValue, this`pending
      ensures Valid()
      ensures inputValue == value && pending == Some(value)
      ensures filteredItems == old(filteredItems) && showDropdown == old(showDropdown)
      ensures cache == old(cache) && resolved == old(resolved)
    {
      inputValue := value;
      Debounce(value);
    }

    /**
     * The debounced callback: runs `filterItems`, shows its results, and opens the
     * dropdown exactly when there is something to show. Thanks to the cache
     * invariant, the results are those of a fresh filter of the corpus.
     */
    method Resolve(query: string)
      requires Valid()
      modifies this`filteredItems, this`showDropdown, this`cache, this`resolved
      ensures Valid()
      ensures filteredItems == Fresh(corpus, query)
      ensures showDropdown == (|filteredItems| > 0)
      ensures cache == FilterItems(corpus, old(cache), query).cache
      ensures resolved == old(resolved) + [query]
    {
      var outcome := FilterItems(corpus, cache, query);
      CachedEqualsFresh(corpus, cache, query);
      FilterItemsKeepsWellFormed(corpus, cache, query);
      cache := outcome.cache;
      filteredItems := outcome.results;
      showDropdown := |outcome.results| > 0;
      resolved := resolved + [query];
      forall it | it in filteredItems ensures it in corpus {
        if query != "" {
          assert it in Filter(corpus, query);
        }
      }
    }

    /**
     * Timer expiry. With a timer armed, it is disarmed and the callback resolves
     * its query (the latest one typed); with none armed, nothing happens.
     */
    method Fire()
      requires Valid()
      modifies this`filteredItems, this`showDropdown, this`cache, this`resolved, this`pending
      ensures Valid()
      ensures pending == None
      ensures inputValue == old(inputValue)
      ensures old(pending).None? ==>
        filteredItems == old(filteredItems) && showDropdown == old(showDropdown)
        && cache == old(cache) && resolved == old(resolved)
      ensures old(pending).Some? ==>
        && filteredItems == Fresh(corpus, old(pending).value)
        && showDropdown == (|filteredItems| > 0)
        && cache == FilterItems(corpus, old(cache), old(pending).value).cache
        && resolved == old(resolved) + [old(pending).value]
    {
      if pending.Some? {
        var query := pending.value;
        pending := None;
        Resolve(query);
      }
    }

    /**
     * `handleItemClick`: puts the item's name in the box, clears the suggestions and
     * closes the dropdown. It does not cancel an armed timer or touch the cache.
     */
    method HandleItemClick(item: Item)
      requires Valid()
      modifies this`inputValue, this`filteredItems, this`showDropdown
      ensures Valid()
      ensures inputValue == item.name && filteredItems == [] && !showDropdown
      ensures pending == old(pending) && cache == old(cache) && resolved == old(resolved)
    {
      inputValue := item.name;
      filteredItems := [];
      showDropdown := false;
    }

    /** Focus on the input: the dropdown shows exactly when there are suggestions. */
    method HandleFocus()
      requires Valid()
      modifies this`showDropdown
      ensures Valid()
      ensures showDropdown == (|filteredItems| > 0)
      ensures inputValue == old(inputValue) && filteredItems == old(filteredItems)
      ensures cache == old(cache) && pending == old(pending)
    {
      showDropdown := |filteredItems| > 0;
    }

    /**
     * A burst of input events followed by the timer's expiry: only the last
     * event's query is resolved, once, and its fresh results are shown.
     */
    method TypeThenSettle(values: seq<string>)
      requires Valid() && |values| > 0
      modifies this`inputValue, this`filteredItems, this`showDropdown, this`cache, this`resolved, this`pending
      ensures Valid()
      ensures inputValue == values[|values| - 1] && pending == None
      ensures resolved == old(resolved) + [values[|values| - 1]]
      ensures filteredItems == Fresh(corpus, values[|values| - 1])
      ensures showDropdown == (|filteredItems| > 0)
    {
      var i := 0;
      while i < |values|
        invariant 0 <= i <= |values|
        invariant Valid()
        invariant resolved == old(resolved)
        invariant i > 0 ==> inputValue == values[i - 1] && pending == Some(values[i - 1])
      {
        HandleInputChange(values[i]);
        i := i + 1;
      }
      Fire();
    }

    /**
     * A suggestion clicked while the timer is still armed: the click fills the box
     * and closes the dropdown, but the timer survives it, so when it expires the
     * typed query's results come back and the dropdown reopens if there are any.
     */
    method ClickBeforeTimerExpires(value: string, item: Item)
      requires Valid()
      modifies this`inputValue, this`filteredItems, this`showDropdown, this`cache, this`resolved, this`pending
      ensures Valid()
      ensures inputValue == item.name && pending == None
      ensures filteredItems == Fresh(corpus, value) && showDropdown == (|filteredItems| > 0)
      ensures resolved == old(resolved) + [value]
    {
      HandleInputChange(value);
      HandleItemClick(item);
      Fire();
    }
  }
}
