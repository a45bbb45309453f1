/** `hooks/useSearch.js`: the raw term the user types, the term committed after
    the debounce delay, the "searching" flag, and the views derived from the
    committed term. The debounce timer is a discrete event: arming it records
    the term it will commit, `TimerFires` is its expiry, and re-running the
    effect or unmounting cancels it. */
module SearchHook {
  import opened Options
  import opened Text
  import opened Catalog

  /** `UI_CONSTANTS.DEBOUNCE_DELAY`, the default delay in milliseconds. */
  const DebounceDelay := 300

  /** `filteredData`: the data as given while the trimmed committed term is
      blank, otherwise the products matching it. */
  function FilteredData(data: seq<Product>, debounced: string): (r: seq<Product>)
    ensures |r| <= |data|
    ensures Trim(debounced) == "" ==> r == data
    ensures Trim(debounced) != "" ==>
              forall p :: p in r <==> p in data && MatchesTerm(p, Trim(Lower(debounced)))
  {
    if Trim(debounced) == "" then data else SearchProducts(data, debounced)
  }

  /** The blank-term guard of `filteredData` agrees with the one inside
      `searchProducts`: the view is always `searchProducts(data, term)`. */
  lemma FilteredDataIsSearch(data: seq<Product>, debounced: string)
    ensures FilteredData(data, debounced) == SearchProducts(data, debounced)
  {
  }

  /** `hasActiveSearch`: the debounced term has a character other than white
      space. */
  predicate HasActiveSearch(debounced: string): (b: bool)
    ensures b <==> exists i :: 0 <= i < |debounced| && !IsSpace(debounced[i])
  {
    TrimEmptyIffAllSpace(debounced);
    |Trim(debounced)| > 0
  }

  /** `resultCount`: the length of the filtered view; all of `data` while no
      search is active. */
  function ResultCount(data: seq<Product>, debounced: string): (n: nat)
    ensures n <= |data|
    ensures !HasActiveSearch(debounced) ==> n == |data|
  {
    |FilteredData(data, debounced)|
  }

  /** An active search keeps exactly the matching products; an inactive one
      keeps all of them. */
  lemma ActiveSearchFilters(data: seq<Product>, debounced: string)
    ensures !HasActiveSearch(debounced) ==> FilteredData(data, debounced) == data
    ensures HasActiveSearch(debounced) ==>
              forall p :: p in FilteredData(data, debounced) <==>
                p in data && MatchesTerm(p, Trim(Lower(debounced)))
  {
  }

  /** The state cells of one mounted `useSearch` and its pending timer. */
  class Search {
    var searchTerm: string
    var debouncedSearchTerm: string
    var isSearching: bool
    var debounceDelay: int
    /** The term the armed timer will commit, or `None` when no timer is armed. */
    var pending: Option<string>
    var mounted: bool

    /** An armed timer always carries the current raw term, because every
        change of that term cancels the old timer and arms a new one; so once
        no timer is pending, the committed term is the raw term. */
    ghost predicate Valid()
      reads this
    {
      && (pending.Some? ==> mounted && pending.value == searchTerm)
      && (mounted ==> (isSearching <==> pending.Some?))
      && (mounted && pending.None? ==> debouncedSearchTerm == searchTerm)
    }

    /** Mounting: both terms start empty and the effect runs once, raising
        `isSearching` and arming the timer with the empty term. */
    constructor (delay: int)
      ensures Valid() && mounted
      ensures searchTerm == "" && debouncedSearchTerm == "" && debounceDelay == delay
      ensures isSearching && pending == Some("")
    {
      searchTerm := "";
      debouncedSearchTerm := "";
      debounceDelay := delay;
      mounted := true;
      isSearching := true;
      pending := Some("");
    }

    /** The debounce effect: cancel the old timer, raise `isSearching`, arm a
        timer that will commit the current raw term. */
    method RunEffect()
      requires mounted
      modifies this
      ensures isSearching && pending == Some(searchTerm)
      ensures searchTerm == old(searchTerm) && debouncedSearchTerm == old(debouncedSearchTerm)
      ensures debounceDelay == old(debounceDelay) && mounted
    {
      isSearching := true;
      pending := Some(searchTerm);
    }

    /** `setSearchTerm(term)`. Setting the value the cell already holds does
        not re-render, so the effect only runs again for a new value; a newer
        term thus replaces the one an older timer would have committed. */
    method SetSearchTerm(term: string)
      requires Valid()
      modifies this
      ensures Valid()
      ensures debouncedSearchTerm == old(debouncedSearchTerm) && debounceDelay == old(debounceDelay)
      ensures mounted == old(mounted)
      ensures mounted ==> searchTerm == term
      ensures mounted && term != old(searchTerm) ==> isSearching && pending == Some(term)
      ensures !mounted || term == old(searchTerm) ==>
                searchTerm == old(searchTerm) && isSearching == old(isSearching) && pending == old(pending)
    {
      if !mounted || term == searchTerm {
        return;
      }
      searchTerm := term;
      RunEffect();
    }

    /** A new `debounceDelay` argument re-runs the effect with the same term. */
    method SetDebounceDelay(delay: int)
      requires Valid()
      modifies this
      ensures Valid()
      ensures searchTerm == old(searchTerm) && debouncedSearchTerm == old(debouncedSearchTerm)
      ensures mounted == old(mounted)
      ensures mounted ==> debounceDelay == delay
      ensures mounted && delay != old(debounceDelay) ==> isSearching && pending == Some(searchTerm)
      ensures !mounted || delay == old(debounceDelay) ==>
                debounceDelay == old(debounceDelay) && isSearching == old(isSearching) && pending == old(pending)
    {
      if !mounted || delay == debounceDelay {
        return;
      }
      debounceDelay := delay;
      RunEffect();
    }

    /** The armed timer expires: it commits the term it was armed with, which
        is the latest raw term, and clears `isSearching`. */
    method TimerFires()
      requires Valid()
      modifies this
      ensures Valid()
      ensures searchTerm == old(searchTerm) && debounceDelay == old(debounceDelay) && mounted == old(mounted)
      ensures pending.None?
      ensures old(pending).Some? ==> debouncedSearchTerm == old(searchTerm) && !isSearching
      ensures old(pending).None? ==>
                debouncedSearchTerm == old(debouncedSearchTerm) && isSearching == old(isSearching)
    {
      match pending {
        case None =>
        case Some(term) =>
          debouncedSearchTerm := term;
          isSearching := false;
          pending := None;
      }
    }

    /** `clearSearch`: both terms become empty in one render; the effect runs
        again only when the raw term was not already empty. */
    method ClearSearch()
      requires Valid()
      modifies this
      ensures Valid()
      ensures debounceDelay == old(debounceDelay) && mounted == old(mounted)
      ensures mounted ==> searchTerm == "" && debouncedSearchTerm == "" && !HasActiveSearch(debouncedSearchTerm)
      ensures mounted && old(searchTerm) != "" ==> isSearching && pending == Some("")
      ensures mounted && old(searchTerm) == "" ==> isSearching == old(isSearching) && pending == old(pending)
      ensures !mounted ==>
                searchTerm == old(searchTerm) && debouncedSearchTerm == old(debouncedSearchTerm) && pending == old(pending)
    {
      if !mounted {
        return;
      }
      var changed := searchTerm != "";
      searchTerm := "";
      debouncedSearchTerm := "";
      if changed {
        RunEffect();
      }
    }

    /** Unmounting runs the effect's cleanup, which cancels the timer. */
    method Unmount()
      requires Valid()
      modifies this
      ensures Valid()
      ensures !mounted && pending.None?
      ensures searchTerm == old(searchTerm) && debouncedSearchTerm == old(debouncedSearchTerm)
      ensures isSearching == old(isSearching) && debounceDelay == old(debounceDelay)
    {
      mounted := false;
      pending := None;
    }
  }
}
