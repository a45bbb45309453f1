/** `screens/ProductListScreen.js`: the recent-searches list, the "did you
    mean" suggestion guard and the filter-then-sort pipeline behind the
    catalog list. */
module ProductList {
  import opened Options
  import opened Text
  import opened Sequences
  import opened Catalog
  import opened StringMatcher
  import SearchHook

  /** How many recent searches are kept. */
  const MaxRecentSearches := 5

  function NotEqualTo(t: string): string -> bool {
    (s: string) => s != t
  }

  /** The effect records a search only for a non-blank term with results. */
  predicate ShouldRecord(searchTerm: string, resultCount: nat) {
    Trim(searchTerm) != "" && resultCount > 0
  }

  /** `[t, ...prev.filter(s => s !== t)].slice(0, 5)`: `t` moves to the front,
      its older copies go, and the others keep their order up to the limit:
      what follows `t` is the newest of the other searches. */
  function MoveToFront(prev: seq<string>, t: string): (r: seq<string>)
    ensures 0 < |r| <= MaxRecentSearches && r[0] == t
    ensures t !in r[1..]
    ensures IsSubsequence(r[1..], prev)
    ensures |r| - 1 <= |Filter(prev, NotEqualTo(t))| && r[1..] == Filter(prev, NotEqualTo(t))[..|r| - 1]
    ensures |r| == if 1 + Count(prev, NotEqualTo(t)) < MaxRecentSearches
                   then 1 + Count(prev, NotEqualTo(t)) else MaxRecentSearches
  {
    var others := Filter(prev, NotEqualTo(t));
    assert t !in others by {
      assert !NotEqualTo(t)(t);
    }
    FrontFacts(prev, t, others, SliceEnd(1 + |others|, MaxRecentSearches));
    ([t] + others)[..SliceEnd(1 + |others|, MaxRecentSearches)]
  }

  /** A new term on a full list of five pushes out the oldest search, not the
      newest. */
  lemma MoveToFrontDropsOldest(prev: seq<string>, t: string)
    requires |prev| == MaxRecentSearches && t !in prev
    ensures MoveToFront(prev, t) == [t] + prev[..MaxRecentSearches - 1]
  {
    assert forall i :: 0 <= i < |prev| ==> NotEqualTo(t)(prev[i]) by {
      forall i | 0 <= i < |prev| ensures NotEqualTo(t)(prev[i]) {
        assert prev[i] in prev;
      }
    }
    FilterKeepsAll(prev, NotEqualTo(t));
    var r := MoveToFront(prev, t);
    assert r == [r[0]] + r[1..];
  }

  lemma FrontFacts(prev: seq<string>, t: string, others: seq<string>, n: nat)
    requires IsSubsequence(others, prev) && t !in others
    requires 1 <= n <= 1 + |others|
    ensures |([t] + others)[..n]| == n && ([t] + others)[..n][0] == t
    ensures t !in ([t] + others)[..n][1..]
    ensures IsSubsequence(([t] + others)[..n][1..], prev)
    ensures ([t] + others)[..n][1..] == others[..n - 1]
  {
    var r := ([t] + others)[..n];
    assert r[1..] == others[..n - 1];
    assert t !in others[..n - 1] by {
      assert forall x :: x in others[..n - 1] ==> x in others;
    }
    SubsequencePrefix(others, prev, n - 1);
  }

  /** The recent-searches update: unchanged unless the trimmed term is
      non-blank and the search found something; then the trimmed term moves to
      the front. */
  function RecentSearchesAfter(prev: seq<string>, searchTerm: string, resultCount: nat): (r: seq<string>)
    ensures !ShouldRecord(searchTerm, resultCount) ==> r == prev
    ensures ShouldRecord(searchTerm, resultCount) ==>
              && 0 < |r| <= MaxRecentSearches
              && r[0] == Trim(searchTerm)
              && Trim(searchTerm) !in r[1..]
              && IsSubsequence(r[1..], prev)
    ensures ShouldRecord(searchTerm, resultCount) ==> r == MoveToFront(prev, Trim(searchTerm))
  {
    if ShouldRecord(searchTerm, resultCount) then MoveToFront(prev, Trim(searchTerm)) else prev
  }

  /** A list without repetitions stays without repetitions, and a recorded
      term occurs in it exactly once. */
  lemma RecentSearchesStayDistinct(prev: seq<string>, searchTerm: string, resultCount: nat)
    requires Distinct(prev)
    ensures Distinct(RecentSearchesAfter(prev, searchTerm, resultCount))
    ensures ShouldRecord(searchTerm, resultCount) ==>
              multiset(RecentSearchesAfter(prev, searchTerm, resultCount))[Trim(searchTerm)] == 1
  {
    if ShouldRecord(searchTerm, resultCount) {
      MoveToFrontDistinct(prev, Trim(searchTerm));
    }
  }

  lemma MoveToFrontDistinct(prev: seq<string>, t: string)
    requires Distinct(prev)
    ensures Distinct(MoveToFront(prev, t))
    ensures multiset(MoveToFront(prev, t))[t] == 1
  {
    var others := Filter(prev, NotEqualTo(t));
    OthersDistinct(prev, t);
    assert !NotEqualTo(t)(t);
    assert t !in others;
    HeadPrefixDistinct(t, others, SliceEnd(1 + |others|, MaxRecentSearches));
  }

  /** A new head on a list without repetitions, cut to a non-empty prefix,
      has no repetitions and holds the head once. */
  lemma HeadPrefixDistinct(t: string, others: seq<string>, n: nat)
    requires Distinct(others) && t !in others && 1 <= n <= 1 + |others|
    ensures Distinct(([t] + others)[..n])
    ensures multiset(([t] + others)[..n])[t] == 1
  {
    var r := ([t] + others)[..n];
    assert r[1..] == others[..n - 1];
    forall i, j | 0 <= i < j < |r| ensures r[i] != r[j] {
      assert r[j] == others[j - 1];
      if i > 0 {
        assert r[i] == others[i - 1];
      }
    }
    assert r == [t] + others[..n - 1];
    assert t !in multiset(others[..n - 1]) by {
      assert forall x :: x in others[..n - 1] ==> x in others;
    }
  }

  lemma OthersDistinct(prev: seq<string>, t: string)
    requires Distinct(prev)
    ensures Distinct(Filter(prev, NotEqualTo(t)))
  {
    var others := Filter(prev, NotEqualTo(t));
    DistinctIffSingleOccurrences(prev);
    assert forall x :: multiset(others)[x] <= multiset(prev)[x];
    DistinctIffSingleOccurrences(others);
  }

  /** The state cells of the list screen that hold logic. */
  class ProductListState {
    var recentSearches: seq<string>
    var selectedFilter: string
    var selectedSort: string

    /** The recent list is short and has no repetitions. */
    ghost predicate Valid()
      reads this
    {
      |recentSearches| <= MaxRecentSearches && Distinct(recentSearches)
    }

    /** The initial state: every product, popular first, no recent searches. */
    constructor ()
      ensures Valid()
      ensures recentSearches == [] && selectedFilter == "all" && selectedSort == "popular"
    {
      recentSearches := [];
      selectedFilter := "all";
      selectedSort := "popular";
    }

    /** The effect run after `searchTerm` or the results change. */
    method RecordRecentSearch(searchTerm: string, searchResults: seq<Product>)
      requires Valid()
      modifies this
      ensures Valid()
      ensures recentSearches == RecentSearchesAfter(old(recentSearches), searchTerm, |searchResults|)
      ensures selectedFilter == old(selectedFilter) && selectedSort == old(selectedSort)
    {
      RecentSearchesStayDistinct(recentSearches, searchTerm, |searchResults|);
      recentSearches := RecentSearchesAfter(recentSearches, searchTerm, |searchResults|);
    }

    method SetSelectedFilter(f: string)
      modifies this
      ensures selectedFilter == f
      ensures recentSearches == old(recentSearches) && selectedSort == old(selectedSort)
    {
      selectedFilter := f;
    }

    method SetSelectedSort(s: string)
      modifies this
      ensures selectedSort == s
      ensures recentSearches == old(recentSearches) && selectedFilter == old(selectedFilter)
    {
      selectedSort := s;
    }
  }

  /** `closestProduct`: the suggestion is looked up only when no search is
      committed, the raw term is not blank and there are no results. With no
      committed search the results are the whole catalog, so there is nothing
      to suggest from: the suggestion is always absent. */
  method ClosestProduct(products: seq<Product>, searchTerm: string, debouncedSearchTerm: string)
    returns (closest: Option<Product>)
    ensures closest.None?
  {
    var searchResults := SearchHook.FilteredData(products, debouncedSearchTerm);
    var hasActiveSearch := SearchHook.HasActiveSearch(debouncedSearchTerm);
    if !hasActiveSearch && Trim(searchTerm) != "" && |searchResults| == 0 {
      closest := FindClosestProduct(products, searchTerm);
    } else {
      closest := None;
    }
  }

  /** The test each `selectedFilter` applies; an unknown key keeps everything. */
  predicate PassesListFilter(selectedFilter: string, p: Product) {
    if selectedFilter == "available" then p.disponible
    else if selectedFilter == "offers" then p.enOferta || p.descuento > 0.0
    else if selectedFilter == "bestsellers" then p.masVendido
    else if selectedFilter == "recommended" then p.recomendado
    else if selectedFilter == "house-specials" then p.delaCasa
    else if selectedFilter == "high-rated" then p.rating >= DefaultMinRating
    else true
  }

  predicate IsKnownListFilter(selectedFilter: string) {
    selectedFilter in {"available", "offers", "bestsellers", "recommended", "house-specials", "high-rated"}
  }

  function ListFilterTest(selectedFilter: string): Product -> bool {
    (p: Product) => PassesListFilter(selectedFilter, p)
  }

  /** What the filter step keeps: the products passing the selected test, in
      order; all of them for a key the switch does not know. */
  function ListFilter(products: seq<Product>, selectedFilter: string): (r: seq<Product>)
    ensures IsSubsequence(r, products)
    ensures forall p :: p in r <==> p in products && PassesListFilter(selectedFilter, p)
    ensures multiset(r) <= multiset(products)
    ensures forall p :: multiset(r)[p] == if PassesListFilter(selectedFilter, p) then multiset(products)[p] else 0
    ensures !IsKnownListFilter(selectedFilter) ==> r == products
  {
    FilterKeepsAll(products, ListFilterTest(selectedFilter));
    FilterMultiplicity(products, ListFilterTest(selectedFilter));
    Filter(products, ListFilterTest(selectedFilter))
  }

  function OfferOrDiscount(): Product -> bool {
    (p: Product) => p.enOferta || p.descuento > 0.0
  }

  /** The `switch (selectedFilter)` step of `processedProducts`: each known
      key applies its filter, any other key leaves the list as it is. */
  method FilterStep(searchResults: seq<Product>, selectedFilter: string) returns (result: seq<Product>)
    ensures result == ListFilter(searchResults, selectedFilter)
  {
    var test := ListFilterTest(selectedFilter);
    result := searchResults;
    if selectedFilter == "available" {
      FilterExtensional(result, AdvancedTest(Disponibles), test);
      result := ApplyAdvancedFilter(result, Disponibles);
    } else if selectedFilter == "offers" {
      FilterExtensional(result, OfferOrDiscount(), test);
      result := Filter(result, OfferOrDiscount());
    } else if selectedFilter == "bestsellers" {
      FilterExtensional(result, AdvancedTest(MasVendidos), test);
      result := ApplyAdvancedFilter(result, MasVendidos);
    } else if selectedFilter == "recommended" {
      FilterExtensional(result, AdvancedTest(Recomendados), test);
      result := ApplyAdvancedFilter(result, Recomendados);
    } else if selectedFilter == "house-specials" {
      FilterExtensional(result, AdvancedTest(DelaCasa), test);
      result := ApplyAdvancedFilter(result, DelaCasa);
    } else if selectedFilter == "high-rated" {
      FilterExtensional(result, AdvancedTest(PorRating(DefaultMinRating)), test);
      result := ApplyAdvancedFilter(result, PorRating(DefaultMinRating));
    }
  }

  /** `processedProducts`: the filter step, then `sortProducts`. The result is
      the sorted filter of the search results, hence a permutation of a
      subsequence of them. */
  method ProcessProducts(searchResults: seq<Product>, selectedFilter: string, selectedSort: string)
    returns (result: seq<Product>)
    ensures result == SortProducts(ListFilter(searchResults, selectedFilter), selectedSort)
    ensures multiset(result) <= multiset(searchResults)
    ensures forall p :: p in result <==> p in searchResults && PassesListFilter(selectedFilter, p)
    ensures forall p :: multiset(result)[p] == if PassesListFilter(selectedFilter, p) then multiset(searchResults)[p] else 0
  {
    result := FilterStep(searchResults, selectedFilter);
    result := SortProducts(result, selectedSort);
    assert forall p :: p in result <==> p in multiset(result);
  }
}
