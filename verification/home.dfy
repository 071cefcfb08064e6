/** The catalog browse screen's state holder: the last fetched product list,
    the search query and category filter, and the load / error lifecycle. */
module Home {
  import opened Outcomes
  import opened Text
  import opened Catalog

  /** The state the screen observes. */
  datatype HomeUiState = HomeUiState(
    categories: seq<string>,
    filteredProducts: seq<Product>,
    selectedCategory: Option<string>,
    isLoading: bool,
    error: Option<string>)

  /** The whole view model: the observable state plus the two private
      fields it filters from, the search query and the product snapshot. */
  datatype HomeViewModel = HomeViewModel(
    ui: HomeUiState,
    searchQuery: string,
    allProducts: seq<Product>)

  const UnknownLoadError := "Unknown error occurred"

  /** All fields at their declared defaults, before `init` starts a load. */
  const Unloaded := HomeViewModel(HomeUiState([], [], None, false, None), "", [])

  /** The search text occurs in the title or in the description, ignoring case. */
  predicate MatchesQuery(p: Product, query: string) {
    ContainsIgnoreCase(p.title, query) || ContainsIgnoreCase(p.description, query)
  }

  /** No category selected, or exactly the product's category. */
  predicate MatchesCategory(p: Product, category: Option<string>) {
    category.None? || p.category == category.value
  }

  predicate Matches(p: Product, query: string, category: Option<string>) {
    MatchesQuery(p, query) && MatchesCategory(p, category)
  }

  /** `a` is `b` with some elements dropped, the rest in their original order. */
  ghost predicate IsSubsequence<T>(a: seq<T>, b: seq<T>)
    decreases |b|
  {
    && |a| <= |b|
    && (|a| == 0
        || (a[0] == b[0] && IsSubsequence(a[1..], b[1..]))
        || IsSubsequence(a, b[1..]))
  }

  /** The list filter: keeps exactly the matching products. How often and in
      which order they appear is stated by `FilterCounts` and
      `FilterKeepsOrder`. */
  function Filter(products: seq<Product>, query: string, category: Option<string>): (r: seq<Product>)
    ensures forall p :: p in r <==> p in products && Matches(p, query, category)
  {
    if |products| == 0 then []
    else
      var rest := Filter(products[1..], query, category);
      assert forall p :: p in products[1..] ==> p in products;
      if Matches(products[0], query, category) then [products[0]] + rest else rest
  }

  /** Each kept product appears exactly as often as in the snapshot: nothing
      is duplicated or lost. */
  lemma {:induction false} FilterCounts(products: seq<Product>, query: string, category: Option<string>)
    ensures forall p :: multiset(Filter(products, query, category))[p]
                        == if Matches(p, query, category) then multiset(products)[p] else 0
  {
    if |products| > 0 {
      FilterCounts(products[1..], query, category);
      assert products == [products[0]] + products[1..];
    }
  }

  /** The kept products are in the snapshot's order. */
  lemma {:induction false} FilterKeepsOrder(products: seq<Product>, query: string, category: Option<string>)
    ensures IsSubsequence(Filter(products, query, category), products)
  {
    if |products| > 0 {
      FilterKeepsOrder(products[1..], query, category);
      var rest := Filter(products[1..], query, category);
      if Matches(products[0], query, category) {
        assert ([products[0]] + rest)[1..] == rest;
      }
    }
  }

  /** The private `filterProducts`: recomputes the visible list from the
      snapshot and touches nothing else. */
  function FilterProducts(vm: HomeViewModel, query: string, category: Option<string>): (r: HomeViewModel)
    ensures r.allProducts == vm.allProducts && r.searchQuery == vm.searchQuery
    ensures r.ui.(filteredProducts := vm.ui.filteredProducts) == vm.ui
    ensures forall p :: p in r.ui.filteredProducts <==> p in vm.allProducts && Matches(p, query, category)
  {
    vm.(ui := vm.ui.(filteredProducts := Filter(vm.allProducts, query, category)))
  }

  /** The visible list is exactly the snapshot filtered by the current query
      and category. */
  predicate Consistent(vm: HomeViewModel) {
    vm.ui.filteredProducts == Filter(vm.allProducts, vm.searchQuery, vm.ui.selectedCategory)
  }

  /** `onSearchQueryChange`: stores the query, then filters with the
      category already selected. */
  function OnSearchQueryChange(vm: HomeViewModel, query: string): (r: HomeViewModel)
    ensures r.searchQuery == query && r.allProducts == vm.allProducts
    ensures r.ui.(filteredProducts := vm.ui.filteredProducts) == vm.ui
    ensures forall p :: p in r.ui.filteredProducts <==> p in vm.allProducts && Matches(p, query, vm.ui.selectedCategory)
    ensures Consistent(r)
  {
    FilterProducts(vm.(searchQuery := query), query, vm.ui.selectedCategory)
  }

  /** `onCategorySelected`: stores the category, then filters with the
      query already entered. */
  function OnCategorySelected(vm: HomeViewModel, category: Option<string>): (r: HomeViewModel)
    ensures r.ui.selectedCategory == category
    ensures r.searchQuery == vm.searchQuery && r.allProducts == vm.allProducts
    ensures r.ui.(filteredProducts := vm.ui.filteredProducts, selectedCategory := vm.ui.selectedCategory) == vm.ui
    ensures forall p :: p in r.ui.filteredProducts <==> p in vm.allProducts && Matches(p, vm.searchQuery, category)
    ensures Consistent(r)
  {
    FilterProducts(vm.(ui := vm.ui.(selectedCategory := category)), vm.searchQuery, category)
  }

  /** The first step of `loadInitialData`: raise the loading flag, keeping
      any earlier error on screen. */
  function StartLoading(vm: HomeViewModel): (r: HomeViewModel)
    ensures r.ui.isLoading
    ensures r.ui.(isLoading := vm.ui.isLoading) == vm.ui
    ensures r.searchQuery == vm.searchQuery && r.allProducts == vm.allProducts
  {
    vm.(ui := vm.ui.(isLoading := true))
  }

  /** The join of the two fetches. The categories result is awaited first,
      so its failure is the one reported when both fail. On success the
      visible list is the whole new snapshot, whatever filter is active. On
      failure every list keeps its previous value. */
  function FinishLoading(vm: HomeViewModel, categories: Result<seq<string>>, products: Result<seq<Product>>): (r: HomeViewModel)
    ensures !r.ui.isLoading
    ensures r.searchQuery == vm.searchQuery && r.ui.selectedCategory == vm.ui.selectedCategory
    ensures categories.Success? && products.Success? ==>
      && r.allProducts == products.value
      && r.ui.categories == categories.value
      && r.ui.filteredProducts == products.value
      && r.ui.error.None?
    ensures categories.Failure? || products.Failure? ==>
      && r.allProducts == vm.allProducts
      && r.ui.categories == vm.ui.categories
      && r.ui.filteredProducts == vm.ui.filteredProducts
      && r.ui.error.Some?
    ensures categories.Failure? ==> r.ui.error == Some(MessageOr(categories.fault, UnknownLoadError))
    ensures categories.Success? && products.Failure? ==> r.ui.error == Some(MessageOr(products.fault, UnknownLoadError))
  {
    match (categories, products)
    case (Success(cats), Success(ps)) =>
      vm.(allProducts := ps,
          ui := vm.ui.(categories := cats, filteredProducts := ps, isLoading := false, error := None))
    case (Failure(f), _) =>
      vm.(ui := vm.ui.(isLoading := false, error := Some(MessageOr(f, UnknownLoadError))))
    case (Success(_), Failure(f)) =>
      vm.(ui := vm.ui.(isLoading := false, error := Some(MessageOr(f, UnknownLoadError))))
  }

  /** `loadInitialData`, and `retryLoading`, which is the same call: the two
      fetch results are parameters. */
  function LoadInitialData(vm: HomeViewModel, categories: Result<seq<string>>, products: Result<seq<Product>>): (r: HomeViewModel)
    ensures !r.ui.isLoading && r.searchQuery == vm.searchQuery && r.ui.selectedCategory == vm.ui.selectedCategory
    ensures r.ui.error.None? <==> categories.Success? && products.Success?
  {
    FinishLoading(StartLoading(vm), categories, products)
  }

  /** With an empty query and no category every product is visible, in the
      snapshot's order. */
  lemma {:induction false} FilterUnfiltered(products: seq<Product>)
    ensures Filter(products, "", None) == products
  {
    if |products| > 0 {
      ContainsEmpty(products[0].title);
      FilterUnfiltered(products[1..]);
    }
  }

  /** A category no product carries yields the empty list, not an error. */
  lemma FilterUnknownCategory(products: seq<Product>, query: string, category: string)
    requires forall i :: 0 <= i < |products| ==> products[i].category != category
    ensures Filter(products, query, Some(category)) == []
  {
  }

  /** Filtering the visible list again with the same criteria changes nothing. */
  lemma {:induction false} FilterIdempotent(products: seq<Product>, query: string, category: Option<string>)
    ensures Filter(Filter(products, query, category), query, category) == Filter(products, query, category)
  {
    if |products| > 0 {
      FilterIdempotent(products[1..], query, category);
      var rest := Filter(products[1..], query, category);
      if Matches(products[0], query, category) {
        assert ([products[0]] + rest)[1..] == rest;
      }
    }
  }

  /** Typing a query and picking a category reach the same state in either order. */
  lemma SearchAndCategoryCommute(vm: HomeViewModel, query: string, category: Option<string>)
    ensures OnCategorySelected(OnSearchQueryChange(vm, query), category)
         == OnSearchQueryChange(OnCategorySelected(vm, category), query)
    ensures Consistent(OnCategorySelected(OnSearchQueryChange(vm, query), category))
  {
  }

  /** A successful load shows the whole snapshot, so it leaves the screen
      consistent exactly when the active filter lets every new product
      through; in particular the first load, from the defaults, does. */
  lemma {:induction false} SuccessfulLoadConsistency(vm: HomeViewModel, categories: seq<string>, products: seq<Product>)
    ensures var r := LoadInitialData(vm, Success(categories), Success(products));
      Consistent(r) <==> forall i :: 0 <= i < |products| ==> Matches(products[i], vm.searchQuery, vm.ui.selectedCategory)
    ensures vm.searchQuery == "" && vm.ui.selectedCategory.None? ==>
      Consistent(LoadInitialData(vm, Success(categories), Success(products)))
  {
    var r := LoadInitialData(vm, Success(categories), Success(products));
    var f := Filter(products, vm.searchQuery, vm.ui.selectedCategory);
    if forall i :: 0 <= i < |products| ==> Matches(products[i], vm.searchQuery, vm.ui.selectedCategory) {
      FilterKeepsAll(products, vm.searchQuery, vm.ui.selectedCategory);
    }
    if Consistent(r) {
      forall i | 0 <= i < |products|
        ensures Matches(products[i], vm.searchQuery, vm.ui.selectedCategory)
      {
        assert products[i] in f;
      }
    }
    if vm.searchQuery == "" && vm.ui.selectedCategory.None? {
      FilterUnfiltered(products);
    }
  }

  /** A filter every product passes returns the list unchanged. */
  lemma {:induction false} FilterKeepsAll(products: seq<Product>, query: string, category: Option<string>)
    requires forall i :: 0 <= i < |products| ==> Matches(products[i], query, category)
    ensures Filter(products, query, category) == products
  {
    if |products| > 0 {
      FilterKeepsAll(products[1..], query, category);
    }
  }

  /** A failed load or retry keeps the snapshot and the visible list, so a
      consistent screen stays consistent. */
  lemma FailedLoadKeepsConsistency(vm: HomeViewModel, categories: Result<seq<string>>, products: Result<seq<Product>>)
    requires Consistent(vm)
    requires categories.Failure? || products.Failure?
    ensures Consistent(LoadInitialData(vm, categories, products))
  {
  }

  /** `Filter` on a two-product snapshot, one decision per product. */
  lemma FilterTwo(a: Product, b: Product, query: string, category: Option<string>)
    ensures Filter([a, b], query, category)
         == (if Matches(a, query, category) then [a] else []) + (if Matches(b, query, category) then [b] else [])
  {
    assert [a, b][1..] == [b];
    assert [b][1..] == [];
    assert Filter([], query, category) == [];
    assert Filter([b], query, category) == if Matches(b, query, category) then [b] else [];
  }

  const RedShirt := Product("1", "Red Shirt", 0.0, "", "clothing", "", Rating(0.0, 0))
  const BlueMug := Product("2", "Blue Mug", 0.0, "", "home", "", Rating(0.0, 0))

  /** A search for "shirt" finds the red shirt and not the mug. */
  lemma SearchScenario()
    ensures Filter([RedShirt, BlueMug], "shirt", None) == [RedShirt]
  {
    assert MatchesAt(RedShirt.title, 4, "shirt");
    assert !MatchesQuery(BlueMug, "shirt") by {
      forall i | 0 <= i < |BlueMug.title|
        ensures !CharEqualsIgnoreCase(BlueMug.title[i], 's')
      {
        assert LowerAscii(BlueMug.title[i]) in {'b', 'l', 'u', 'e', ' ', 'm', 'g'};
      }
      NoFirstCharacterNoMatch(BlueMug.title, "shirt");
      NoFirstCharacterNoMatch(BlueMug.description, "shirt");
    }
    FilterTwo(RedShirt, BlueMug, "shirt", None);
  }

  /** The "home" category with no query shows only the mug. */
  lemma CategoryScenario()
    ensures Filter([RedShirt, BlueMug], "", Some("home")) == [BlueMug]
  {
    assert !MatchesCategory(RedShirt, Some("home"));
    ContainsEmpty(BlueMug.title);
    FilterTwo(RedShirt, BlueMug, "", Some("home"));
  }

  /** An unknown category empties the list. */
  lemma UnknownCategoryScenario()
    ensures Filter([RedShirt, BlueMug], "", Some("toys")) == []
  {
    FilterUnknownCategory([RedShirt, BlueMug], "", "toys");
  }

  /** A successful retry with "shirt" typed still shows the mug: the load
      does not re-apply the active query. */
  lemma RetryIgnoresActiveQuery()
    ensures var vm := OnSearchQueryChange(Unloaded, "shirt");
      var r := LoadInitialData(vm, Success(["clothing", "home"]), Success([RedShirt, BlueMug]));
      BlueMug in r.ui.filteredProducts && !Consistent(r)
  {
    var vm := OnSearchQueryChange(Unloaded, "shirt");
    SearchScenario();
    assert Filter([RedShirt, BlueMug], vm.searchQuery, vm.ui.selectedCategory) == [RedShirt];
  }

  /** A categories failure reports its message even when the products fetch
      also failed, and nothing on screen but the flags changes. */
  lemma BothFetchesFailScenario(vm: HomeViewModel, message: string, other: Fault)
    ensures var r := LoadInitialData(vm, Failure(Fault(Some(message))), Failure(other));
      && r.ui.error == Some(message)
      && r.ui.(isLoading := vm.ui.isLoading, error := vm.ui.error) == vm.ui
      && r.allProducts == vm.allProducts
  {
  }
}
