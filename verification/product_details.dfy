/** The product page: loading one product by the id in its route, and the
    favourite toggle over the favourites table. */
module ProductDetails {
  import opened Outcomes
  import opened Catalog
  import opened Favorites

  datatype ProductDetailsUiState = ProductDetailsUiState(
    product: Option<Product>,
    isLoading: bool,
    error: Option<string>)

  /** `productId` is the route argument the page was opened with. */
  datatype ProductDetailsViewModel = ProductDetailsViewModel(productId: ProductId, ui: ProductDetailsUiState)

  const UnknownLoadError := "Unknown error occurred"

  /** The first step of `loadProduct`. */
  function StartLoading(vm: ProductDetailsViewModel): (r: ProductDetailsViewModel)
    ensures r.ui.isLoading
    ensures r.productId == vm.productId && r.ui.product == vm.ui.product && r.ui.error == vm.ui.error
  {
    vm.(ui := vm.ui.(isLoading := true))
  }

  /** The fetch's outcome: a product replaces the shown one and clears the
      error; a failure keeps the shown product and reports its message. */
  function FinishLoading(vm: ProductDetailsViewModel, fetched: Result<Product>): (r: ProductDetailsViewModel)
    ensures !r.ui.isLoading && r.productId == vm.productId
    ensures fetched.Success? ==> r.ui.product == Some(fetched.value) && r.ui.error.None?
    ensures fetched.Failure? ==>
      r.ui.product == vm.ui.product && r.ui.error == Some(MessageOr(fetched.fault, UnknownLoadError))
  {
    match fetched
    case Success(p) => vm.(ui := ProductDetailsUiState(Some(p), false, None))
    case Failure(f) => vm.(ui := vm.ui.(isLoading := false, error := Some(MessageOr(f, UnknownLoadError))))
  }

  /** `loadProduct`, and `retryLoading`, which is the same call; `fetched`
      is what the catalog answers for the route's id. */
  function LoadProduct(vm: ProductDetailsViewModel, fetched: Result<Product>): (r: ProductDetailsViewModel)
    ensures !r.ui.isLoading && r.productId == vm.productId
    ensures r.ui.error.None? <==> fetched.Success?
    ensures r.ui.product.None? ==> vm.ui.product.None?
  {
    FinishLoading(StartLoading(vm), fetched)
  }

  /** The row stored for a product: its fields, its rating's score and
      count, and the time of the toggle. */
  function ToFavorite(p: Product, now: int): (f: FavoriteProduct)
    ensures f.id == p.id && f.title == p.title && f.price == p.price
    ensures f.description == p.description && f.category == p.category && f.image == p.image
    ensures f.rating == p.rating.rate && f.ratingCount == p.rating.count && f.timestamp == now
  {
    FavoriteProduct(p.id, p.title, p.price, p.description, p.category, p.image,
                    p.rating.rate, p.rating.count, now)
  }

  /** `toggleFavorite`: nothing happens before a product is shown. Whether
      the route's id is a favourite decides between removing and adding the
      shown product's row; no other row changes. `now` is the clock. */
  function ToggleFavorite(vm: ProductDetailsViewModel, t: FavoriteTable, now: int): (r: FavoriteTable)
    ensures vm.ui.product.None? ==> r == t
    ensures vm.ui.product.Some? && IsFavorite(t, vm.productId) ==> !IsFavorite(r, vm.ui.product.value.id)
    ensures vm.ui.product.Some? && !IsFavorite(t, vm.productId) ==>
      var p := vm.ui.product.value; p.id in r && r[p.id] == ToFavorite(p, now)
    ensures vm.ui.product.Some? ==> forall k :: k != vm.ui.product.value.id ==>
      (k in r <==> k in t) && (k in r ==> r[k] == t[k])
  {
    match vm.ui.product
    case None => t
    case Some(p) =>
      if IsFavorite(t, vm.productId) then RemoveFromFavorites(t, p.id)
      else AddToFavorites(t, ToFavorite(p, now))
  }

  /** With the route's own product shown, a toggle flips its membership. */
  lemma ToggleFlips(vm: ProductDetailsViewModel, t: FavoriteTable, now: int)
    requires vm.ui.product.Some? && vm.ui.product.value.id == vm.productId
    ensures IsFavorite(ToggleFavorite(vm, t, now), vm.productId) <==> !IsFavorite(t, vm.productId)
  {
  }

  /** Two toggles restore the membership of every id. */
  lemma ToggleTwiceMembership(vm: ProductDetailsViewModel, t: FavoriteTable, now: int, later: int)
    requires vm.ui.product.Some? && vm.ui.product.value.id == vm.productId
    ensures forall k :: k in ToggleFavorite(vm, ToggleFavorite(vm, t, now), later) <==> k in t
  {
    ToggleFlips(vm, t, now);
    ToggleFlips(vm, ToggleFavorite(vm, t, now), later);
  }

  /** When the product was not a favourite, two toggles restore the table
      itself. */
  lemma ToggleTwiceRestores(vm: ProductDetailsViewModel, t: FavoriteTable, now: int, later: int)
    requires vm.ui.product.Some? && vm.ui.product.value.id == vm.productId
    requires !IsFavorite(t, vm.productId)
    ensures ToggleFavorite(vm, ToggleFavorite(vm, t, now), later) == t
  {
    var p := vm.ui.product.value;
    var once := AddToFavorites(t, ToFavorite(p, now));
    assert ToggleFavorite(vm, t, now) == once;
    var twice := RemoveFromFavorites(once, p.id);
    assert ToggleFavorite(vm, once, later) == twice;
    assert twice.Keys == t.Keys;
  }

  /** When it was a favourite, two toggles put its row back with the later
      timestamp. */
  lemma ToggleTwiceRefreshes(vm: ProductDetailsViewModel, t: FavoriteTable, now: int, later: int)
    requires vm.ui.product.Some? && vm.ui.product.value.id == vm.productId
    requires IsFavorite(t, vm.productId)
    ensures ToggleFavorite(vm, ToggleFavorite(vm, t, now), later)
         == AddToFavorites(t, ToFavorite(vm.ui.product.value, later))
  {
    var p := vm.ui.product.value;
    var once := RemoveFromFavorites(t, p.id);
    assert ToggleFavorite(vm, t, now) == once;
    var twice := AddToFavorites(once, ToFavorite(p, later));
    assert ToggleFavorite(vm, once, later) == twice;
    assert twice.Keys == AddToFavorites(t, ToFavorite(p, later)).Keys;
  }

  /** A load keeps the page's route; a failed reload keeps the product on
      screen, so the toggle still acts on it. */
  lemma FailedReloadKeepsToggleTarget(vm: ProductDetailsViewModel, f: Fault, t: FavoriteTable, now: int)
    ensures ToggleFavorite(LoadProduct(vm, Failure(f)), t, now) == ToggleFavorite(vm, t, now)
  {
  }
}
