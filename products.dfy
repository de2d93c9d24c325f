/** The products page's favourites: a list of product ids that the heart button
    toggles. */
module Products {
  import opened Lists

  class ProductsPage {
    var favoriteProducts: seq<int>

    /** Every id is listed at most once: the toggle never adds a listed id. */
    ghost predicate Valid()
      reads this
    {
      NoDuplicates(favoriteProducts)
    }

    /** No product is a favourite at first. */
    constructor ()
      ensures Valid() && favoriteProducts == []
    {
      favoriteProducts := [];
    }

    /** `handleToggleFavorite`: an absent id is appended, a present one removed,
        and the list keeps listing each id once. */
    method HandleToggleFavorite(productId: int)
      requires Valid()
      modifies this
      ensures Valid()
      ensures favoriteProducts == Toggle(old(favoriteProducts), productId)
    {
      ToggleNoDuplicates(favoriteProducts, productId);
      favoriteProducts := Toggle(favoriteProducts, productId);
    }
  }
}
