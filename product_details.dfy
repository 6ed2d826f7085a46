/** The product details screen (src/screens/tourist/ProductDetailsScreen.tsx): the quantity
    picker, the place related to the product's seller and the favorite entry the heart
    button toggles. */
module ProductDetails {
  import opened Base
  import opened Lists
  import opened Places
  import opened Favorites
  import opened MockData

  function SellerNameKey(p: Place): Option<string>
  {
    p.sellerName
  }

  /** `relatedPlace`: the first place of `[...suggestions, ...popularPlaces]` whose
      `sellerName` is the product's seller, if any. */
  function RelatedPlace(suggestions: seq<Place>, popular: seq<Place>, product: Product): (r: Option<Place>)
    ensures r.Some? ==> r.value in suggestions + popular && r.value.sellerName == Some(product.seller)
    ensures r.None? <==> forall i :: 0 <= i < |suggestions + popular| ==>
                           (suggestions + popular)[i].sellerName != Some(product.seller)
    ensures r.Some? ==>
              (exists i :: 0 <= i < |suggestions + popular| && (suggestions + popular)[i] == r.value &&
                 forall j :: 0 <= j < i ==> (suggestions + popular)[j].sellerName != Some(product.seller))
  {
    var all := suggestions + popular;
    var r := Find(all, SellerNameKey, Some(product.seller));
    if r.Some? then
      var i := FirstIndex(all, SellerNameKey, Some(product.seller));
      assert all[i] == r.value;
      r
    else
      r
  }

  /** The entry `handleToggleFavorite` passes to `toggleFavorite`: the product's id and
      title, rating 0, and the related place's image when it has a truthy one, else the
      product's own image. */
  function FavoriteEntry(product: Product, related: Option<Place>): (e: FavoritePlace)
    ensures e.id == product.id && e.title == product.title && e.rating == 0.0
    ensures related.Some? && related.value.image != "" ==> e.image == related.value.image
    ensures related.None? || related.value.image == "" ==> e.image == product.image
  {
    var image := if related.Some? && related.value.image != "" then related.value.image else product.image;
    FavoritePlace(product.id, product.title, 0.0, image)
  }

  /** `Math.max(1, quantity + delta)`. */
  function NextQuantity(quantity: int, delta: int): (r: int)
    ensures r >= 1 && r >= quantity + delta
    ensures r == 1 || r == quantity + delta
  {
    if quantity + delta > 1 then quantity + delta else 1
  }

  /** The quantity after a sequence of changes, applied left to right. */
  function QuantityAfter(quantity: int, deltas: seq<int>): int
    decreases |deltas|
  {
    if deltas == [] then quantity else QuantityAfter(NextQuantity(quantity, deltas[0]), deltas[1..])
  }

  /** The quantity, starting at 1, is at least 1 after any sequence of changes. */
  lemma {:induction false} QuantityStaysPositive(quantity: int, deltas: seq<int>)
    requires quantity >= 1
    ensures QuantityAfter(quantity, deltas) >= 1
    decreases |deltas|
  {
    if deltas != [] {
      QuantityStaysPositive(NextQuantity(quantity, deltas[0]), deltas[1..]);
    }
  }

  /** +1 adds exactly one; -1 subtracts one above 1 and stays at 1. */
  lemma StepByOne(quantity: int)
    requires quantity >= 1
    ensures NextQuantity(quantity, 1) == quantity + 1
    ensures NextQuantity(quantity, -1) == if quantity == 1 then 1 else quantity - 1
  {
  }

  /** The screen's state: the product shown, the favorites store and the `quantity` slot. */
  class ProductDetailsScreen {
    const product: Product
    const store: FavoritesStore
    var quantity: int

    predicate Valid()
      reads this
    {
      quantity >= 1
    }

    constructor(product: Product, store: FavoritesStore)
      ensures this.product == product && this.store == store
      ensures quantity == 1 && Valid()
    {
      this.product := product;
      this.store := store;
      quantity := 1;
    }

    /** `handleQuantityChange(delta)`. */
    method HandleQuantityChange(delta: int)
      modifies this
      ensures quantity == NextQuantity(old(quantity), delta) && Valid()
    {
      quantity := NextQuantity(quantity, delta);
    }

    /** `handleToggleFavorite()`: toggles the entry built from the product and its related
        place, so the product's id becomes a favorite exactly when it was not one. */
    method HandleToggleFavorite(suggestions: seq<Place>, popular: seq<Place>)
      modifies store
      ensures store.favorites ==
              Toggled(old(store.favorites), FavoriteEntry(product, RelatedPlace(suggestions, popular, product)))
      ensures store.IsFavorite(product.id) <==> !old(store.IsFavorite(product.id))
    {
      store.ToggleFavorite(FavoriteEntry(product, RelatedPlace(suggestions, popular, product)));
    }
  }

  /** In the bundled data, the boat trip p1 is sold by "Amazon Tours", whose first place is
      "Encontro das Águas" (id 3), not the boat trip place (id 5): its favorite shows the
      picture of place 3. */
  lemma BoatTripFavoriteImage()
    ensures RelatedPlace(Suggestions, PopularPlaces, Products[0]) == Some(Suggestions[2])
    ensures FavoriteEntry(Products[0], RelatedPlace(Suggestions, PopularPlaces, Products[0])).image ==
            "Encontro_Aguas.jpg"
  {
    var all := Suggestions + PopularPlaces;
    assert all[0].sellerName != Some("Amazon Tours");
    assert all[1].sellerName != Some("Amazon Tours");
    assert all[2].sellerName == Some("Amazon Tours");
    assert FirstIndex(all, SellerNameKey, Some("Amazon Tours")) == 2;
  }
}
