/** The seller's shop window (src/screens/seller/SellerVitrineScreen.tsx): an availability
    switch per product and the count of active products. */
module Vitrine {
  import opened Base
  import opened Lists
  import opened SellerCatalog

  /** The update `{ available: b }`: it carries no other key. */
  function AvailabilityOnly(b: bool): (u: ProductUpdate)
    ensures u.available == Some(b)
    ensures u.(available := None) == NoChange
  {
    NoChange.(available := Some(b))
  }

  /** Merging an availability-only update changes `available` and nothing else. */
  lemma AvailabilityOnlyChangesOnlyAvailable(p: SellerProduct, b: bool)
    ensures Merge(p, AvailabilityOnly(b)) == p.(available := b)
  {
  }

  predicate IsAvailable(p: SellerProduct)
  {
    p.available
  }

  /** `activeProducts`: how many products are available. */
  function ActiveProducts(products: seq<SellerProduct>): (n: nat)
    ensures n <= |products|
    ensures n == |products| <==> forall i :: 0 <= i < |products| ==> products[i].available
    ensures n == 0 <==> forall i :: 0 <= i < |products| ==> !products[i].available
  {
    FilterFullIff(products, IsAvailable);
    FilterEmptyIff(products, IsAvailable);
    |Filter(products, IsAvailable)|
  }

  /** The count of a concatenation is the sum of the counts. */
  lemma ActiveProductsAppend(a: seq<SellerProduct>, b: seq<SellerProduct>)
    ensures ActiveProducts(a + b) == ActiveProducts(a) + ActiveProducts(b)
  {
    FilterAppend(a, b, IsAvailable);
  }

  /** One product counts 1 when available and 0 otherwise; with `ActiveProductsAppend` this
      pins the count down to the number of available products. */
  lemma ActiveProductsSingleton(p: SellerProduct)
    ensures ActiveProducts([p]) == if p.available then 1 else 0
  {
    assert [p][1..] == [];
  }

  /** The count equals the number of positions holding an available product. */
  lemma {:induction false} ActiveProductsCounts(products: seq<SellerProduct>)
    ensures ActiveProducts(products) == |set i | 0 <= i < |products| && products[i].available|
  {
    if products != [] {
      var n := |products| - 1;
      var init := products[..n];
      assert products == init + [products[n]];
      ActiveProductsCounts(init);
      ActiveProductsAppend(init, [products[n]]);
      ActiveProductsSingleton(products[n]);
      AvailableIndicesExtend(products);
    }
  }

  /** The available positions of a list are those of its prefix, plus the last one when
      that product is available. */
  lemma AvailableIndicesExtend(products: seq<SellerProduct>)
    requires products != []
    ensures var n := |products| - 1;
            var before := set i | 0 <= i < n && products[..n][i].available;
            var after := set i | 0 <= i < |products| && products[i].available;
            after == if products[n].available then before + {n} else before
  {
  }

  /** Two successful toggles of a product whose entries all show availability `a` (the
      switch sends `!a`, then `!!a`) restore the list. */
  lemma ToggleTwiceRestores(products: seq<SellerProduct>, id: string, a: bool)
    requires forall i :: 0 <= i < |products| && products[i].id == id ==> products[i].available == a
    ensures UpdatedList(UpdatedList(products, id, AvailabilityOnly(!a)), id, AvailabilityOnly(a)) == products
  {
    var once := UpdatedList(products, id, AvailabilityOnly(!a));
    var twice := UpdatedList(once, id, AvailabilityOnly(a));
    forall i | 0 <= i < |products| ensures twice[i] == products[i] {
      if products[i].id == id {
        AvailabilityOnlyChangesOnlyAvailable(products[i], !a);
        AvailabilityOnlyChangesOnlyAvailable(once[i], a);
      }
    }
  }

  /** `toggleAvailability(id, available)`: asks the store to flip the switch; a failure is
      logged and swallowed, leaving the list as the store left it. */
  method ToggleAvailability(store: SellerStore, id: string, available: bool, ack: Remote<()>)
    modifies store
    ensures ack.Answered? ==> store.products == UpdatedList(old(store.products), id, AvailabilityOnly(!available))
    ensures ack.Rejected? ==> store.products == old(store.products)
    ensures !store.isLoading && store.Profile() == old(store.Profile())
  {
    var outcome, loading := store.UpdateProduct(id, AvailabilityOnly(!available), ack);
  }
}
