/** The tourist-side product list (src/store/useProductsStore.ts): three loaders, each
    replacing the list with one remote query's answer, and a lookup by id. The query
    answers are oracle parameters. */
module ProductsCatalog {
  import opened Base
  import opened Lists
  import opened Catalog

  class ProductsStore {
    var products: seq<CatalogProduct>
    var isLoading: bool

    constructor()
      ensures products == [] && !isLoading
    {
      products := [];
      isLoading := false;
    }

    /** The shape all three loaders share: raise `isLoading`, await the query, then take
        its answer wholesale, or keep the list and rethrow. */
    method Load(fetched: Remote<seq<CatalogProduct>>)
      returns (outcome: Outcome<RemoteError>, ghost loadingAtAwait: bool)
      modifies this
      ensures loadingAtAwait && !isLoading
      ensures fetched.Answered? ==> outcome == Done && products == fetched.value
      ensures fetched.Rejected? ==> outcome == Thrown(fetched.error) && products == old(products)
    {
      isLoading := true;
      loadingAtAwait := isLoading;
      if fetched.Rejected? {
        isLoading := false;
        return Thrown(fetched.error), loadingAtAwait;
      }
      products, isLoading := fetched.value, false;
      outcome := Done;
    }

    /** `loadAllProducts()`: `fetched` is the answer of `getAllProducts`. */
    method LoadAllProducts(fetched: Remote<seq<CatalogProduct>>)
      returns (outcome: Outcome<RemoteError>, ghost loadingAtAwait: bool)
      modifies this
      ensures loadingAtAwait && !isLoading
      ensures fetched.Answered? ==> outcome == Done && products == fetched.value
      ensures fetched.Rejected? ==> outcome == Thrown(fetched.error) && products == old(products)
    {
      outcome, loadingAtAwait := Load(fetched);
    }

    /** `loadAvailableProducts()`: `fetched` is the answer of `getAvailableProducts`. */
    method LoadAvailableProducts(fetched: Remote<seq<CatalogProduct>>)
      returns (outcome: Outcome<RemoteError>, ghost loadingAtAwait: bool)
      modifies this
      ensures loadingAtAwait && !isLoading
      ensures fetched.Answered? ==> outcome == Done && products == fetched.value
      ensures fetched.Rejected? ==> outcome == Thrown(fetched.error) && products == old(products)
    {
      outcome, loadingAtAwait := Load(fetched);
    }

    /** `loadProductsByPlace(placeId)`: `fetched` is the answer of `getProductsByPlace`. */
    method LoadProductsByPlace(placeId: string, fetched: Remote<seq<CatalogProduct>>)
      returns (outcome: Outcome<RemoteError>, ghost loadingAtAwait: bool)
      modifies this
      ensures loadingAtAwait && !isLoading
      ensures fetched.Answered? ==> outcome == Done && products == fetched.value
      ensures fetched.Rejected? ==> outcome == Thrown(fetched.error) && products == old(products)
    {
      outcome, loadingAtAwait := Load(fetched);
    }

    /** `getProduct(id)`: the first product with `id`, or none. */
    function GetProduct(id: string): (r: Option<CatalogProduct>)
      reads this
      ensures r.Some? <==> exists i :: 0 <= i < |products| && products[i].id == id
      ensures r.Some? ==> r.value.id == id
      ensures r.Some? ==>
                (exists i :: 0 <= i < |products| && products[i] == r.value &&
                   forall j :: 0 <= j < i ==> products[j].id != id)
    {
      var r := Find(products, CatalogId, id);
      if r.Some? then
        assert products[FirstIndex(products, CatalogId, id)] == r.value;
        r
      else
        r
    }
  }
}
