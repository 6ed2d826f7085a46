/** The seller's catalog and store profile (src/store/userSellerStore.ts). Each catalog
    operation raises `isLoading`, awaits one remote call and then, on success, updates the
    product list; on failure it lowers `isLoading` and rethrows. The remote answer is an
    oracle parameter. */
module SellerCatalog {
  import opened Base
  import opened Lists
  import opened Catalog

  datatype SellerProduct = SellerProduct(
    id: string,
    title: string,
    price: real,
    description: string,
    image: Option<string>,
    available: bool,
    placeIds: seq<string>)

  function SellerId(p: SellerProduct): string
  {
    p.id
  }

  /** `Omit<SellerProduct, "id">`, the payload of `addProduct`. */
  datatype NewProduct = NewProduct(
    title: string,
    price: real,
    description: string,
    image: Option<string>,
    available: bool,
    placeIds: seq<string>)

  /** `Partial<SellerProduct>`: `None` is a key the update object does not carry. `image`
      can be carried with the value `undefined`, which is `Some(None)`. */
  datatype ProductUpdate = ProductUpdate(
    id: Option<string>,
    title: Option<string>,
    price: Option<real>,
    description: Option<string>,
    image: Option<Option<string>>,
    available: Option<bool>,
    placeIds: Option<seq<string>>)

  const NoChange := ProductUpdate(None, None, None, None, None, None, None)

  datatype PixKeyType = Cpf | Cnpj | Email | Phone | RandomKey

  datatype StoreProfile = StoreProfile(
    name: string,
    owner: string,
    description: string,
    logo: Option<string>,
    pixKey: string,
    pixKeyType: PixKeyType)

  /** What `partialize` writes to device storage: everything but `isLoading`. */
  datatype PersistedSeller = PersistedSeller(products: seq<SellerProduct>, profile: StoreProfile)

  /** A catalog record as the store keeps it; a record without `placeIds` gets `[]`. */
  function FromRemote(c: CatalogProduct): (p: SellerProduct)
    ensures p.id == c.id && p.title == c.title && p.price == c.price
    ensures p.description == c.description && p.image == c.image && p.available == c.available
    ensures p.placeIds == if c.placeIds.Some? then c.placeIds.value else []
  {
    SellerProduct(c.id, c.title, c.price, c.description, c.image, c.available,
                  if c.placeIds.Some? then c.placeIds.value else [])
  }

  /** `products.map(...)` over a fetched list. */
  function FromRemoteAll(fetched: seq<CatalogProduct>): (r: seq<SellerProduct>)
    ensures |r| == |fetched|
    ensures forall i :: 0 <= i < |r| ==> r[i] == FromRemote(fetched[i])
  {
    if fetched == [] then [] else [FromRemote(fetched[0])] + FromRemoteAll(fetched[1..])
  }

  /** `{ ...p, ...updates }`: each key the update carries replaces that field. */
  function Merge(p: SellerProduct, u: ProductUpdate): (r: SellerProduct)
    ensures r.id == (if u.id.Some? then u.id.value else p.id)
    ensures r.title == (if u.title.Some? then u.title.value else p.title)
    ensures r.price == (if u.price.Some? then u.price.value else p.price)
    ensures r.description == (if u.description.Some? then u.description.value else p.description)
    ensures r.image == (if u.image.Some? then u.image.value else p.image)
    ensures r.available == (if u.available.Some? then u.available.value else p.available)
    ensures r.placeIds == (if u.placeIds.Some? then u.placeIds.value else p.placeIds)
  {
    SellerProduct(
      if u.id.Some? then u.id.value else p.id,
      if u.title.Some? then u.title.value else p.title,
      if u.price.Some? then u.price.value else p.price,
      if u.description.Some? then u.description.value else p.description,
      if u.image.Some? then u.image.value else p.image,
      if u.available.Some? then u.available.value else p.available,
      if u.placeIds.Some? then u.placeIds.value else p.placeIds)
  }

  /** The empty update changes nothing, and merging the same update twice is merging it
      once. */
  lemma MergeNoChangeAndIdempotent(p: SellerProduct, u: ProductUpdate)
    ensures Merge(p, NoChange) == p
    ensures Merge(Merge(p, u), u) == Merge(p, u)
  {
  }

  /** `products.map(p => p.id === id ? { ...p, ...updates } : p)`. */
  function UpdatedList(products: seq<SellerProduct>, id: string, u: ProductUpdate): (r: seq<SellerProduct>)
    ensures |r| == |products|
    ensures forall i :: 0 <= i < |r| ==>
              r[i] == if products[i].id == id then Merge(products[i], u) else products[i]
  {
    if products == [] then []
    else
      [if products[0].id == id then Merge(products[0], u) else products[0]]
        + UpdatedList(products[1..], id, u)
  }

  /** Updating an id no product carries leaves the list as it was. */
  lemma {:induction false} UpdateAbsent(products: seq<SellerProduct>, id: string, u: ProductUpdate)
    requires !Any(products, SellerId, id)
    ensures UpdatedList(products, id, u) == products
  {
    if products != [] {
      assert products[0].id != id;
      assert !Any(products[1..], SellerId, id) by {
        forall j | 0 <= j < |products[1..]| ensures SellerId(products[1..][j]) != id {
          assert products[1..][j] == products[j + 1];
        }
      }
      UpdateAbsent(products[1..], id, u);
    }
  }

  /** An update that does not carry `id` keeps every id, so afterwards `getProduct(id)`
      finds the merged record of the product it found before. */
  lemma UpdateThenGet(products: seq<SellerProduct>, id: string, u: ProductUpdate)
    requires u.id.None?
    ensures forall i :: 0 <= i < |products| ==> UpdatedList(products, id, u)[i].id == products[i].id
    ensures var before := Find(products, SellerId, id);
            Find(UpdatedList(products, id, u), SellerId, id) ==
            if before.Some? then Some(Merge(before.value, u)) else None
  {
    var r := UpdatedList(products, id, u);
    var k := FirstIndex(products, SellerId, id);
    assert forall i :: 0 <= i < |products| ==> SellerId(r[i]) == SellerId(products[i]);
    FirstIndexSameKeys(products, r, id);
    if k < |products| {
      assert r[k] == Merge(products[k], u);
    }
  }

  /** Two lists with the same keys position by position have the same first index. */
  lemma {:induction false} FirstIndexSameKeys(a: seq<SellerProduct>, b: seq<SellerProduct>, id: string)
    requires |a| == |b| && forall i :: 0 <= i < |a| ==> SellerId(a[i]) == SellerId(b[i])
    ensures FirstIndex(a, SellerId, id) == FirstIndex(b, SellerId, id)
  {
    if |a| > 0 && SellerId(a[0]) != id {
      assert forall i :: 0 <= i < |a[1..]| ==> SellerId(a[1..][i]) == SellerId(b[1..][i]) by {
        forall i | 0 <= i < |a[1..]| ensures SellerId(a[1..][i]) == SellerId(b[1..][i]) {
          assert a[1..][i] == a[i + 1] && b[1..][i] == b[i + 1];
        }
      }
      FirstIndexSameKeys(a[1..], b[1..], id);
    }
  }

  /** The store (`useSellerStore`). */
  class SellerStore {
    var products: seq<SellerProduct>
    var isLoading: bool
    var storeName: string
    var storeOwner: string
    var storeDescription: string
    var storeLogo: Option<string>
    var pixKey: string
    var pixKeyType: PixKeyType

    function Profile(): StoreProfile
      reads this
    {
      StoreProfile(storeName, storeOwner, storeDescription, storeLogo, pixKey, pixKeyType)
    }

    function Persisted(): (r: PersistedSeller)
      reads this
      ensures r.products == products
      ensures r.profile == StoreProfile(storeName, storeOwner, storeDescription, storeLogo, pixKey, pixKeyType)
    {
      PersistedSeller(products, Profile())
    }

    constructor()
      ensures products == [] && !isLoading
      ensures Profile() == StoreProfile("", "", "", None, "", Cpf)
    {
      products := [];
      isLoading := false;
      storeName := "";
      storeOwner := "";
      storeDescription := "";
      storeLogo := None;
      pixKey := "";
      pixKeyType := Cpf;
    }

    /** `loadProducts(sellerId)`: `fetched` is the answer of `getProductsBySeller`. On
        success the list is replaced by the fetched one, in its order. */
    method LoadProducts(sellerId: string, fetched: Remote<seq<CatalogProduct>>)
      returns (outcome: Outcome<RemoteError>, ghost loadingAtAwait: bool)
      modifies this
      ensures loadingAtAwait && !isLoading && Profile() == old(Profile())
      ensures fetched.Answered? ==> outcome == Done && products == FromRemoteAll(fetched.value)
      ensures fetched.Rejected? ==> outcome == Thrown(fetched.error) && products == old(products)
    {
      isLoading := true;
      loadingAtAwait := isLoading;
      if fetched.Rejected? {
        isLoading := false;
        return Thrown(fetched.error), loadingAtAwait;
      }
      products := FromRemoteAll(fetched.value);
      isLoading := false;
      outcome := Done;
    }

    /** `addProduct(sellerId, sellerName, product)`: `created` is the answer of
        `createProduct`, carrying the new id. On success exactly that record is appended. */
    method AddProduct(sellerId: string, sellerName: string, product: NewProduct, created: Remote<CatalogProduct>)
      returns (outcome: Outcome<RemoteError>, ghost loadingAtAwait: bool)
      modifies this
      ensures loadingAtAwait && !isLoading && Profile() == old(Profile())
      ensures created.Answered? ==>
                outcome == Done && products == old(products) + [FromRemote(created.value)] &&
                products[|products| - 1].id == created.value.id
      ensures created.Rejected? ==> outcome == Thrown(created.error) && products == old(products)
    {
      isLoading := true;
      loadingAtAwait := isLoading;
      if created.Rejected? {
        isLoading := false;
        return Thrown(created.error), loadingAtAwait;
      }
      products := products + [FromRemote(created.value)];
      isLoading := false;
      outcome := Done;
    }

    /** `updateProduct(id, updates)`: `ack` is the answer of the remote update. On success
        every product with `id` is merged with the update. */
    method UpdateProduct(id: string, u: ProductUpdate, ack: Remote<()>)
      returns (outcome: Outcome<RemoteError>, ghost loadingAtAwait: bool)
      modifies this
      ensures loadingAtAwait && !isLoading && Profile() == old(Profile())
      ensures ack.Answered? ==> outcome == Done && products == UpdatedList(old(products), id, u)
      ensures ack.Rejected? ==> outcome == Thrown(ack.error) && products == old(products)
    {
      isLoading := true;
      loadingAtAwait := isLoading;
      if ack.Rejected? {
        isLoading := false;
        return Thrown(ack.error), loadingAtAwait;
      }
      products := UpdatedList(products, id, u);
      isLoading := false;
      outcome := Done;
    }

    /** `deleteProduct(id)`: on success every product with `id` is dropped and the others
        keep their order. */
    method DeleteProduct(id: string, ack: Remote<()>)
      returns (outcome: Outcome<RemoteError>, ghost loadingAtAwait: bool)
      modifies this
      ensures loadingAtAwait && !isLoading && Profile() == old(Profile())
      ensures ack.Answered? ==>
                outcome == Done && products == Without(old(products), SellerId, id) &&
                GetProduct(id).None? && IsSubsequence(products, old(products))
      ensures ack.Rejected? ==> outcome == Thrown(ack.error) && products == old(products)
    {
      isLoading := true;
      loadingAtAwait := isLoading;
      if ack.Rejected? {
        isLoading := false;
        return Thrown(ack.error), loadingAtAwait;
      }
      products := Without(products, SellerId, id);
      isLoading := false;
      outcome := Done;
    }

    /** `getProduct(id)`: the first product with `id`. */
    function GetProduct(id: string): (r: Option<SellerProduct>)
      reads this
      ensures r.Some? <==> exists i :: 0 <= i < |products| && products[i].id == id
      ensures r.Some? ==> r.value.id == id
      ensures r.Some? ==>
                (exists i :: 0 <= i < |products| && products[i] == r.value &&
                   forall j :: 0 <= j < i ==> products[j].id != id)
    {
      var r := Find(products, SellerId, id);
      if r.Some? then
        assert products[FirstIndex(products, SellerId, id)] == r.value;
        r
      else
        r
    }

    /** `setStoreInfo(name, owner, description)`. */
    method SetStoreInfo(name: string, owner: string, description: string)
      modifies this
      ensures Profile() == old(Profile()).(name := name, owner := owner, description := description)
      ensures products == old(products) && isLoading == old(isLoading)
    {
      storeName, storeOwner, storeDescription := name, owner, description;
    }

    /** `setStoreLogo(logo)`. */
    method SetStoreLogo(logo: Option<string>)
      modifies this
      ensures Profile() == old(Profile()).(logo := logo)
      ensures products == old(products) && isLoading == old(isLoading)
    {
      storeLogo := logo;
    }

    /** `setPixInfo(key, type)`. */
    method SetPixInfo(key: string, keyType: PixKeyType)
      modifies this
      ensures Profile() == old(Profile()).(pixKey := key, pixKeyType := keyType)
      ensures products == old(products) && isLoading == old(isLoading)
    {
      pixKey, pixKeyType := key, keyType;
    }
  }

  /** `isLoading` is not persisted: two stores that differ only in it write the same
      snapshot. */
  lemma PersistedIgnoresLoading(a: SellerStore, b: SellerStore)
    requires a.products == b.products && a.Profile() == b.Profile() && a.isLoading != b.isLoading
    ensures a.Persisted() == b.Persisted()
  {
  }
}
