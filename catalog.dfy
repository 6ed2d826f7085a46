/** The product record of the remote product catalog (src/services/productService.ts).
    The catalog itself is remote; its calls are oracles passed to the stores. */
module Catalog {
  import opened Base

  datatype CatalogProduct = CatalogProduct(
    id: string,
    sellerId: string,
    sellerName: string,
    title: string,
    price: real,
    description: string,
    image: Option<string>,
    available: bool,
    placeIds: Option<seq<string>>,
    createdAt: string,
    updatedAt: string)

  function CatalogId(p: CatalogProduct): string
  {
    p.id
  }
}
