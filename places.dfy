/** The record types of the bundled data (src/data/mockData.ts) and the place list the
    screens build from the two place lists. */
module Places {
  import opened Base
  import opened Lists

  datatype Category = Cultural | Nature | Adventure | Craft

  datatype Place = Place(
    id: string,
    title: string,
    location: string,
    rating: real,
    image: Image,
    description: string,
    category: Category,
    sellerId: Option<string>,
    sellerName: Option<string>)

  function PlaceId(p: Place): string
  {
    p.id
  }

  /** A bundled product; `seller` is the seller's display name. */
  datatype Product = Product(
    id: string,
    title: string,
    price: real,
    image: Image,
    description: string,
    seller: string,
    available: bool)

  /** `allPlaces`: `[...suggestions, ...popularPlaces]` keeping only the first place with each
      id. The create-plan, search and product-form screens build it the same way. */
  function AllPlaces(suggestions: seq<Place>, popular: seq<Place>): (r: seq<Place>)
    ensures UniqueKeys(r, PlaceId)
    ensures IsSubsequence(r, suggestions + popular)
    ensures forall i :: 0 <= i < |suggestions + popular| ==>
              Any(r, PlaceId, (suggestions + popular)[i].id)
    ensures forall i :: 0 <= i < |r| ==>
              Find(suggestions + popular, PlaceId, r[i].id) == Some(r[i])
    ensures UniqueKeys(suggestions + popular, PlaceId) ==> r == suggestions + popular
  {
    var all := suggestions + popular;
    DedupFirstFinds(all, PlaceId);
    if UniqueKeys(all, PlaceId) then
      DedupFirstOfUnique(all, PlaceId);
      DedupFirst(all, PlaceId)
    else
      DedupFirst(all, PlaceId)
  }
}
