/** The seller's product form (src/screens/seller/SellerProductsFormScreen.tsx): the form's
    state slots, the edit prefill, the place picker and the checks `handleSubmit` runs
    before it asks the seller store to create or update the product. `parseFloat` is the
    parameter `parse`, with `None` for NaN. */
module ProductForm {
  import opened Base
  import opened Text
  import opened Lists
  import opened Catalog
  import opened SellerCatalog
  import opened Auth

  datatype FormError = NotAuthenticated | MissingTitle | MissingPrice | InvalidPrice | MissingPlace

  /** The store call a valid form issues. */
  datatype SubmitCall =
    | UpdateCall(id: string, update: ProductUpdate)
    | AddCall(sellerId: string, sellerName: string, product: NewProduct)

  datatype SubmitDecision = Reject(error: FormError) | Submit(call: SubmitCall)

  /** `placeIds && placeIds.length > 0 ? placeIds[0] : null`. */
  function FirstPlace(placeIds: seq<string>): (r: Option<string>)
    ensures r.None? <==> |placeIds| == 0
    ensures r.Some? ==> r.value == placeIds[0] && r.value in placeIds
  {
    if |placeIds| > 0 then Some(placeIds[0]) else None
  }

  /** The price as `parseFloat(price.replace(",", "."))` reads it: a price without a comma
      reaches `parseFloat` untouched; otherwise only its first comma becomes a dot. */
  function ParsedPrice(price: string, parse: string -> Option<real>): (r: Option<real>)
    ensures ',' !in price ==> r == parse(price)
    ensures ',' in price ==>
              var k := IndexOf(price, ',');
              r == parse(price[..k] + "." + price[k + 1..]) && ',' !in price[..k]
  {
    parse(ReplaceFirst(price, ',', '.'))
  }

  /** A Brazilian decimal comma is read as a decimal point. */
  lemma CommaDecimalPrice(parse: string -> Option<real>)
    ensures ParsedPrice("12,50", parse) == parse("12.50")
  {
    IndexOfAt("12,50", ',', 2);
    assert "12,50"[..2] + "." + "12,50"[3..] == "12.50";
  }

  /** A dot-decimal price reaches `parseFloat` unchanged. */
  lemma DotDecimalPrice(parse: string -> Option<real>)
    ensures ParsedPrice("12.50", parse) == parse("12.50")
  {
    assert ',' !in "12.50";
  }

  /** Only the first of several commas is replaced. */
  lemma OnlyFirstCommaReplaced(parse: string -> Option<real>)
    ensures ParsedPrice("1,2,3", parse) == parse("1.2,3")
  {
    IndexOfAt("1,2,3", ',', 1);
    assert "1,2,3"[..1] + "." + "1,2,3"[2..] == "1.2,3";
  }

  class ProductFormScreen {
    const productId: Option<string>
    var title: string
    var price: string
    var description: string
    var imageUri: Option<string>
    var placeId: Option<string>

    /** `isEditing`: the route carries a non-empty product id. */
    predicate IsEditing()
    {
      Truthy(productId)
    }

    /** The slots' initial values; the place comes from the route when it is truthy. */
    constructor(productId: Option<string>, routePlaceId: Option<string>)
      ensures this.productId == productId
      ensures title == "" && price == "" && description == "" && imageUri.None?
      ensures placeId == OrNone(routePlaceId)
    {
      this.productId := productId;
      title, price, description, imageUri := "", "", "", None;
      placeId := OrNone(routePlaceId);
    }

    /** The edit prefill: when editing a product the store holds, copy its fields;
        `formatPrice` is `price.toString()`. The place is the first linked one, or none. */
    method Prefill(products: seq<SellerProduct>, formatPrice: real -> string)
      modifies this
      ensures var found := if IsEditing() then Find(products, SellerId, productId.value) else None;
              if found.None? then
                title == old(title) && price == old(price) && description == old(description) &&
                imageUri == old(imageUri) && placeId == old(placeId)
              else
                title == found.value.title && price == formatPrice(found.value.price) &&
                description == found.value.description && imageUri == OrNone(found.value.image) &&
                placeId == FirstPlace(found.value.placeIds)
    {
      if !IsEditing() {
        return;
      }
      var found := Find(products, SellerId, productId.value);
      if found.Some? {
        var p := found.value;
        title, price, description := p.title, formatPrice(p.price), p.description;
        imageUri := OrNone(p.image);
        placeId := FirstPlace(p.placeIds);
      }
    }

    /** Tapping a place selects it; tapping the selected place again keeps it selected. */
    method SelectPlace(id: string)
      modifies this
      ensures placeId == Some(id)
      ensures title == old(title) && price == old(price) && description == old(description)
      ensures imageUri == old(imageUri)
    {
      placeId := Some(id);
    }

    /** `handleSubmit`: the first failing check, in the order: signed-in user with an id and
        a name, trimmed title, trimmed price, a price that parses to more than 0, a selected
        place. A valid form updates the edited product or creates a new available one; both
        link exactly the selected place and trim the title and description. */
    method HandleSubmit(user: Option<User>, parse: string -> Option<real>) returns (d: SubmitDecision)
      ensures d == Reject(NotAuthenticated) <==> user.None? || user.value.id == "" || user.value.name == ""
      ensures d == Reject(MissingTitle) <==>
                user.Some? && user.value.id != "" && user.value.name != "" && Trim(title) == ""
      ensures d == Reject(MissingPrice) <==>
                user.Some? && user.value.id != "" && user.value.name != "" && Trim(title) != "" &&
                Trim(price) == ""
      ensures d == Reject(InvalidPrice) <==>
                user.Some? && user.value.id != "" && user.value.name != "" && Trim(title) != "" &&
                Trim(price) != "" &&
                (ParsedPrice(price, parse).None? || ParsedPrice(price, parse).value <= 0.0)
      ensures d == Reject(MissingPlace) <==>
                user.Some? && user.value.id != "" && user.value.name != "" && Trim(title) != "" &&
                Trim(price) != "" && ParsedPrice(price, parse).Some? &&
                ParsedPrice(price, parse).value > 0.0 && !Truthy(placeId)
      ensures d.Submit? <==>
                user.Some? && user.value.id != "" && user.value.name != "" && Trim(title) != "" &&
                Trim(price) != "" && ParsedPrice(price, parse).Some? &&
                ParsedPrice(price, parse).value > 0.0 && Truthy(placeId)
      ensures d.Submit? && IsEditing() ==>
                d.call == UpdateCall(productId.value, ProductUpdate(
                            None, Some(Trim(title)), Some(ParsedPrice(price, parse).value),
                            Some(Trim(description)), Some(OrNone(imageUri)), None,
                            Some([placeId.value])))
      ensures d.Submit? && !IsEditing() ==>
                d.call == AddCall(user.value.id, user.value.name, NewProduct(
                            Trim(title), ParsedPrice(price, parse).value, Trim(description),
                            OrNone(imageUri), true, [placeId.value]))
    {
      if user.None? || user.value.id == "" || user.value.name == "" {
        return Reject(NotAuthenticated);
      }
      if Trim(title) == "" {
        return Reject(MissingTitle);
      }
      if Trim(price) == "" {
        return Reject(MissingPrice);
      }
      var priceNum := ParsedPrice(price, parse);
      if priceNum.None? || priceNum.value <= 0.0 {
        return Reject(InvalidPrice);
      }
      if !Truthy(placeId) {
        return Reject(MissingPlace);
      }
      var linkedPlaceIds := [placeId.value];
      if IsEditing() {
        d := Submit(UpdateCall(productId.value, ProductUpdate(
               None, Some(Trim(title)), Some(priceNum.value), Some(Trim(description)),
               Some(OrNone(imageUri)), None, Some(linkedPlaceIds))));
      } else {
        d := Submit(AddCall(user.value.id, user.value.name, NewProduct(
               Trim(title), priceNum.value, Trim(description), OrNone(imageUri), true,
               linkedPlaceIds)));
      }
    }
  }

  /** Issuing the submitted call: a failure shows an alert and is swallowed. `created` and
      `ack` are the answers of the remote create and update. */
  method Perform(store: SellerStore, call: SubmitCall, created: Remote<CatalogProduct>, ack: Remote<()>)
    modifies store
    ensures !store.isLoading && store.Profile() == old(store.Profile())
    ensures call.UpdateCall? ==>
              store.products == if ack.Answered? then UpdatedList(old(store.products), call.id, call.update)
                                else old(store.products)
    ensures call.AddCall? ==>
              store.products == if created.Answered? then old(store.products) + [FromRemote(created.value)]
                                else old(store.products)
  {
    if call.UpdateCall? {
      var outcome, loading := store.UpdateProduct(call.id, call.update, ack);
    } else {
      var outcome, loading := store.AddProduct(call.sellerId, call.sellerName, call.product, created);
    }
  }

  /** An edit never changes the product's id or its availability, and it links exactly
      the selected place. */
  lemma UpdateKeepsIdAndAvailability(p: SellerProduct, id: string, u: ProductUpdate, place: string)
    requires u.id.None? && u.available.None? && u.placeIds == Some([place])
    ensures Merge(p, u).id == p.id && Merge(p, u).available == p.available
    ensures Merge(p, u).placeIds == [place]
  {
  }
}
