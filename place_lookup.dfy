/** Place lookups by id over the two bundled place lists (src/hooks/usePlace.ts). */
module PlaceLookup {
  import opened Base
  import opened Lists
  import opened Places

  /** `getPlaceData(id)`: the first match in `suggestions`, else the first match in
      `popular`, else null. This is the first match in the concatenation. */
  function GetPlaceData(suggestions: seq<Place>, popular: seq<Place>, id: string): (r: Option<Place>)
    ensures r == Find(suggestions + popular, PlaceId, id)
    ensures r.Some? <==> Any(suggestions, PlaceId, id) || Any(popular, PlaceId, id)
    ensures r.Some? && Any(suggestions, PlaceId, id) ==> r.value in suggestions
    ensures r.Some? && !Any(suggestions, PlaceId, id) ==> r.value in popular
  {
    FindAppend(suggestions, popular, PlaceId, id);
    var first := Find(suggestions, PlaceId, id);
    if first.Some? then first else Find(popular, PlaceId, id)
  }

  /** `place?.image || null`. */
  function ImageOf(place: Option<Place>): (r: Option<Image>)
    ensures r.Some? <==> place.Some? && place.value.image != ""
    ensures r.Some? ==> r.value == place.value.image
  {
    if place.Some? && place.value.image != "" then Some(place.value.image) else None
  }

  /** `getPlaceImage(id)` as written: it indexes all places in a `Map` keyed by id, which
      keeps one entry per id but lets the LAST place with that id win, and looks the id up
      there. (Looking up the map's values by id is a lookup of the key, since each value
      sits under its own id.) */
  function GetPlaceImageAsWritten(suggestions: seq<Place>, popular: seq<Place>, id: string): (r: Option<Image>)
    ensures !Any(suggestions + popular, PlaceId, id) ==> r.None?
  {
    var index := KeyMap(suggestions + popular, PlaceId);
    ImageOf(if id in index then Some(index[id]) else None)
  }

  /** As written, the image comes from the last place carrying `id`. */
  lemma AsWrittenTakesLast(suggestions: seq<Place>, popular: seq<Place>, i: nat)
    requires i < |suggestions + popular|
    requires forall j :: i < j < |suggestions + popular| ==>
               (suggestions + popular)[j].id != (suggestions + popular)[i].id
    ensures GetPlaceImageAsWritten(suggestions, popular, (suggestions + popular)[i].id) ==
            ImageOf(Some((suggestions + popular)[i]))
  {
    KeyMapKeepsLast(suggestions + popular, PlaceId, i);
  }

  /** With ids unique across both lists, the as-written lookup agrees with `getPlaceData`. */
  lemma AsWrittenAgreesWhenUnique(suggestions: seq<Place>, popular: seq<Place>, id: string)
    requires UniqueKeys(suggestions + popular, PlaceId)
    ensures GetPlaceImageAsWritten(suggestions, popular, id) ==
            ImageOf(GetPlaceData(suggestions, popular, id))
  {
    var found := Find(suggestions + popular, PlaceId, id);
    if found.Some? {
      KeyMapOfUnique(suggestions + popular, PlaceId, found.value);
    }
  }

  /** Two places with id "1" in the two lists: the as-written lookup returns the second
      one's image although the code's comment promises the first is kept, and `getPlaceData`
      returns the first. */
  lemma AsWrittenKeepsLastDuplicate()
    ensures var a := Place("1", "Teatro", "Centro", 4.5, "teatro.png", "", Cultural, None, None);
            var b := Place("1", "Encontro", "Rio", 4.8, "encontro.png", "", Nature, None, None);
            GetPlaceImageAsWritten([a], [b], "1") == Some("encontro.png") &&
            ImageOf(GetPlaceData([a], [b], "1")) == Some("teatro.png")
  {
    var a := Place("1", "Teatro", "Centro", 4.5, "teatro.png", "", Cultural, None, None);
    var b := Place("1", "Encontro", "Rio", 4.8, "encontro.png", "", Nature, None, None);
    assert [a] + [b] == [a, b];
    AsWrittenTakesLast([a], [b], 1);
    assert Find([a], PlaceId, "1") == Some(a);
  }

  /** `getPlaceImage(id)` as its comment intends: de-duplicate keeping the first place with
      each id, then find. It always agrees with `getPlaceData`. */
  function GetPlaceImage(suggestions: seq<Place>, popular: seq<Place>, id: string): (r: Option<Image>)
    ensures r == ImageOf(GetPlaceData(suggestions, popular, id))
    ensures !Any(suggestions + popular, PlaceId, id) ==> r.None?
  {
    FindAfterDedup(suggestions + popular, PlaceId, id);
    ImageOf(Find(AllPlaces(suggestions, popular), PlaceId, id))
  }
}
