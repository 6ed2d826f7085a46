/** The favorites store: an ordered list of favorited places kept on the device
    (src/store/useFavoriteStore.ts). It makes no remote calls. */
module Favorites {
  import opened Base
  import opened Lists

  datatype FavoritePlace = FavoritePlace(id: string, title: string, rating: real, image: Image)

  function FavId(p: FavoritePlace): string
  {
    p.id
  }

  /** The list `toggleFavorite(place)` leaves: every entry with `place.id` dropped when one
      exists, `place` appended otherwise. Toggling flips membership of the id. */
  function Toggled(favorites: seq<FavoritePlace>, place: FavoritePlace): (r: seq<FavoritePlace>)
    ensures Any(r, FavId, place.id) <==> !Any(favorites, FavId, place.id)
  {
    if Any(favorites, FavId, place.id) then Without(favorites, FavId, place.id)
    else
      var r := favorites + [place];
      assert FavId(r[|favorites|]) == place.id;
      r
  }

  /** Toggling an id that is absent, twice, gives back the original list. */
  lemma ToggleTwiceAbsent(favorites: seq<FavoritePlace>, place: FavoritePlace)
    requires !Any(favorites, FavId, place.id)
    ensures Toggled(Toggled(favorites, place), place) == favorites
  {
    AppendThenWithout(favorites, FavId, place);
  }

  /** `toggleFavorite` never creates two entries with the same id. */
  lemma ToggleKeepsIdsUnique(favorites: seq<FavoritePlace>, place: FavoritePlace)
    requires UniqueKeys(favorites, FavId)
    ensures UniqueKeys(Toggled(favorites, place), FavId)
  {
    if Any(favorites, FavId, place.id) {
      WithoutKeepsUniqueKeys(favorites, FavId, place.id);
    } else {
      AddCanDuplicateId(favorites, place);
    }
  }

  /** `addFavorite` appends unconditionally: on a list with unique ids, the result keeps
      them unique exactly when the id was not yet a favorite. */
  lemma AddCanDuplicateId(favorites: seq<FavoritePlace>, place: FavoritePlace)
    ensures Any(favorites, FavId, place.id) ==> !UniqueKeys(favorites + [place], FavId)
    ensures UniqueKeys(favorites, FavId) && !Any(favorites, FavId, place.id) ==>
              UniqueKeys(favorites + [place], FavId)
  {
    var r := favorites + [place];
    if Any(favorites, FavId, place.id) {
      var k :| 0 <= k < |favorites| && favorites[k].id == place.id;
      assert r[k] == favorites[k] && r[|favorites|] == place;
    } else if UniqueKeys(favorites, FavId) {
      forall i, j | 0 <= i < j < |r| ensures FavId(r[i]) != FavId(r[j]) {
        assert r[i] == favorites[i];
        if j < |favorites| {
          assert r[j] == favorites[j];
        }
      }
    }
  }

  /** Remove followed by restore of the removed entry: the entry comes back at the head,
      the id is a favorite again and, when ids are unique, the list is a permutation of the
      original with no duplicate id. */
  lemma RemoveThenRestore(favorites: seq<FavoritePlace>, id: string)
    requires Find(favorites, FavId, id).Some?
    ensures var p := Find(favorites, FavId, id).value;
            var restored := [p] + Without(favorites, FavId, id);
            restored[0] == p && Any(restored, FavId, id) &&
            (UniqueKeys(favorites, FavId) ==>
               multiset(restored) == multiset(favorites) && UniqueKeys(restored, FavId))
  {
    var p := Find(favorites, FavId, id).value;
    var rest := Without(favorites, FavId, id);
    var restored := [p] + rest;
    assert FavId(restored[0]) == id;
    if UniqueKeys(favorites, FavId) {
      var k := FirstIndex(favorites, FavId, id);
      RestoreIsPermutation(favorites, k);
      WithoutKeepsUniqueKeys(favorites, FavId, id);
      HeadThenRestUnique(p, rest);
    }
  }

  /** Putting the only entry with its id back in front of the others permutes the list. */
  lemma RestoreIsPermutation(favorites: seq<FavoritePlace>, k: nat)
    requires UniqueKeys(favorites, FavId) && k < |favorites|
    ensures multiset([favorites[k]] + Without(favorites, FavId, favorites[k].id)) == multiset(favorites)
  {
    WithoutUniqueSplit(favorites, FavId, k);
    assert favorites == favorites[..k] + [favorites[k]] + favorites[k + 1..];
  }

  /** An entry in front of a list with unique ids, none of which is its own, keeps ids unique. */
  lemma HeadThenRestUnique(p: FavoritePlace, rest: seq<FavoritePlace>)
    requires UniqueKeys(rest, FavId) && !Any(rest, FavId, p.id)
    ensures UniqueKeys([p] + rest, FavId)
  {
    var r := [p] + rest;
    forall i, j | 0 <= i < j < |r| ensures FavId(r[i]) != FavId(r[j]) {
      assert r[j] == rest[j - 1];
      if i > 0 {
        assert r[i] == rest[i - 1];
      }
    }
  }

  /** The store (`useFavoritesStore`): every action replaces `favorites` through `set`. */
  class FavoritesStore {
    var favorites: seq<FavoritePlace>

    constructor()
      ensures favorites == []
    {
      favorites := [];
    }

    /** `addFavorite(place)`: append at the end, whatever the list holds. */
    method AddFavorite(place: FavoritePlace)
      modifies this
      ensures favorites == old(favorites) + [place]
      ensures |favorites| == |old(favorites)| + 1 && favorites[|favorites| - 1] == place
    {
      favorites := favorites + [place];
    }

    /** `removeFavorite(id)`: returns the first entry with `id` and drops every entry with it;
        returns null and leaves the list alone when there is none. */
    method RemoveFavorite(id: string) returns (removed: Option<FavoritePlace>)
      modifies this
      ensures removed == Find(old(favorites), FavId, id)
      ensures removed.None? ==> favorites == old(favorites)
      ensures removed.Some? ==> favorites == Without(old(favorites), FavId, id) && !IsFavorite(id)
      ensures IsSubsequence(favorites, old(favorites))
    {
      removed := Find(favorites, FavId, id);
      if removed.None? {
        SubsequenceOfSelf(favorites);
        return;
      }
      favorites := Without(favorites, FavId, id);
    }

    /** `restoreFavorite(place)`: put `place` back at the head. */
    method RestoreFavorite(place: FavoritePlace)
      modifies this
      ensures favorites == [place] + old(favorites)
    {
      favorites := [place] + favorites;
    }

    /** `toggleFavorite(place)`. */
    method ToggleFavorite(place: FavoritePlace)
      modifies this
      ensures favorites == Toggled(old(favorites), place)
    {
      var present := Any(favorites, FavId, place.id);
      favorites := if present then Without(favorites, FavId, place.id) else favorites + [place];
    }

    /** `isFavorite(id)`: some entry has that id. */
    function IsFavorite(id: string): (b: bool)
      reads this
      ensures b <==> exists i :: 0 <= i < |favorites| && favorites[i].id == id
    {
      Any(favorites, FavId, id)
    }
  }
}
