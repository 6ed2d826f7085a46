/** The favorites screen's one-slot undo (src/screens/tourist/FavoritesScreen.tsx):
    removing a favorite shows a snackbar offering to undo it; the undo puts the entry back at
    the head of the list; after 4000 ms a timer hides the snackbar and forgets the entry.
    The timer is the explicit event `UndoWindowExpired`. */
module FavoritesUndo {
  import opened Base
  import opened Lists
  import opened Favorites

  class FavoritesScreen {
    const store: FavoritesStore
    var lastRemoved: Option<FavoritePlace>
    var snackBarVisible: bool

    /** The snackbar is on screen exactly when there is a removal to undo. */
    predicate Valid()
      reads this
    {
      snackBarVisible <==> lastRemoved.Some?
    }

    constructor(store: FavoritesStore)
      ensures this.store == store && Valid()
      ensures lastRemoved == None && !snackBarVisible
    {
      this.store := store;
      lastRemoved := None;
      snackBarVisible := false;
    }

    /** `handleRemove(id)`: an id that is not a favorite changes nothing; otherwise the
        removed entry takes the single undo slot, overwriting any earlier one, and the
        snackbar shows. */
    method HandleRemove(id: string)
      requires Valid()
      modifies this, store
      ensures Valid()
      ensures var removed := Find(old(store.favorites), FavId, id);
              if removed.None? then
                store.favorites == old(store.favorites) &&
                lastRemoved == old(lastRemoved) && snackBarVisible == old(snackBarVisible)
              else
                store.favorites == Without(old(store.favorites), FavId, id) &&
                lastRemoved == removed && snackBarVisible
    {
      var removed := store.RemoveFavorite(id);
      if removed.None? {
        return;
      }
      lastRemoved := removed;
      snackBarVisible := true;
    }

    /** `handleUndo()`: with nothing to undo it is a no-op; otherwise the entry goes back at
        the head of the favorites, the slot is cleared and the snackbar hides. */
    method HandleUndo()
      requires Valid()
      modifies this, store
      ensures Valid()
      ensures old(lastRemoved).None? ==>
                store.favorites == old(store.favorites) &&
                lastRemoved == old(lastRemoved) && snackBarVisible == old(snackBarVisible)
      ensures old(lastRemoved).Some? ==>
                store.favorites == [old(lastRemoved).value] + old(store.favorites) &&
                lastRemoved.None? && !snackBarVisible
    {
      if lastRemoved.None? {
        return;
      }
      store.RestoreFavorite(lastRemoved.value);
      lastRemoved := None;
      snackBarVisible := false;
    }

    /** The 4000 ms timer firing: hide the snackbar and forget the entry; the favorites are
        not touched (the store is outside this method's frame). */
    method UndoWindowExpired()
      modifies this
      ensures Valid()
      ensures lastRemoved.None? && !snackBarVisible
    {
      snackBarVisible := false;
      lastRemoved := None;
    }
  }

  /** The list [A, B]: removing B hides it, undoing puts it back at the head, giving [B, A]. */
  method RemoveThenUndoScenario(a: FavoritePlace, b: FavoritePlace)
    requires a.id != b.id
  {
    var store := new FavoritesStore();
    store.AddFavorite(a);
    store.AddFavorite(b);
    var screen := new FavoritesScreen(store);
    screen.HandleRemove(b.id);
    assert [a] + [b] == [a, b];
    assert Without([a] + [b], FavId, b.id) == [a] by {
      WithoutAppend([a], [b], FavId, b.id);
      WithoutSingleton(a, FavId, b.id);
      WithoutSingleton(b, FavId, b.id);
    }
    assert !store.IsFavorite(b.id);
    screen.HandleUndo();
    assert store.favorites == [b, a];
    assert store.IsFavorite(b.id);
  }

  /** Two removals before an undo: only the second one comes back. */
  method SingleUndoSlotScenario(a: FavoritePlace, b: FavoritePlace)
    requires a.id != b.id
  {
    var store := new FavoritesStore();
    store.AddFavorite(a);
    store.AddFavorite(b);
    var screen := new FavoritesScreen(store);
    screen.HandleRemove(a.id);
    screen.HandleRemove(b.id);
    assert screen.lastRemoved == Some(b);
    screen.HandleUndo();
    assert store.favorites[0] == b && !store.IsFavorite(a.id);
  }

  /** Once the undo window expires, undo does nothing. */
  method ExpiryThenUndoScenario(a: FavoritePlace)
  {
    var store := new FavoritesStore();
    store.AddFavorite(a);
    var screen := new FavoritesScreen(store);
    screen.HandleRemove(a.id);
    screen.UndoWindowExpired();
    var before := store.favorites;
    screen.HandleUndo();
    assert store.favorites == before && !store.IsFavorite(a.id);
  }
}
