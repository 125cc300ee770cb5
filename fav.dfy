/** The favorites page: the signed-in user's favorites, with a remove action that
    asks for confirmation first. */
module FavoritesView {
  import opened Records
  import opened Favorites
  import opened DataStore

  const FavoritesLoadFailed := "Failed to load favorites"

  class FavPage {
    const store: Store
    var favorites: seq<Favorite>
    var error: string

    ghost predicate Valid()
      reads this, store
    {
      store.Valid()
    }

    constructor (store: Store)
      requires store.Valid()
      ensures Valid()
      ensures this.store == store && favorites == [] && error == ""
    {
      this.store := store;
      favorites := [];
      error := "";
    }

    /** `fetchFavorites`: the list is replaced by the user's favorites, or an error is shown. */
    method FetchFavorites(user: Profile) returns (loaded: bool)
      modifies this`favorites, this`error
      ensures loaded ==> favorites == FavoritesOf(store.favorites, user.id) && error == old(error)
      ensures !loaded ==> favorites == old(favorites) && error == FavoritesLoadFailed
    {
      var fetched := store.FetchFavoritesOf(user.id);
      loaded := fetched.Some?;
      if loaded {
        favorites := fetched.value;
      } else {
        error := FavoritesLoadFailed;
      }
    }

    /** `handleRemoveFavorite`; `confirmed` is the answer to the confirmation dialog.
        Declining sends nothing; a failed delete keeps the list and shows an error. */
    method RemoveFavorite(favoriteId: Id, confirmed: bool) returns (removed: bool)
      requires Valid()
      modifies this`favorites, this`error, store`favorites
      ensures Valid()
      ensures !confirmed ==> !removed && favorites == old(favorites) && error == old(error)
                             && store.favorites == old(store.favorites)
      ensures removed ==> confirmed && favorites == RemoveById(old(favorites), favoriteId)
                          && store.favorites == RemoveById(old(store.favorites), favoriteId)
                          && error == old(error)
      ensures confirmed && !removed ==> favorites == old(favorites) && store.favorites == old(store.favorites)
                                        && error == RemoveFavoriteFailed
      ensures |favorites| <= |old(favorites)|
    {
      removed := false;
      if confirmed {
        removed := store.DeleteFavorite(favoriteId);
        if removed {
          favorites := RemoveById(favorites, favoriteId);
        } else {
          error := RemoveFavoriteFailed;
        }
      }
    }
  }
}
