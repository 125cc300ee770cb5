/** The artist catalogue page: every artist, the signed-in user's favorites, and an
    add-to-favorites action that reloads the list from the store after posting. */
module ArtistsView {
  import opened Records
  import opened Favorites
  import opened DataStore

  const ArtistsLoadFailed := "Failed to load artists"

  class ArtistsPage {
    const store: Store
    var artists: seq<Artist>
    var favorites: seq<Favorite>
    var error: string
    var successMsg: string

    ghost predicate Valid()
      reads this, store
    {
      store.Valid()
    }

    constructor (store: Store)
      requires store.Valid()
      ensures Valid()
      ensures this.store == store && artists == [] && favorites == [] && error == "" && successMsg == ""
    {
      this.store := store;
      artists, favorites := [], [];
      error, successMsg := "", "";
    }

    /** `fetchArtists`: the whole catalogue, or an error. */
    method FetchArtists() returns (loaded: bool)
      modifies this`artists, this`error
      ensures loaded ==> artists == store.artists && error == old(error)
      ensures !loaded ==> artists == old(artists) && error == ArtistsLoadFailed
    {
      var fetched := store.FetchArtists();
      loaded := fetched.Some?;
      if loaded {
        artists := fetched.value;
      } else {
        error := ArtistsLoadFailed;
      }
    }

    /** `fetchFavorites`: the user's favorites; a failure is only logged, so the list
        stays as it was and no message is shown. */
    method FetchFavorites(user: Profile) returns (loaded: bool)
      modifies this`favorites
      ensures loaded ==> favorites == FavoritesOf(store.favorites, user.id)
      ensures !loaded ==> favorites == old(favorites)
    {
      var fetched := store.FetchFavoritesOf(user.id);
      loaded := fetched.Some?;
      if loaded {
        favorites := fetched.value;
      }
    }

    /** `handleAddTOFavorites`: the login guard, then the duplicate guard over the
        loaded list, then the post; on success the list is reloaded rather than
        appended to, and that reload may itself fail. */
    method AddToFavorites(user: Option<Profile>, artist: Artist) returns (outcome: AddOutcome)
      requires Valid()
      modifies this`favorites, this`error, this`successMsg, store`favorites, store`nextId
      ensures Valid()
      ensures outcome == NeedsLogin <==> user.None?
      ensures outcome == AlreadyFavorited <==> user.Some? && IsFavorited(old(favorites), artist.id)
      ensures !outcome.Added? ==>
                && error == AddError(outcome) && successMsg == old(successMsg)
                && favorites == old(favorites) && store.favorites == old(store.favorites)
      ensures outcome.Added? ==>
                && user.Some?
                && outcome.saved == FavoriteDraft(user.value, artist).(id := old(store.nextId))
                && store.favorites == old(store.favorites) + [outcome.saved]
                && successMsg == AddedMessage(artist) && error == old(error)
                && (favorites == FavoritesOf(store.favorites, user.value.id) || favorites == old(favorites))
    {
      if user.None? {
        error := LoginToFavorite;
        return NeedsLogin;
      }
      if IsFavorited(favorites, artist.id) {
        error := AlreadyInFavorites;
        return AlreadyFavorited;
      }
      var saved := store.PostFavorite(FavoriteDraft(user.value, artist));
      if saved.None? {
        error := AddFavoriteFailed;
        return AddFailed;
      }
      successMsg := AddedMessage(artist);
      var refreshed := FetchFavorites(user.value);
      outcome := Added(saved.value);
    }
  }

  /** After a successful add and reload, the artist shows as favorited, provided the
      profile carries an id; a profile without one (as login stores it) never sees
      its own favorites. */
  lemma ReloadShowsAddition(stored: seq<Favorite>, user: Profile, artist: Artist, id: Id)
    ensures var saved := FavoriteDraft(user, artist).(id := id);
            IsFavorited(FavoritesOf(stored + [saved], user.id), artist.id) <==> user.id.Some?
  {
    var saved := FavoriteDraft(user, artist).(id := id);
    var r := FavoritesOf(stored + [saved], user.id);
    if user.id.Some? {
      FavoritesOfExactly(stored + [saved], user.id);
      assert multiset(r)[saved] > 0;
      assert saved in r;
    }
  }
}
