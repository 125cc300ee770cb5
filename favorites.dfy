/** The favorites logic the Home, Artists and Favorites pages share: the membership
    test, removal by id, and the "one favorite per artist" invariant the guarded add keeps. */
module Favorites {
  import opened Records
  import opened Sequences

  const LoginToFavorite := "Please login to add favorites"
  const AlreadyInFavorites := "Artist is already in your favorites!"
  const AddFavoriteFailed := "Failed to add to favorites"
  const RemoveFavoriteFailed := "Failed to remove favorite"

  /** How an add-to-favorites action ended: stopped by one of the two guards, the post
      failed, or the favorite was stored. */
  datatype AddOutcome = NeedsLogin | AlreadyFavorited | AddFailed | Added(saved: Favorite)

  /** The error message of an add that did not store anything. */
  function AddError(outcome: AddOutcome): string
  {
    match outcome
    case NeedsLogin => LoginToFavorite
    case AlreadyFavorited => AlreadyInFavorites
    case AddFailed => AddFavoriteFailed
    case Added(_) => ""
  }

  /** The success message after adding an artist. */
  function AddedMessage(artist: Artist): string
  {
    artist.name + " added to favorites!"
  }

  /** The record both pages post: the signed-in user's id (absent when the profile
      has none) and the artist's id, name and image. */
  function FavoriteDraft(user: Profile, artist: Artist): (r: Favorite)
    ensures r.userId == user.id && r.artistId == artist.id
    ensures r.artistName == artist.name && r.artistImage == artist.image
  {
    Favorite(0, user.id, artist.id, artist.name, artist.image)
  }

  /** `favorites.some(fav => fav.artistId === artistId)`. */
  function IsFavorited(favorites: seq<Favorite>, artistId: Id): (r: bool)
    ensures r <==> exists i :: 0 <= i < |favorites| && favorites[i].artistId == artistId
  {
    if favorites == [] then false
    else
      assert forall i :: 0 < i < |favorites| ==> favorites[i] == favorites[1..][i - 1];
      favorites[0].artistId == artistId || IsFavorited(favorites[1..], artistId)
  }

  /** No two favorites in the list name the same artist. */
  ghost predicate OnePerArtist(favorites: seq<Favorite>)
  {
    forall i, j :: 0 <= i < j < |favorites| ==> favorites[i].artistId != favorites[j].artistId
  }

  /** No two stored favorites carry the same id. */
  ghost predicate DistinctFavoriteIds(favorites: seq<Favorite>)
  {
    forall i, j :: 0 <= i < j < |favorites| ==> favorites[i].id != favorites[j].id
  }

  /** `favorites.filter(fav => fav.id !== favoriteId)`. */
  function RemoveById(favorites: seq<Favorite>, favoriteId: Id): (r: seq<Favorite>)
    ensures |r| <= |favorites|
    ensures forall i :: 0 <= i < |r| ==> r[i].id != favoriteId
  {
    Filter(favorites, (f: Favorite) => f.id != favoriteId)
  }

  /** Removal keeps every favorite whose id differs, as often as it occurred, in
      the original order, and drops the others. */
  lemma RemoveByIdKeepsOthers(favorites: seq<Favorite>, favoriteId: Id) returns (pos: seq<nat>)
    ensures forall f :: multiset(RemoveById(favorites, favoriteId))[f] ==
                          if f.id != favoriteId then multiset(favorites)[f] else 0
    ensures var r := RemoveById(favorites, favoriteId);
            && |pos| == |r|
            && (forall i :: 0 <= i < |r| ==> pos[i] < |favorites| && r[i] == favorites[pos[i]])
            && (forall i, j :: 0 <= i < j < |r| ==> pos[i] < pos[j])
  {
    FilterContents(favorites, (f: Favorite) => f.id != favoriteId);
    pos := FilterPositions(favorites, (f: Favorite) => f.id != favoriteId);
  }

  /** Removing an id that no favorite carries leaves the list as it was. */
  lemma RemoveAbsentIsNoOp(favorites: seq<Favorite>, favoriteId: Id)
    requires forall i :: 0 <= i < |favorites| ==> favorites[i].id != favoriteId
    ensures RemoveById(favorites, favoriteId) == favorites
  {
    FilterKeepsAll(favorites, (f: Favorite) => f.id != favoriteId);
  }

  /** Removing the same id twice is the same as removing it once. */
  lemma RemoveTwice(favorites: seq<Favorite>, favoriteId: Id)
    ensures RemoveById(RemoveById(favorites, favoriteId), favoriteId) == RemoveById(favorites, favoriteId)
  {
    RemoveAbsentIsNoOp(RemoveById(favorites, favoriteId), favoriteId);
  }

  /** When ids are distinct, removing the id of the record at `k` drops exactly that record. */
  lemma RemoveUniqueId(favorites: seq<Favorite>, k: nat)
    requires DistinctFavoriteIds(favorites) && k < |favorites|
    ensures RemoveById(favorites, favorites[k].id) == favorites[..k] + favorites[k + 1..]
  {
    var id := favorites[k].id;
    var keep := (f: Favorite) => f.id != id;
    var a, b := favorites[..k], favorites[k + 1..];
    assert favorites == a + ([favorites[k]] + b);
    FilterAppend(a, [favorites[k]] + b, keep);
    FilterAppend([favorites[k]], b, keep);
    assert Filter([favorites[k]], keep) == [] by {
      assert [favorites[k]][1..] == [];
    }
    forall i | 0 <= i < |a| ensures keep(a[i]) {
      assert a[i] == favorites[i];
    }
    FilterKeepsAll(a, keep);
    forall i | 0 <= i < |b| ensures keep(b[i]) {
      assert b[i] == favorites[k + 1 + i];
    }
    FilterKeepsAll(b, keep);
  }

  /** Removal keeps the ids distinct. */
  lemma RemoveKeepsDistinctIds(favorites: seq<Favorite>, favoriteId: Id)
    requires DistinctFavoriteIds(favorites)
    ensures DistinctFavoriteIds(RemoveById(favorites, favoriteId))
  {
    var pos := FilterPositions(favorites, (f: Favorite) => f.id != favoriteId);
    var r := RemoveById(favorites, favoriteId);
    forall i, j | 0 <= i < j < |r|
      ensures r[i].id != r[j].id
    {
      assert r[i] == favorites[pos[i]] && r[j] == favorites[pos[j]];
    }
  }

  /** Removal keeps the list free of duplicate artists. */
  lemma RemoveKeepsOnePerArtist(favorites: seq<Favorite>, favoriteId: Id)
    requires OnePerArtist(favorites)
    ensures OnePerArtist(RemoveById(favorites, favoriteId))
  {
    var pos := FilterPositions(favorites, (f: Favorite) => f.id != favoriteId);
    var r := RemoveById(favorites, favoriteId);
    forall i, j | 0 <= i < j < |r|
      ensures r[i].artistId != r[j].artistId
    {
      assert r[i] == favorites[pos[i]] && r[j] == favorites[pos[j]];
    }
  }

  /** Appending a favorite for an artist not yet in the list keeps one favorite per artist. */
  lemma AppendKeepsOnePerArtist(favorites: seq<Favorite>, added: Favorite)
    requires OnePerArtist(favorites)
    requires !IsFavorited(favorites, added.artistId)
    ensures OnePerArtist(favorites + [added])
  {
  }
}
