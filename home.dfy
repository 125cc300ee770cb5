/** The dashboard: featured artists, the user's favorites with add and remove, the
    next upcoming concerts and the most recent purchases. */
module Home {
  import opened Records
  import opened Sequences
  import opened Favorites
  import opened DataStore
  import opened History

  const FeaturedCount := 6
  const UpcomingCount := 4
  const RecentCount := 3

  const DashboardLoadFailed := "Failed to load some data"
  const RemovedMessage := "Removed from favorites!"

  /** `artists.slice(0, 6)`: the first six artists, or all of them when fewer. */
  function FeaturedArtists(artists: seq<Artist>): (r: seq<Artist>)
    ensures |r| == if |artists| < FeaturedCount then |artists| else FeaturedCount
    ensures forall i :: 0 <= i < |r| ==> r[i] == artists[i]
  {
    Take(artists, FeaturedCount)
  }

  /** A concert still to come with tickets left. `today` is the current instant
      (`new Date()`), not the start of the day: a concert dated at today's midnight
      is already past. */
  predicate IsUpcoming(c: Concert, today: int)
  {
    c.date >= today && c.availableTickets > 0
  }

  /** The concerts that are upcoming on `today`, in fetched order. */
  function UpcomingOnly(concerts: seq<Concert>, today: int): (r: seq<Concert>)
    ensures forall i :: 0 <= i < |r| ==> IsUpcoming(r[i], today)
  {
    Filter(concerts, (c: Concert) => IsUpcoming(c, today))
  }

  lemma UpcomingOnlyExactly(concerts: seq<Concert>, today: int)
    ensures forall c :: multiset(UpcomingOnly(concerts, today))[c] ==
                          if IsUpcoming(c, today) then multiset(concerts)[c] else 0
  {
    FilterContents(concerts, (c: Concert) => IsUpcoming(c, today));
  }

  function ConcertDate(c: Concert): int { c.date }

  /** The dashboard's upcoming concerts: the qualifying ones, soonest first, at most four. */
  function UpcomingConcerts(concerts: seq<Concert>, today: int): (r: seq<Concert>)
    ensures var eligible := |UpcomingOnly(concerts, today)|;
            |r| == if eligible < UpcomingCount then eligible else UpcomingCount
  {
    Take(SortBy(UpcomingOnly(concerts, today), ConcertDate), UpcomingCount)
  }

  /** Four concerts are shown, or every qualifying one when there are fewer; each is
      upcoming, they come soonest first, each comes from the fetched list, and a
      qualifying concert left out is no sooner than any shown one. */
  lemma UpcomingConcertsShown(concerts: seq<Concert>, today: int)
    ensures var r := UpcomingConcerts(concerts, today);
            && |r| == (if |UpcomingOnly(concerts, today)| < UpcomingCount
                       then |UpcomingOnly(concerts, today)| else UpcomingCount)
            && (forall i :: 0 <= i < |r| ==> IsUpcoming(r[i], today))
            && (forall i, j :: 0 <= i < j < |r| ==> r[i].date <= r[j].date)
            && multiset(r) <= multiset(concerts)
            && (forall c :: c in concerts && IsUpcoming(c, today) && c !in r ==>
                  forall i :: 0 <= i < |r| ==> r[i].date <= c.date)
  {
    TopBy(UpcomingOnly(concerts, today), ConcertDate, UpcomingCount);
    UpcomingOnlyUpcoming(concerts, today);
    UpcomingFromFetched(concerts, today);
    UpcomingSoonest(concerts, today);
  }

  lemma UpcomingOnlyUpcoming(concerts: seq<Concert>, today: int)
    ensures var r := UpcomingConcerts(concerts, today);
            forall i :: 0 <= i < |r| ==> IsUpcoming(r[i], today)
  {
    var eligible := UpcomingOnly(concerts, today);
    var r := UpcomingConcerts(concerts, today);
    TopBy(eligible, ConcertDate, UpcomingCount);
    forall i | 0 <= i < |r| ensures IsUpcoming(r[i], today) {
      assert multiset(eligible)[r[i]] > 0;
    }
  }

  lemma UpcomingFromFetched(concerts: seq<Concert>, today: int)
    ensures multiset(UpcomingConcerts(concerts, today)) <= multiset(concerts)
  {
    var eligible := UpcomingOnly(concerts, today);
    var r := UpcomingConcerts(concerts, today);
    TopBy(eligible, ConcertDate, UpcomingCount);
    UpcomingOnlyExactly(concerts, today);
    forall c ensures multiset(r)[c] <= multiset(concerts)[c] {
      assert multiset(r)[c] <= multiset(eligible)[c];
    }
  }

  lemma UpcomingSoonest(concerts: seq<Concert>, today: int)
    ensures var r := UpcomingConcerts(concerts, today);
            forall c :: c in concerts && IsUpcoming(c, today) && c !in r ==>
              forall i :: 0 <= i < |r| ==> r[i].date <= c.date
  {
    var eligible := UpcomingOnly(concerts, today);
    var r := UpcomingConcerts(concerts, today);
    forall c | c in concerts && IsUpcoming(c, today) && c !in r
      ensures forall i :: 0 <= i < |r| ==> r[i].date <= c.date
    {
      UpcomingKept(concerts, today, c);
      TopByLeftOut(eligible, ConcertDate, UpcomingCount, c);
    }
  }

  /** A fetched concert that is upcoming passes the filter. */
  lemma UpcomingKept(concerts: seq<Concert>, today: int, c: Concert)
    requires c in concerts && IsUpcoming(c, today)
    ensures c in UpcomingOnly(concerts, today)
  {
    UpcomingOnlyExactly(concerts, today);
    assert multiset(concerts)[c] > 0;
    assert multiset(UpcomingOnly(concerts, today))[c] > 0;
  }

  /** The dashboard's past purchases: newest first, at most three. */
  function RecentPurchases(purchases: seq<PurchaseRecord>): (r: seq<PurchaseRecord>)
    ensures |r| == if |purchases| < RecentCount then |purchases| else RecentCount
  {
    Take(SortBy(purchases, NewestFirst), RecentCount)
  }

  /** Three purchases are shown, or all of them when there are fewer; they come newest
      first, each from the fetched list, and a purchase left out is no more recent
      than any shown one. */
  lemma RecentPurchasesShown(purchases: seq<PurchaseRecord>)
    ensures var r := RecentPurchases(purchases);
            && |r| == (if |purchases| < RecentCount then |purchases| else RecentCount)
            && (forall i, j :: 0 <= i < j < |r| ==> r[i].purchaseDate >= r[j].purchaseDate)
            && multiset(r) <= multiset(purchases)
            && (forall p :: p in purchases && p !in r ==>
                  forall i :: 0 <= i < |r| ==> r[i].purchaseDate >= p.purchaseDate)
  {
    var r := RecentPurchases(purchases);
    TopBy(purchases, NewestFirst, RecentCount);
    forall i, j | 0 <= i < j < |r| ensures r[i].purchaseDate >= r[j].purchaseDate {
      assert NewestFirst(r[i]) <= NewestFirst(r[j]);
    }
  }

  class HomePage {
    const store: Store
    var user: Option<Profile>
    var artists: seq<Artist>
    var favorites: seq<Favorite>
    var upcoming: seq<Concert>
    var pastPurchases: seq<PurchaseRecord>
    var successMsg: string
    var errorMsg: string

    ghost predicate Valid()
      reads this, store
    {
      store.Valid()
    }

    constructor (store: Store)
      requires store.Valid()
      ensures Valid()
      ensures this.store == store && user.None?
      ensures artists == [] && favorites == [] && upcoming == [] && pastPurchases == []
      ensures successMsg == "" && errorMsg == ""
    {
      this.store := store;
      user := None;
      artists, favorites, upcoming, pastPurchases := [], [], [], [];
      successMsg, errorMsg := "", "";
    }

    /** The mount effect: with a profile in the session, remember it and load the
        dashboard for its id. */
    method Mount(sessionUser: Option<Profile>, today: int) returns (loaded: bool)
      modifies this`user, this`artists, this`favorites, this`upcoming, this`pastPurchases, this`errorMsg
      ensures user == if sessionUser.Some? then sessionUser else old(user)
      ensures sessionUser.None? ==> !loaded && unchanged(this)
      ensures sessionUser.Some? && loaded ==> Loaded(sessionUser.value.id, today)
      ensures sessionUser.Some? && !loaded ==> errorMsg == DashboardLoadFailed
    {
      loaded := false;
      if sessionUser.Some? {
        user := sessionUser;
        loaded := FetchAllData(sessionUser.value.id, today);
      }
    }

    /** The dashboard state after every request of `fetchAllData` succeeded. */
    ghost predicate Loaded(userId: Option<Id>, today: int)
      reads this, store
    {
      && artists == FeaturedArtists(store.artists)
      && favorites == FavoritesOf(store.favorites, userId)
      && upcoming == UpcomingConcerts(store.concerts, today)
      && pastPurchases == RecentPurchases(PurchasesOf(store.purchaseHistory, userId))
    }

    /** `fetchAllData`: the four lists are set together only when all four requests
        succeed; any failure leaves them as they were and reports one message. */
    method FetchAllData(userId: Option<Id>, today: int) returns (loaded: bool)
      modifies this`artists, this`favorites, this`upcoming, this`pastPurchases, this`errorMsg
      ensures loaded ==> Loaded(userId, today) && errorMsg == old(errorMsg)
      ensures !loaded ==> && errorMsg == DashboardLoadFailed
                          && artists == old(artists) && favorites == old(favorites)
                          && upcoming == old(upcoming) && pastPurchases == old(pastPurchases)
    {
      var artistsRes := store.FetchArtists();
      var favoritesRes := store.FetchFavoritesOf(userId);
      var concertsRes := store.FetchConcerts();
      var purchasesRes := store.FetchPurchasesOf(userId);
      loaded := artistsRes.Some? && favoritesRes.Some? && concertsRes.Some? && purchasesRes.Some?;
      if !loaded {
        errorMsg := DashboardLoadFailed;
        return;
      }
      Show(artistsRes.value, favoritesRes.value, concertsRes.value, purchasesRes.value, today);
    }

    /** The state updates after the four responses arrived. */
    method Show(allArtists: seq<Artist>, userFavorites: seq<Favorite>, concerts: seq<Concert>,
                userPurchases: seq<PurchaseRecord>, today: int)
      modifies this`artists, this`favorites, this`upcoming, this`pastPurchases
      ensures artists == FeaturedArtists(allArtists) && favorites == userFavorites
      ensures upcoming == UpcomingConcerts(concerts, today) && pastPurchases == RecentPurchases(userPurchases)
    {
      artists, favorites := FeaturedArtists(allArtists), userFavorites;
      upcoming, pastPurchases := UpcomingConcerts(concerts, today), RecentPurchases(userPurchases);
    }

    /** `handleAddToFavorites`: the login guard, then the duplicate guard, then the post;
        the stored record is appended to the list. */
    method AddToFavorites(artist: Artist) returns (outcome: AddOutcome)
      requires Valid()
      modifies this`favorites, this`successMsg, this`errorMsg, store`favorites, store`nextId
      ensures Valid()
      ensures outcome == NeedsLogin <==> user.None?
      ensures outcome == AlreadyFavorited <==> user.Some? && IsFavorited(old(favorites), artist.id)
      ensures !outcome.Added? ==>
                && errorMsg == AddError(outcome) && successMsg == old(successMsg)
                && favorites == old(favorites) && store.favorites == old(store.favorites)
      ensures outcome.Added? ==>
                && user.Some?
                && outcome.saved == FavoriteDraft(user.value, artist).(id := old(store.nextId))
                && favorites == old(favorites) + [outcome.saved]
                && store.favorites == old(store.favorites) + [outcome.saved]
                && successMsg == AddedMessage(artist) && errorMsg == old(errorMsg)
      ensures OnePerArtist(old(favorites)) ==> OnePerArtist(favorites)
    {
      if user.None? {
        errorMsg := LoginToFavorite;
        return NeedsLogin;
      }
      if IsFavorited(favorites, artist.id) {
        errorMsg := AlreadyInFavorites;
        return AlreadyFavorited;
      }
      var saved := store.PostFavorite(FavoriteDraft(user.value, artist));
      if saved.None? {
        errorMsg := AddFavoriteFailed;
        return AddFailed;
      }
      if OnePerArtist(favorites) {
        AppendKeepsOnePerArtist(favorites, saved.value);
      }
      favorites := favorites + [saved.value];
      successMsg := AddedMessage(artist);
      outcome := Added(saved.value);
    }

    /** `handleRemoveFavorite`: after a successful delete the list drops that id. */
    method RemoveFavorite(favoriteId: Id) returns (removed: bool)
      requires Valid()
      modifies this`favorites, this`successMsg, this`errorMsg, store`favorites
      ensures Valid()
      ensures removed ==> && favorites == RemoveById(old(favorites), favoriteId)
                          && store.favorites == RemoveById(old(store.favorites), favoriteId)
                          && successMsg == RemovedMessage && errorMsg == old(errorMsg)
      ensures !removed ==> && favorites == old(favorites) && store.favorites == old(store.favorites)
                           && errorMsg == RemoveFavoriteFailed && successMsg == old(successMsg)
      ensures OnePerArtist(old(favorites)) ==> OnePerArtist(favorites)
    {
      removed := store.DeleteFavorite(favoriteId);
      if !removed {
        errorMsg := RemoveFavoriteFailed;
        return;
      }
      if OnePerArtist(favorites) {
        RemoveKeepsOnePerArtist(favorites, favoriteId);
      }
      favorites := RemoveById(favorites, favoriteId);
      successMsg := RemovedMessage;
    }
  }
}
