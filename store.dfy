/** The collection API the pages call (users, artists, concerts, favorites and
    purchaseHistory), as an in-memory store. Every request may fail: a read then
    returns `None`, a write changes nothing. Requests naming an id the collection
    does not hold (a missing concert, an unknown favorite) fail as well. */
module DataStore {
  import opened Records
  import opened Sequences
  import opened Favorites

  /** `GET /concerts/<id>`: the first concert carrying the id. */
  function FindConcert(concerts: seq<Concert>, id: Id): (r: Option<Concert>)
    ensures r.None? <==> forall i :: 0 <= i < |concerts| ==> concerts[i].id != id
    ensures r.Some? ==> exists i :: 0 <= i < |concerts| && concerts[i] == r.value && r.value.id == id
                                    && forall j :: 0 <= j < i ==> concerts[j].id != id
  {
    var i := FirstWhere(concerts, (c: Concert) => c.id == id);
    if i < |concerts| then Some(concerts[i]) else None
  }

  ghost predicate DistinctIds(concerts: seq<Concert>)
  {
    forall i, j :: 0 <= i < j < |concerts| ==> concerts[i].id != concerts[j].id
  }

  /** `PATCH /concerts/<id>` with `{availableTickets: value}`: only that field of the
      concerts carrying the id changes. */
  function SetAvailable(concerts: seq<Concert>, id: Id, value: int): (r: seq<Concert>)
    ensures |r| == |concerts|
    ensures forall i :: 0 <= i < |r| ==> r[i].id == concerts[i].id
    ensures forall i :: 0 <= i < |r| && concerts[i].id != id ==> r[i] == concerts[i]
    ensures forall i :: 0 <= i < |r| && concerts[i].id == id ==> r[i] == concerts[i].(availableTickets := value)
  {
    seq(|concerts|, i requires 0 <= i < |concerts| =>
      if concerts[i].id == id then concerts[i].(availableTickets := value) else concerts[i])
  }

  /** After the patch, looking the concert up yields the old record with the new
      count, and every other lookup is as before. */
  lemma PatchedLookup(concerts: seq<Concert>, id: Id, value: int, other: Id)
    ensures FindConcert(SetAvailable(concerts, id, value), id) ==
              if FindConcert(concerts, id).None? then None
              else Some(FindConcert(concerts, id).value.(availableTickets := value))
    ensures other != id ==> FindConcert(SetAvailable(concerts, id, value), other) == FindConcert(concerts, other)
  {
    LookupAfterPatch(concerts, id, value, id);
    LookupAfterPatch(concerts, id, value, other);
  }

  /** The patch keeps every id in place, so a lookup finds the same position. */
  lemma LookupAfterPatch(concerts: seq<Concert>, id: Id, value: int, x: Id)
    ensures var before, after := FindConcert(concerts, x), FindConcert(SetAvailable(concerts, id, value), x);
            && (after.None? <==> before.None?)
            && (before.Some? ==> after.value == if x == id then before.value.(availableTickets := value) else before.value)
  {
    var patched := SetAvailable(concerts, id, value);
    var before, after := FindConcert(concerts, x), FindConcert(patched, x);
    if before.Some? {
      var i :| 0 <= i < |concerts| && concerts[i] == before.value && before.value.id == x
               && forall j :: 0 <= j < i ==> concerts[j].id != x;
      assert patched[i].id == x;
      var k :| 0 <= k < |patched| && patched[k] == after.value && after.value.id == x
               && forall j :: 0 <= j < k ==> patched[j].id != x;
      assert patched[k].id == concerts[k].id;
      assert k == i;
    }
  }

  /** `GET /favorites?userId=<userId>`. A profile without an id sends the text
      "undefined", which matches no record. */
  function FavoritesOf(favorites: seq<Favorite>, userId: Option<Id>): (r: seq<Favorite>)
    ensures forall i :: 0 <= i < |r| ==> userId.Some? && r[i].userId == userId
    ensures userId.None? ==> r == []
  {
    var owned := (f: Favorite) => userId.Some? && f.userId == userId;
    var r := Filter(favorites, owned);
    assert |r| > 0 ==> owned(r[0]);
    r
  }

  /** The query returns every favorite of the user, as often as it is stored, and no other. */
  lemma FavoritesOfExactly(favorites: seq<Favorite>, userId: Option<Id>)
    ensures forall f :: multiset(FavoritesOf(favorites, userId))[f] ==
                          if userId.Some? && f.userId == userId then multiset(favorites)[f] else 0
  {
    FilterContents(favorites, (f: Favorite) => userId.Some? && f.userId == userId);
  }

  /** `GET /purchaseHistory?userId=<userId>`, with the same matching as `FavoritesOf`. */
  function PurchasesOf(purchases: seq<PurchaseRecord>, userId: Option<Id>): (r: seq<PurchaseRecord>)
    ensures forall i :: 0 <= i < |r| ==> userId.Some? && r[i].userId == userId
    ensures userId.None? ==> r == []
  {
    var owned := (p: PurchaseRecord) => userId.Some? && p.userId == userId;
    var r := Filter(purchases, owned);
    assert |r| > 0 ==> owned(r[0]);
    r
  }

  /** The query returns every purchase of the user, as often as it is stored, and no other. */
  lemma PurchasesOfExactly(purchases: seq<PurchaseRecord>, userId: Option<Id>)
    ensures forall p :: multiset(PurchasesOf(purchases, userId))[p] ==
                          if userId.Some? && p.userId == userId then multiset(purchases)[p] else 0
  {
    FilterContents(purchases, (p: PurchaseRecord) => userId.Some? && p.userId == userId);
  }

  class Store {
    var users: seq<User>
    var artists: seq<Artist>
    var concerts: seq<Concert>
    var favorites: seq<Favorite>
    var purchaseHistory: seq<PurchaseRecord>
    var nextId: Id

    /** Concert and favorite ids are keys; every stored id was generated below `nextId`. */
    ghost predicate Valid()
      reads this
    {
      && DistinctIds(concerts)
      && DistinctFavoriteIds(favorites)
      && (forall i :: 0 <= i < |users| ==> users[i].id < nextId)
      && (forall i :: 0 <= i < |favorites| ==> favorites[i].id < nextId)
      && (forall i :: 0 <= i < |purchaseHistory| ==> purchaseHistory[i].id < nextId)
    }

    constructor (users: seq<User>, artists: seq<Artist>, concerts: seq<Concert>, nextId: Id)
      requires DistinctIds(concerts)
      requires forall i :: 0 <= i < |users| ==> users[i].id < nextId
      ensures Valid()
      ensures this.users == users && this.artists == artists && this.concerts == concerts
      ensures favorites == [] && purchaseHistory == [] && this.nextId == nextId
    {
      this.users := users;
      this.artists := artists;
      this.concerts := concerts;
      favorites := [];
      purchaseHistory := [];
      this.nextId := nextId;
    }

    method FetchUsers() returns (r: Option<seq<User>>)
      ensures r.Some? ==> r.value == users
    {
      var ok: bool :| true;
      r := if ok then Some(users) else None;
    }

    method FetchArtists() returns (r: Option<seq<Artist>>)
      ensures r.Some? ==> r.value == artists
    {
      var ok: bool :| true;
      r := if ok then Some(artists) else None;
    }

    method FetchConcerts() returns (r: Option<seq<Concert>>)
      ensures r.Some? ==> r.value == concerts
    {
      var ok: bool :| true;
      r := if ok then Some(concerts) else None;
    }

    /** `GET /concerts/<id>`; an unknown id is a failed request. */
    method FetchConcert(id: Id) returns (r: Option<Concert>)
      ensures r.Some? ==> FindConcert(concerts, id) == r
    {
      var ok: bool :| true;
      r := if ok then FindConcert(concerts, id) else None;
    }

    method FetchFavoritesOf(userId: Option<Id>) returns (r: Option<seq<Favorite>>)
      ensures r.Some? ==> r.value == FavoritesOf(favorites, userId)
    {
      var ok: bool :| true;
      r := if ok then Some(FavoritesOf(favorites, userId)) else None;
    }

    method FetchPurchasesOf(userId: Option<Id>) returns (r: Option<seq<PurchaseRecord>>)
      ensures r.Some? ==> r.value == PurchasesOf(purchaseHistory, userId)
    {
      var ok: bool :| true;
      r := if ok then Some(PurchasesOf(purchaseHistory, userId)) else None;
    }

    /** `POST /purchaseHistory`: stores the record under a fresh id. */
    method PostPurchase(draft: PurchaseRecord) returns (saved: Option<PurchaseRecord>)
      requires Valid()
      modifies this`purchaseHistory, this`nextId
      ensures Valid()
      ensures saved.Some? ==> saved.value == draft.(id := old(nextId))
                              && purchaseHistory == old(purchaseHistory) + [saved.value]
      ensures saved.None? ==> purchaseHistory == old(purchaseHistory)
    {
      var ok: bool :| true;
      if ok {
        saved := Some(draft.(id := nextId));
        purchaseHistory := purchaseHistory + [saved.value];
        nextId := nextId + 1;
      } else {
        saved := None;
      }
    }

    /** `PATCH /concerts/<id>` with a new `availableTickets`. */
    method PatchAvailable(id: Id, value: int) returns (ok: bool)
      requires Valid()
      modifies this`concerts
      ensures Valid()
      ensures ok ==> FindConcert(old(concerts), id).Some? && concerts == SetAvailable(old(concerts), id, value)
      ensures !ok ==> concerts == old(concerts)
    {
      ok :| true;
      if FindConcert(concerts, id).None? {
        ok := false;
      }
      if ok {
        concerts := SetAvailable(concerts, id, value);
      }
    }

    /** `POST /favorites`: stores the favorite under a fresh id (an id the client
        sent, such as the empty one the Home page sends, is replaced). */
    method PostFavorite(draft: Favorite) returns (saved: Option<Favorite>)
      requires Valid()
      modifies this`favorites, this`nextId
      ensures Valid()
      ensures saved.Some? ==> saved.value == draft.(id := old(nextId))
                              && favorites == old(favorites) + [saved.value]
      ensures saved.None? ==> favorites == old(favorites)
    {
      var ok: bool :| true;
      if ok {
        saved := Some(draft.(id := nextId));
        favorites := favorites + [saved.value];
        nextId := nextId + 1;
      } else {
        saved := None;
      }
    }

    /** `DELETE /favorites/<id>`: removes the one record with that id; an unknown id
        is a failed request. */
    method DeleteFavorite(id: Id) returns (ok: bool)
      requires Valid()
      modifies this`favorites
      ensures Valid()
      ensures ok ==> favorites == RemoveById(old(favorites), id)
      ensures ok ==> exists k :: 0 <= k < |old(favorites)| && old(favorites)[k].id == id
                                 && favorites == old(favorites)[..k] + old(favorites)[k + 1..]
      ensures !ok ==> favorites == old(favorites)
    {
      ok :| true;
      if forall i :: 0 <= i < |favorites| ==> favorites[i].id != id {
        ok := false;
      }
      if ok {
        var k :| 0 <= k < |favorites| && favorites[k].id == id;
        var kept := RemoveById(favorites, id);
        RemoveUniqueId(favorites, k);
        RemoveKeepsDistinctIds(favorites, id);
        forall i | 0 <= i < |kept|
          ensures kept[i].id < nextId
        {
          if i < k {
            assert kept[i] == favorites[i];
          } else {
            assert kept[i] == favorites[i + 1];
          }
        }
        favorites := kept;
      }
    }

    /** `POST /users`: stores the registration under a fresh id. */
    method PostUser(draft: User) returns (saved: Option<User>)
      requires Valid()
      modifies this`users, this`nextId
      ensures Valid()
      ensures saved.Some? ==> saved.value == draft.(id := old(nextId)) && users == old(users) + [saved.value]
      ensures saved.None? ==> users == old(users)
    {
      var ok: bool :| true;
      if ok {
        saved := Some(draft.(id := nextId));
        users := users + [saved.value];
        nextId := nextId + 1;
      } else {
        saved := None;
      }
    }
  }
}
