/** The purchase page: a ticket count kept within what the loaded concert offers,
    and a buy action that checks three guards in order, then appends a purchase
    record and afterwards patches the concert's remaining tickets. The two writes
    are independent requests: a failure of the second leaves the first in place. */
module Booking {
  import opened Records
  import opened DataStore

  const LoginRequired := "Please login to purchase tickets"
  const ConcertNotFound := "Concert details not found"
  const NotEnoughTickets := "Not enough tickets available"
  const PurchaseFailed := "Failed to complete purchase. Please try again."
  const LoadFailed := "Failed to load concert details"

  datatype Rejection = Unauthenticated | NoConcert | InsufficientInventory

  function RejectionMessage(reason: Rejection): string
  {
    match reason
    case Unauthenticated => LoginRequired
    case NoConcert => ConcertNotFound
    case InsufficientInventory => NotEnoughTickets
  }

  /** How a buy attempt ended: stopped by a guard, the record write failed, the
      record was stored but the inventory patch failed, or both writes went through. */
  datatype BuyOutcome =
    | Rejected(reason: Rejection)
    | RecordFailed
    | PatchFailed(saved: PurchaseRecord)
    | Committed(saved: PurchaseRecord)

  /** The purchase record the page posts (its id is assigned by the store). It
      copies the buyer from the session profile and the concert from the loaded copy. */
  function PurchaseDraft(user: Profile, concert: Concert, count: int, now: int): (r: PurchaseRecord)
    ensures r.ticketsBought == count && r.totalPrice == concert.price * r.ticketsBought
    ensures r.userId == user.id && r.userName == user.userName
    ensures r.concertId == concert.id && r.concertName == concert.name
    ensures r.artistName == concert.artistName && r.venue == concert.venue && r.date == concert.date
    ensures r.purchaseDate == now
  {
    PurchaseRecord(0, user.id, user.userName, concert.id, concert.name, concert.artistName,
                   concert.venue, concert.date, count, concert.price * count, now)
  }

  predicate Stocked(c: Concert)
  {
    0 <= c.availableTickets <= c.totalTickets
  }

  ghost predicate AllStocked(concerts: seq<Concert>)
  {
    forall i :: 0 <= i < |concerts| ==> Stocked(concerts[i])
  }

  /** The copy the page holds agrees with the store on the concert's capacity. */
  ghost predicate SameCapacity(copy: Concert, concerts: seq<Concert>)
  {
    forall i :: 0 <= i < |concerts| && concerts[i].id == copy.id ==> concerts[i].totalTickets == copy.totalTickets
  }

  /** The inventory patch of a purchase that passed the guards keeps every concert
      within 0..totalTickets, even when the page's copy is out of date. */
  lemma PurchaseKeepsStocked(concerts: seq<Concert>, copy: Concert, count: int)
    requires AllStocked(concerts) && Stocked(copy) && SameCapacity(copy, concerts)
    requires 1 <= count <= copy.availableTickets
    ensures AllStocked(SetAvailable(concerts, copy.id, copy.availableTickets - count))
  {
    var after := SetAvailable(concerts, copy.id, copy.availableTickets - count);
    forall i | 0 <= i < |after|
      ensures Stocked(after[i])
    {
      if concerts[i].id == copy.id {
        assert after[i].totalTickets == copy.totalTickets;
      } else {
        assert after[i] == concerts[i];
      }
    }
  }

  /** Buying every remaining ticket of an up-to-date copy leaves the concert sold out,
      and every other concert reads back as before. */
  lemma BuyingTheRestSellsOut(concerts: seq<Concert>, copy: Concert, count: int, other: Id)
    requires FindConcert(concerts, copy.id) == Some(copy) && count == copy.availableTickets
    ensures FindConcert(SetAvailable(concerts, copy.id, copy.availableTickets - count), copy.id)
              == Some(copy.(availableTickets := 0))
    ensures other != copy.id ==>
              FindConcert(SetAvailable(concerts, copy.id, copy.availableTickets - count), other)
                == FindConcert(concerts, other)
  {
    PatchedLookup(concerts, copy.id, 0, other);
  }

  /** The patch writes the copy's count minus the purchase, whatever the store holds
      by then. A copy loaded before other purchases went through undoes them: the
      concert reads back with more tickets than the store had left minus this count. */
  lemma StaleCopyOverwrites(concerts: seq<Concert>, copy: Concert, count: int)
    requires FindConcert(concerts, copy.id).Some?
    ensures var current := FindConcert(concerts, copy.id).value;
            FindConcert(SetAvailable(concerts, copy.id, copy.availableTickets - count), copy.id)
              == Some(current.(availableTickets := copy.availableTickets - count))
    ensures var current := FindConcert(concerts, copy.id).value;
            current.availableTickets < copy.availableTickets ==>
              FindConcert(SetAvailable(concerts, copy.id, copy.availableTickets - count), copy.id).value.availableTickets
                > current.availableTickets - count
  {
    PatchedLookup(concerts, copy.id, copy.availableTickets - count, copy.id);
  }

  class PurchasePage {
    const store: Store
    const concertId: Id
    var concert: Option<Concert>
    var ticketCount: int
    var error: string
    var purchasing: bool

    /** The count never drops below its initial 1. */
    ghost predicate Valid()
      reads this, store
    {
      store.Valid() && ticketCount >= 1
    }

    constructor (store: Store, concertId: Id)
      requires store.Valid()
      ensures Valid()
      ensures this.store == store && this.concertId == concertId
      ensures concert.None? && ticketCount == 1 && error == "" && !purchasing
    {
      this.store := store;
      this.concertId := concertId;
      concert := None;
      ticketCount := 1;
      error := "";
      purchasing := false;
    }

    /** `fetchConcertDetails`: the concert as the store holds it, or an error. */
    method LoadConcert() returns (loaded: bool)
      requires Valid()
      modifies this`concert, this`error
      ensures Valid()
      ensures loaded ==> concert.Some? && concert == FindConcert(store.concerts, concertId) && error == old(error)
      ensures !loaded ==> concert == old(concert) && error == LoadFailed
    {
      var fetched := store.FetchConcert(concertId);
      loaded := fetched.Some?;
      if loaded {
        concert := fetched;
      } else {
        error := LoadFailed;
      }
    }

    /** `handleTicketChange`; `value` is the parsed input, `None` when it is not a number. */
    method HandleTicketChange(value: Option<int>)
      requires Valid()
      modifies this`ticketCount
      ensures Valid()
      ensures var accepted := concert.Some? && value.Some? && 0 < value.value <= concert.value.availableTickets;
              ticketCount == if accepted then value.value else old(ticketCount)
    {
      if concert.Some? && value.Some? && 0 < value.value <= concert.value.availableTickets {
        ticketCount := value.value;
      }
    }

    /** `handleBuyNow`; `user` is the session profile and `now` the purchase instant. */
    method HandleBuyNow(user: Option<Profile>, now: int) returns (outcome: BuyOutcome)
      requires Valid()
      modifies this`error, this`purchasing, store`purchaseHistory, store`concerts, store`nextId
      ensures Valid()
      // the guards, in order; the first that fails decides and nothing is written
      ensures outcome == Rejected(Unauthenticated) <==> user.None?
      ensures outcome == Rejected(NoConcert) <==> user.Some? && concert.None?
      ensures outcome == Rejected(InsufficientInventory) <==>
                user.Some? && concert.Some? && ticketCount > concert.value.availableTickets
      ensures outcome.Rejected? ==>
                && error == RejectionMessage(outcome.reason) && purchasing == old(purchasing)
                && store.purchaseHistory == old(store.purchaseHistory) && store.concerts == old(store.concerts)
      // past the guards the count is between 1 and what the copy offers
      ensures !outcome.Rejected? ==> user.Some? && concert.Some? && 1 <= ticketCount <= concert.value.availableTickets
      // the record is written first; if that fails, no patch is sent
      ensures outcome == RecordFailed ==>
                && error == PurchaseFailed && !purchasing
                && store.purchaseHistory == old(store.purchaseHistory) && store.concerts == old(store.concerts)
      ensures (outcome.PatchFailed? || outcome.Committed?) ==>
                && outcome.saved == PurchaseDraft(user.value, concert.value, ticketCount, now).(id := old(store.nextId))
                && store.purchaseHistory == old(store.purchaseHistory) + [outcome.saved]
      // a failed patch does not take the record back
      ensures outcome.PatchFailed? ==> error == PurchaseFailed && !purchasing && store.concerts == old(store.concerts)
      ensures outcome.Committed? ==>
                && error == old(error) && purchasing
                && store.concerts == SetAvailable(old(store.concerts), concert.value.id,
                                                  concert.value.availableTickets - ticketCount)
      // inventory stays within bounds when the copy agrees with the store on capacity
      ensures (outcome.Committed? && AllStocked(old(store.concerts)) && Stocked(concert.value)
               && SameCapacity(concert.value, old(store.concerts))) ==> AllStocked(store.concerts)
      // buying all that an up-to-date copy offers sells the concert out
      ensures (outcome.Committed? && FindConcert(old(store.concerts), concert.value.id) == concert
               && ticketCount == concert.value.availableTickets) ==>
                && FindConcert(store.concerts, concert.value.id) == Some(concert.value.(availableTickets := 0))
                && outcome.saved.totalPrice == concert.value.price * concert.value.availableTickets
    {
      if user.None? {
        error := LoginRequired;
        return Rejected(Unauthenticated);
      }
      if concert.None? {
        error := ConcertNotFound;
        return Rejected(NoConcert);
      }
      var c := concert.value;
      if ticketCount > c.availableTickets {
        error := NotEnoughTickets;
        return Rejected(InsufficientInventory);
      }
      outcome := Submit(user.value, c, now);
    }

    /** The writes of `handleBuyNow` once the guards passed: the record first, then
        the inventory patch; a failure of either ends the attempt with one message. */
    method Submit(buyer: Profile, c: Concert, now: int) returns (outcome: BuyOutcome)
      requires Valid() && 1 <= ticketCount <= c.availableTickets
      modifies this`error, this`purchasing, store`purchaseHistory, store`concerts, store`nextId
      ensures Valid()
      ensures !outcome.Rejected?
      ensures outcome == RecordFailed ==>
                && error == PurchaseFailed && !purchasing
                && store.purchaseHistory == old(store.purchaseHistory) && store.concerts == old(store.concerts)
      ensures (outcome.PatchFailed? || outcome.Committed?) ==>
                && outcome.saved == PurchaseDraft(buyer, c, ticketCount, now).(id := old(store.nextId))
                && store.purchaseHistory == old(store.purchaseHistory) + [outcome.saved]
      ensures outcome.PatchFailed? ==> error == PurchaseFailed && !purchasing && store.concerts == old(store.concerts)
      ensures outcome.Committed? ==>
                && error == old(error) && purchasing
                && store.concerts == SetAvailable(old(store.concerts), c.id, c.availableTickets - ticketCount)
      ensures (outcome.Committed? && AllStocked(old(store.concerts)) && Stocked(c)
               && SameCapacity(c, old(store.concerts))) ==> AllStocked(store.concerts)
      ensures (outcome.Committed? && FindConcert(old(store.concerts), c.id) == Some(c)
               && ticketCount == c.availableTickets) ==>
                FindConcert(store.concerts, c.id) == Some(c.(availableTickets := 0))
    {
      purchasing := true;
      var saved := store.PostPurchase(PurchaseDraft(buyer, c, ticketCount, now));
      if saved.None? {
        error := PurchaseFailed;
        purchasing := false;
        return RecordFailed;
      }
      var patched := PatchInventory(c);
      if !patched {
        return PatchFailed(saved.value);
      }
      outcome := Committed(saved.value);
    }

    /** The second write of `handleBuyNow`: the concert's remaining tickets drop by the
        count bought; a failure sets the message and ends the attempt. */
    method PatchInventory(c: Concert) returns (patched: bool)
      requires Valid() && 1 <= ticketCount <= c.availableTickets
      modifies this`error, this`purchasing, store`concerts
      ensures Valid()
      ensures patched ==> && error == old(error) && purchasing == old(purchasing)
                          && store.concerts == SetAvailable(old(store.concerts), c.id, c.availableTickets - ticketCount)
      ensures !patched ==> error == PurchaseFailed && !purchasing && store.concerts == old(store.concerts)
      ensures (patched && AllStocked(old(store.concerts)) && Stocked(c)
               && SameCapacity(c, old(store.concerts))) ==> AllStocked(store.concerts)
      ensures (patched && FindConcert(old(store.concerts), c.id) == Some(c) && ticketCount == c.availableTickets) ==>
                FindConcert(store.concerts, c.id) == Some(c.(availableTickets := 0))
    {
      ghost var before := store.concerts;
      patched := store.PatchAvailable(c.id, c.availableTickets - ticketCount);
      if !patched {
        error := PurchaseFailed;
        purchasing := false;
        return;
      }
      if AllStocked(before) && Stocked(c) && SameCapacity(c, before) {
        PurchaseKeepsStocked(before, c, ticketCount);
      }
      if FindConcert(before, c.id) == Some(c) && ticketCount == c.availableTickets {
        BuyingTheRestSellsOut(before, c, ticketCount, c.id);
      }
    }
  }
}
