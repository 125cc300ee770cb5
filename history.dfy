/** The purchase-history page: the signed-in user's purchases, most recent first,
    with the amount spent and the tickets bought summed over them. */
module History {
  import opened Records
  import opened Sequences
  import opened DataStore

  const HistoryLoadFailed := "Failed to load purchase history"

  function PriceOf(p: PurchaseRecord): int { p.totalPrice }
  function TicketsOf(p: PurchaseRecord): int { p.ticketsBought }

  /** Sort key putting the most recent purchase first. */
  function NewestFirst(p: PurchaseRecord): int { -p.purchaseDate }

  /** `calculateTotalSpent`: a fold adding up every record's totalPrice from 0. */
  function TotalSpent(purchases: seq<PurchaseRecord>): int
  {
    SumOf(purchases, PriceOf)
  }

  /** `calculateTotalTickets`: a fold adding up every record's ticketsBought from 0. */
  function TotalTickets(purchases: seq<PurchaseRecord>): int
  {
    SumOf(purchases, TicketsOf)
  }

  /** The list as displayed: the fetched records, most recent purchase first. */
  function HistoryView(fetched: seq<PurchaseRecord>): (r: seq<PurchaseRecord>)
    ensures multiset(r) == multiset(fetched)
    ensures forall i, j :: 0 <= i < j < |r| ==> r[i].purchaseDate >= r[j].purchaseDate
  {
    var r := SortBy(fetched, NewestFirst);
    assert forall i, j :: 0 <= i < j < |r| ==> NewestFirst(r[i]) <= NewestFirst(r[j]);
    r
  }

  /** No purchases cost nothing; one purchase totals its own price and tickets. */
  lemma TotalsOfShortLists(p: PurchaseRecord)
    ensures TotalSpent([]) == 0 && TotalTickets([]) == 0
    ensures TotalSpent([p]) == p.totalPrice && TotalTickets([p]) == p.ticketsBought
  {
    assert [p][..0] == [];
  }

  /** With no negative prices or counts, neither total is negative. */
  lemma TotalsNonNegative(purchases: seq<PurchaseRecord>)
    requires forall i :: 0 <= i < |purchases| ==> purchases[i].totalPrice >= 0 && purchases[i].ticketsBought >= 0
    ensures TotalSpent(purchases) >= 0 && TotalTickets(purchases) >= 0
  {
    SumOfNonNegative(purchases, PriceOf);
    SumOfNonNegative(purchases, TicketsOf);
  }

  /** Both totals add up over the concatenation of two purchase lists. */
  lemma TotalsAdditive(a: seq<PurchaseRecord>, b: seq<PurchaseRecord>)
    ensures TotalSpent(a + b) == TotalSpent(a) + TotalSpent(b)
    ensures TotalTickets(a + b) == TotalTickets(a) + TotalTickets(b)
  {
    SumOfAppend(a, b, PriceOf);
    SumOfAppend(a, b, TicketsOf);
  }

  /** The totals do not depend on the order of the records. */
  lemma TotalsIgnoreOrder(a: seq<PurchaseRecord>, b: seq<PurchaseRecord>)
    requires multiset(a) == multiset(b)
    ensures TotalSpent(a) == TotalSpent(b) && TotalTickets(a) == TotalTickets(b)
  {
    SumOfPermutation(a, b, PriceOf);
    SumOfPermutation(a, b, TicketsOf);
  }

  /** The totals shown under the sorted list are those of the fetched list. */
  lemma SortingKeepsTotals(fetched: seq<PurchaseRecord>)
    ensures TotalSpent(HistoryView(fetched)) == TotalSpent(fetched)
    ensures TotalTickets(HistoryView(fetched)) == TotalTickets(fetched)
  {
    TotalsIgnoreOrder(HistoryView(fetched), fetched);
  }

  class HistoryPage {
    const store: Store
    var purchases: seq<PurchaseRecord>
    var error: string

    constructor (store: Store)
      ensures this.store == store && purchases == [] && error == ""
    {
      this.store := store;
      purchases := [];
      error := "";
    }

    /** `fetchPurchaseHistory`: the user's records sorted most recent first, or an error. */
    method FetchPurchaseHistory(userId: Option<Id>) returns (loaded: bool)
      modifies this`purchases, this`error
      ensures loaded ==> purchases == HistoryView(PurchasesOf(store.purchaseHistory, userId)) && error == old(error)
      ensures !loaded ==> purchases == old(purchases) && error == HistoryLoadFailed
    {
      var fetched := store.FetchPurchasesOf(userId);
      loaded := fetched.Some?;
      if loaded {
        purchases := HistoryView(fetched.value);
      } else {
        error := HistoryLoadFailed;
      }
    }
  }
}
