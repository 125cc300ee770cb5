# Concert storefront model

A Dafny model of the client-side logic of a React concert-ticketing storefront.
Its pages cover these operations:

- The purchase page checks three guards, then appends a purchase record and sets the concert's remaining tickets to the loaded copy's count minus the purchase.
- The catalogue page counts concerts per continent and filters by continent.
- The dashboard and the artist and favorites pages add and remove favorites, and show a featured, upcoming and recent slice of the data.
- The purchase-history page sorts purchases and totals them.
- The registration form has a validator per field.
- The login form writes the session.
- The navigation bar has sign-out and route highlighting.

The JSON backend is an in-memory store (`DataStore.Store`). It holds the `users`, `artists`, `concerts`, `favorites` and `purchaseHistory` collections and an id counter. Every request to it may fail: a read then returns `None`, and a write changes nothing. A delete or patch of an id the collection does not hold fails as well. `sessionStorage` is `Session.SessionStore`, a map from keys to stored values.

Each page is a class. Its fields are the component's React state, and its methods are the event handlers. The current user is passed in as the profile the page read from the session. The array pipelines (filter, sort, slice, reduce), the validators and the lookups are functions, and lemmas state what they promise.

Module layout:

| file | module | models |
|---|---|---|
| records.dfy | `Records` | the collection records, the session profile, stored session values |
| sequences.dfy | `Sequences` | `filter`, stable `sort` by a numeric key, `slice(0, n)`, `reduce` sums |
| favorites.dfy | `Favorites` | membership test, removal by id, one-favorite-per-artist invariant |
| store.dfy | `DataStore` | the backend collections and the queries the pages send |
| session.dfy | `Session` | session storage and the signed-in profile read from it |
| navbar.dfy | `Navbar` | `handleLogout`, `isActive` |
| login.dfy | `Login` | `handleChange`, `handleSubmit` of the login form |
| booking.dfy | `Booking` | the purchase page |
| catalog.dfy | `Catalog` | `calculateContinentSummary`, `filteredConcerts` |
| history.dfy | `History` | the purchase-history page and its totals |
| home.dfy | `Home` | the dashboard |
| artists.dfy | `ArtistsView` | the artist catalogue page |
| fav.dfy | `FavoritesView` | the favorites page |
| registration.dfy | `Registration` | the registration form |

Quirks of the code that are modelled as written:

- The profile that login stores has no `id` (`Login.ProfileOf`, `Login.SessionProfileHasNoId`). So purchases and favorites made after a login carry an absent user id. A query by an absent id matches nothing (`DataStore.FavoritesOf`, `ArtistsView.ReloadShowsAddition`).
- Login writes the session on every path that obtained the user list, including the not-found and wrong-password paths. Nobody matching sets both the not-found and the wrong-password message (`Login.Messages`).
- The purchase record is written before the inventory patch. A failed patch leaves the record in place (`Booking.BuyOutcome.PatchFailed`).
- The registration form posts without looking at the validity flags. An empty phone number gets the confirm field's "CF Required" message.
- The Artists page refreshes its list from the store after an add, rather than appending the record, and that refresh can fail silently.

## Model

| member | source | states |
|---|---|---|
| Sequences.Filter | src/components/BookConcerts.tsx:65 | The filtered list is no longer than the input, and every element it keeps satisfies the predicate. |
| Sequences.FilterContents | src/components/BookConcerts.tsx:65 | The filter keeps exactly the elements that satisfy the predicate, each as often as it occurs in the input, and drops every other. |
| Sequences.FilterPositions | src/components/Fav.tsx:43 | The kept elements appear at strictly increasing positions of the input, so the filter preserves order. |
| Sequences.FilterAppend | src/components/BookConcerts.tsx:65 | Filtering a concatenation is the concatenation of the filtered parts. |
| Sequences.FilterKeepsAll | src/components/Fav.tsx:43 | When every element satisfies the predicate, the filter returns the input unchanged. |
| Sequences.Take | src/components/Home.tsx:88 | `slice(0, n)` has length min(n, length), and it is the prefix of the input of that length. |
| Sequences.Insert | src/components/Home.tsx:95 | One insertion step of the sort adds exactly the new element to the multiset. |
| Sequences.InsertSorted | src/components/Home.tsx:95 | Inserting into a list sorted by the key keeps it sorted. |
| Sequences.SortBy | src/components/Home.tsx:95 | The comparator sort returns a permutation of its input, of the same length, in ascending key order. |
| Sequences.TakeSorted | src/components/Home.tsx:96 | A prefix of a sorted list is sorted and comes from the list, and no taken element has a larger key than one left out. |
| Sequences.TopBy | src/components/Home.tsx:93-96 | Sort-then-slice yields exactly min(n, length) elements of the input, in key order, and no element left out has a smaller key than a taken one. |
| Sequences.TopByLeftOut | src/components/Home.tsx:95-96 | For one element left out by sort-then-slice, no taken element has a larger key. |
| Sequences.FirstWhere | src/components/Login.tsx:44 | The search that `find` performs: the position of the first element satisfying the predicate, or the length when none does. |
| Sequences.SumOfNonNegative | src/components/PurchaseHis.tsx:47-53 | A `reduce` sum of values that are never negative is not negative. |
| Sequences.SumOfAppend | src/components/PurchaseHis.tsx:47-49 | The `reduce` sum of a concatenation is the sum of the parts' sums. |
| Sequences.SumOfWithout | src/components/PurchaseHis.tsx:48 | Taking one element out of the sum subtracts exactly its value. |
| Sequences.RemoveMatching | src/components/PurchaseHis.tsx:48 | Removing an equal element from each of two permutations leaves permutations. |
| Sequences.SumOfPermutation | src/components/PurchaseHis.tsx:47-53 | The `reduce` sum is the same for any reordering of the list. |
| Favorites.FavoriteDraft | src/components/Home.tsx:130-136 | The posted favorite carries the user's id (absent when the profile has none) and the artist's id, name and image. |
| Favorites.IsFavorited | src/components/Home.tsx:113-115 | `isArtistFavorited` (and Artists.tsx's `isAritstFavorited`) is true iff some favorite in the list has that artistId. |
| Favorites.RemoveById | src/components/Home.tsx:151 | Removal never lengthens the list, and no remaining favorite has the removed id. |
| Favorites.RemoveByIdKeepsOthers | src/components/Fav.tsx:43 | Removal keeps every favorite with another id, as often as it occurred and in the original order, and drops the rest. |
| Favorites.RemoveAbsentIsNoOp | src/components/Home.tsx:151 | Removing an id that no favorite carries returns the list unchanged. |
| Favorites.RemoveTwice | src/components/Fav.tsx:43 | Removing the same id twice equals removing it once. |
| Favorites.RemoveUniqueId | src/components/Home.tsx:150-151 | When ids are distinct, filtering out the id of one record drops exactly that record, so the local filter agrees with the collection's DELETE. |
| Favorites.RemoveKeepsDistinctIds | src/components/Fav.tsx:43 | Removal keeps the favorite ids distinct. |
| Favorites.RemoveKeepsOnePerArtist | src/components/Home.tsx:148-158 | Removal preserves "no two favorites name the same artist". |
| Favorites.AppendKeepsOnePerArtist | src/components/Home.tsx:123-139 | Appending a favorite whose artist the duplicate guard found absent preserves one favorite per artist. |
| DataStore.FindConcert | src/components/Purchase.tsx:54-57 | The concert lookup, an instance of `FirstWhere`, yields the first concert with that id, and none iff no concert has it. |
| DataStore.SetAvailable | src/components/Purchase.tsx:108-111 | The patch changes only `availableTickets`, and only of the concerts carrying the id; length, ids and all other concerts are unchanged. |
| DataStore.PatchedLookup | src/components/Purchase.tsx:108-111 | After the patch, looking the concert up yields its old record with the new count, and lookups of other ids are unchanged. |
| DataStore.LookupAfterPatch | src/components/Purchase.tsx:108-111 | The patch keeps every id in place, so a lookup succeeds iff it did before, finds the same record, and only the patched id sees the new count. |
| DataStore.FavoritesOf | src/components/Fav.tsx:28-30 | The `?userId=` query returns only favorites of that user, and nothing for a profile without an id. |
| DataStore.FavoritesOfExactly | src/components/Fav.tsx:28-31 | The query returns every favorite of the user, as often as it is stored, and no other. |
| DataStore.PurchasesOf | src/components/PurchaseHis.tsx:33-35 | The `?userId=` query returns only purchases of that user, and nothing for a profile without an id. |
| DataStore.PurchasesOfExactly | src/components/PurchaseHis.tsx:33-35 | The query returns every purchase of the user, as often as it is stored, and no other. |
| DataStore.Store.FetchUsers | src/components/Login.tsx:42 | `GET /users` returns the stored users, or fails. |
| DataStore.Store.FetchArtists | src/components/Artists.tsx:40 | `GET /artists` returns the stored artists, or fails. |
| DataStore.Store.FetchConcerts | src/components/Home.tsx:84 | `GET /concerts` returns the stored concerts, or fails. |
| DataStore.Store.FetchConcert | src/components/Purchase.tsx:54-56 | `GET /concerts/<id>` returns the concert with that id, or fails. |
| DataStore.Store.FetchFavoritesOf | src/components/Home.tsx:83 | `GET /favorites?userId=` returns the user's favorites, or fails. |
| DataStore.Store.FetchPurchasesOf | src/components/Home.tsx:85 | `GET /purchaseHistory?userId=` returns the user's purchases, or fails. |
| DataStore.Store.PostPurchase | src/components/Purchase.tsx:105 | A successful post appends the record under a fresh id; a failed one changes nothing. The ids stay below the counter. |
| DataStore.Store.PatchAvailable | src/components/Purchase.tsx:109-111 | A successful patch needs the concert to exist and applies `SetAvailable`; a failed one changes nothing. Concert ids stay distinct. |
| DataStore.Store.PostFavorite | src/components/Home.tsx:138 | A successful post appends the favorite under a fresh id; a failed one changes nothing. |
| DataStore.Store.DeleteFavorite | src/components/Home.tsx:150 | A successful delete removes exactly the one record with that id, which is `RemoveById` of the collection, and keeps favorite ids distinct. A failed one changes nothing. |
| DataStore.Store.PostUser | src/components/RegForm.tsx:165 | A successful post appends the user under a fresh id; a failed one changes nothing. |
| Session.SessionStore.SetItem | src/components/Login.tsx:62-63 | `setItem` makes the key hold the value and keeps every other key. |
| Session.CurrentUser | src/components/Purchase.tsx:43-44 | The pages see a user iff the "user" key holds a stored profile, and then they see that profile. |
| Navbar.SignedOut | src/Layout.tsx/Navbar.tsx:19-21 | After logout neither "user" nor "isAuthenticated" is present, and every other key keeps its value. |
| Navbar.SignOutIdempotent | src/Layout.tsx/Navbar.tsx:20-21 | A second logout leaves the session as the first left it. |
| Navbar.SignedOutHasNoUser | src/Layout.tsx/Navbar.tsx:19-21 | After logout the pages see no signed-in user. |
| Navbar.HandleLogout | src/Layout.tsx/Navbar.tsx:19-24 | The two `removeItem` calls leave the session `SignedOut` of what it was. |
| Navbar.IsActive | src/Layout.tsx/Navbar.tsx:25-27 | The link class is "active" iff the current pathname equals the path, and "" otherwise. |
| Login.FindByEmail | src/components/Login.tsx:44 | The matched user, found by `FirstWhere`, is the first one whose email equals the input exactly, and there is none iff no email matches. |
| Login.ProfileOf | src/components/Login.tsx:53-61 | The stored profile copies the matched user's six form fields and has no id; all fields are absent when nobody matched. |
| Login.Messages | src/components/Login.tsx:34-52 | The first message is the both-required prompt or ""; nobody matching or a wrong password ends on the invalid-password message. |
| Login.LoginPage.constructor | src/components/Login.tsx:20-27 | The login form starts with empty email and password, no messages, and `loading` false. |
| Login.LoginPage.HandleChange | src/components/Login.tsx:28-31 | Only the named input (email or password) changes. |
| Login.LoginPage.HandleSubmit | src/components/Login.tsx:32-69 | The messages are set in the order `Messages` gives, and the shown one is the last. A failed fetch sets the login error and leaves the session unwritten. Otherwise both session keys are written on every outcome, and the outcome is not-found iff no email matches and wrong-password iff the matched password differs. |
| Login.LoginPage.Authenticate | src/components/Login.tsx:43-63 | Once the user list arrived: not-found iff no email matches, wrong-password iff the matched password differs, and both session keys written whatever the checks found. |
| Login.LoginPage.WriteSession | src/components/Login.tsx:62-63 | The session gets the profile under "user" and "true" under "isAuthenticated", and keeps every other key. |
| Login.LoginPage.CheckCredentials | src/components/Login.tsx:45-52 | The two checks run without an early return: nobody matching sets both messages, a wrong password sets one, a match sets none. |
| Login.SessionProfileHasNoId | src/components/Login.tsx:53-63 | After any submission that got the user list, the session holds a profile with no id and "isAuthenticated" is "true". |
| Booking.PurchaseDraft | src/components/Purchase.tsx:92-103 | The record has ticketsBought = count and totalPrice = price × count, and it copies the user's id and name and the concert's id, name, artist, venue and date. |
| Booking.PurchaseKeepsStocked | src/components/Purchase.tsx:84-111 | The patch of a purchase that passed the guards keeps every concert within 0..totalTickets. |
| Booking.BuyingTheRestSellsOut | src/components/Purchase.tsx:108-111 | When the count bought is all that an up-to-date copy offers, the patched concert reads back with 0 tickets, and every other concert reads back as before. |
| Booking.StaleCopyOverwrites | src/components/Purchase.tsx:107-111 | The patch writes the loaded copy's count minus the count, whatever the store holds. A copy loaded before other purchases went through undoes them: the concert reads back with more than the store's remaining count minus this count. |
| Booking.PurchasePage.constructor | src/components/Purchase.tsx:37-41 | The page starts with no concert, count 1, no error, and not purchasing. |
| Booking.PurchasePage.LoadConcert | src/components/Purchase.tsx:52-63 | The loaded concert is the store's record for the id, or the load error is set. |
| Booking.PurchasePage.HandleTicketChange | src/components/Purchase.tsx:65-71 | The count changes only when a concert is loaded and 0 < value ≤ availableTickets, so it stays ≥ 1. |
| Booking.PurchasePage.HandleBuyNow | src/components/Purchase.tsx:73-118 | The three guards run in order, and the first failing one sets its message with no write. The record is written before the patch, and a failed record write sends no patch. A failed patch keeps the record and sets the failure message. A success sets the concert's tickets to the loaded copy's count minus the count, so a copy loaded before other purchases overwrites them. When the count is all that an up-to-date copy offers, the concert reads back sold out, and the record's total is price × count. |
| Booking.PurchasePage.Submit | src/components/Purchase.tsx:89-117 | The two writes in order, with the outcome of each failure point. |
| Booking.PurchasePage.PatchInventory | src/components/Purchase.tsx:107-117 | The patch sets availableTickets to the loaded copy's count minus the count (a copy loaded before other purchases overwrites them), keeps all concerts stocked, and sells the concert out when the count is all that remained. A failure sets the message and resets `purchasing`. |
| Catalog.ContinentSummary | src/components/BookConcerts.tsx:49-57 | The summary's keys are exactly the continents that occur, and each entry is that continent's count. |
| Catalog.CountAbsent | src/components/BookConcerts.tsx:52-55 | A continent that does not occur has count 0, so the `else` branch starts its entry at 1. |
| Catalog.FilterByContinent | src/components/BookConcerts.tsx:65 | "All" returns the list unchanged; any other name returns only concerts of that continent. |
| Catalog.FilterByContinentExactly | src/components/BookConcerts.tsx:65 | A continent filter keeps every concert of that continent, as often as it occurs and in catalogue order, and no other. |
| Catalog.FilterMatchesCount | src/components/BookConcerts.tsx:49-65 | For every continent other than "All", the filtered list's length is that continent's count. |
| Catalog.CountTotalIsLength | src/components/BookConcerts.tsx:51-57 | Counting each occurring continent once adds up to the number of concerts. |
| Catalog.SummaryAddsUp | src/components/BookConcerts.tsx:49-57 | The summary's entries, each key listed once, add up to the number of concerts. |
| History.TotalSpent | src/components/PurchaseHis.tsx:47-49 | `calculateTotalSpent`, the fold of totalPrice from 0. It is specified by `TotalsOfShortLists`, `TotalsAdditive`, `TotalsIgnoreOrder` and `TotalsNonNegative`. |
| History.TotalTickets | src/components/PurchaseHis.tsx:51-53 | `calculateTotalTickets`, the fold of ticketsBought from 0. It is specified by the same lemmas as `TotalSpent`. |
| History.TotalsNonNegative | src/components/PurchaseHis.tsx:47-53 | With no negative prices or counts, neither total is negative. |
| History.HistoryView | src/components/PurchaseHis.tsx:36-38 | The displayed list is a permutation of the fetched one, in descending purchaseDate order. |
| History.TotalsOfShortLists | src/components/PurchaseHis.tsx:47-53 | Both totals are 0 for no purchases and the record's own values for one purchase. |
| History.TotalsAdditive | src/components/PurchaseHis.tsx:47-53 | Total spent and total tickets are additive over concatenation. |
| History.TotalsIgnoreOrder | src/components/PurchaseHis.tsx:47-53 | Both totals are the same for any reordering of the purchases. |
| History.SortingKeepsTotals | src/components/PurchaseHis.tsx:36-53 | The totals under the sorted list equal those of the fetched list. |
| History.HistoryPage.constructor | src/components/PurchaseHis.tsx:18-20 | The history page starts with no purchases and no error. |
| History.HistoryPage.FetchPurchaseHistory | src/components/PurchaseHis.tsx:31-45 | The list becomes the user's purchases sorted most recent first, or the load error is set and the list is kept. |
| Home.FeaturedArtists | src/components/Home.tsx:88 | The featured artists are the first min(6, n) artists, in fetched order. |
| Home.UpcomingOnly | src/components/Home.tsx:92-94 | Every concert kept is dated at or after the current instant and has tickets left. |
| Home.UpcomingOnlyExactly | src/components/Home.tsx:94 | The filter keeps every such concert, as often as it occurs, and no other. |
| Home.UpcomingConcerts | src/components/Home.tsx:93-96 | The filter/sort/slice pipeline shows min(4, number of upcoming concerts) concerts. Its order and contents are stated by `UpcomingConcertsShown`. |
| Home.UpcomingConcertsShown | src/components/Home.tsx:93-96 | Exactly min(4, number of upcoming concerts) concerts are shown, each upcoming, in ascending date order, and all from the fetched list; no qualifying concert left out is sooner than a shown one. |
| Home.UpcomingOnlyUpcoming | src/components/Home.tsx:93-96 | Every shown concert is upcoming. |
| Home.UpcomingFromFetched | src/components/Home.tsx:93-96 | The shown concerts are a sub-multiset of the fetched list. |
| Home.UpcomingSoonest | src/components/Home.tsx:95-96 | No qualifying concert left out is sooner than a shown one. |
| Home.UpcomingKept | src/components/Home.tsx:94 | A fetched concert that is upcoming passes the filter. |
| Home.RecentPurchases | src/components/Home.tsx:100-102 | The sort/slice pipeline shows min(3, number of purchases) purchases. Its order and contents are stated by `RecentPurchasesShown`. |
| Home.RecentPurchasesShown | src/components/Home.tsx:100-102 | Exactly min(3, number of purchases) purchases are shown, in descending purchaseDate order, all from the fetched list; none left out is more recent than a shown one. |
| Home.HomePage.constructor | src/components/Home.tsx:59-66 | The dashboard starts with no user, empty artist, favorite, upcoming and recent lists, and empty success and error messages. |
| Home.HomePage.Mount | src/components/Home.tsx:69-76 | With a profile in the session, the page remembers it and loads the dashboard for its id; without one, nothing changes. |
| Home.HomePage.FetchAllData | src/components/Home.tsx:78-111 | All four lists are set together when every request succeeds; otherwise one message is set and the lists are kept. |
| Home.HomePage.Show | src/components/Home.tsx:88-103 | The featured, favorite, upcoming and recent lists are set from the responses. |
| Home.HomePage.AddToFavorites | src/components/Home.tsx:117-146 | The login guard comes first, then the duplicate guard, then the post. A guard or a failed post sets its message and writes nothing. A success appends the stored record at the end, and the list keeps one favorite per artist. |
| Home.HomePage.RemoveFavorite | src/components/Home.tsx:148-158 | A successful delete leaves the list without that id, in order; a failed one keeps the list and sets the message. The one-favorite-per-artist invariant is preserved. |
| ArtistsView.ArtistsPage.constructor | src/components/Artists.tsx:22-26 | The artist page starts with empty artist and favorite lists and empty error and success messages. |
| ArtistsView.ArtistsPage.FetchArtists | src/components/Artists.tsx:38-47 | The catalogue is loaded, or the load error is set and the list is kept. |
| ArtistsView.ArtistsPage.FetchFavorites | src/components/Artists.tsx:49-56 | The list becomes the user's favorites; a failure is only logged and keeps the list. |
| ArtistsView.ArtistsPage.AddToFavorites | src/components/Artists.tsx:62-89 | The user check comes before the duplicate check, and either stops the add with its message and no post. A success posts the draft and sets the success message; the list is then reloaded from the store, or kept when the reload fails. A failed post sets its message. |
| ArtistsView.ReloadShowsAddition | src/components/Artists.tsx:81-83 | After the add, the reloaded list shows the artist as favorited iff the profile carries an id. |
| FavoritesView.FavPage.constructor | src/components/Fav.tsx:13-15 | The favorites page starts with an empty list and no error. |
| FavoritesView.FavPage.FetchFavorites | src/components/Fav.tsx:26-37 | The list is replaced by the user's favorites, or the load error is set. |
| FavoritesView.FavPage.RemoveFavorite | src/components/Fav.tsx:39-48 | A declined confirmation sends nothing. A successful delete leaves the list without that id. A failed one keeps the list and sets the message. The list never grows. |
| Registration.All | src/components/RegForm.tsx:71 | A string is in a character class's star iff each of its characters is in the class. |
| Registration.FirstIndex | src/components/RegForm.tsx:133 | The index of the first occurrence of a character (a `FirstWhere` search), or the length when there is none. |
| Registration.LastIndex | src/components/RegForm.tsx:133 | The index of the last occurrence of a character, or -1 when there is none. |
| Registration.SplitIsUnique | src/components/RegForm.tsx:133 | Any way of matching the email pattern puts the `@` at its first occurrence and the dot at its last. |
| Registration.EmailMatches | src/components/RegForm.tsx:133 | The email check accepts exactly the strings of the email pattern's language. |
| Registration.Utf16Length | src/components/RegForm.tsx:91 | JavaScript's `length` counts UTF-16 code units: between one and two per character. |
| Registration.Utf16LengthSnoc | src/components/RegForm.tsx:91 | Appending a character adds two code units when it lies outside the Basic Multilingual Plane, and one otherwise. |
| Registration.BmpLength | src/components/RegForm.tsx:91 | For text within the Basic Multilingual Plane, `length` is the number of characters. |
| Registration.AstralPassword | src/components/RegForm.tsx:91-98 | Four characters outside the Basic Multilingual Plane are eight code units and pass the password check; four plain letters fail it with the length message. |
| Registration.Check | src/components/RegForm.tsx:67-161 | An unknown field gets no verdict. Each known field is valid iff its pattern or length rule holds (password length counted in UTF-16 code units), and its message is "" iff it is valid. An empty value always gets that field's "Required" message. A non-empty value that fails gets that field's own message: the name, length, "Should match password", number or email message (`MalformedMessage`). |
| Registration.UserOf | src/components/RegForm.tsx:165 | The posted user carries the six form fields. |
| Registration.RegistrationForm.constructor | src/components/RegForm.tsx:31-56 | The six fields start empty, with empty messages and false flags. |
| Registration.RegistrationForm.Validate | src/components/RegForm.tsx:67-161 | Validation changes only the named field's message and flag, as `Check` decides; an unknown name changes nothing. |
| Registration.RegistrationForm.HandleChange | src/components/RegForm.tsx:62-66 | The value is stored. The field is validated against the password as it was before this change; its flag is set, its message is "" iff it is valid, and other fields' messages are kept. |
| Registration.RegistrationForm.HandleSubmit | src/components/RegForm.tsx:162-173 | The form is posted whatever the flags say; a success appends the user, and a failure sets the save error. |

## Left out

- HTTP: URLs, headers and status codes are not modelled. The `/fav` endpoint that the Artists page uses (src/components/Artists.tsx:51,81) and the `/favorites` endpoint of the other pages are one favorites collection.
- Rendering, JSX, routing, `navigate`, `alert`, the `setTimeout` that clears messages, `console` output and the `loading` flags of the pages other than the login form are not modelled: they only affect what is drawn. The login form's `loading` is a field of `Login.LoginPage`, and `HandleSubmit` states its value.
- The confirmation dialog of the favorites page is a boolean parameter.
- Concurrency: `Promise.all` on the dashboard, the Artists page's refresh that is not awaited, and simultaneous buyers of one concert. Each operation runs alone. Operations run one after another still lose updates: the purchase page patches from its loaded copy (`Booking.StaleCopyOverwrites`).
- Home.HomePage.FetchAllData: the four requests run one after the other, not in parallel. The outcome is the same, because any failure rejects the whole batch.
- Dates are integer timestamps. "Now" (the purchase instant) and "today" are parameters. "today" is the instant `new Date()` returns, not the start of the day, so a concert dated at today's midnight is already past. `Date` parsing and formatting are not modelled.
- Prices and totals are integers (for example cents). Floating-point sums are not modelled.
- Ids are natural numbers that the store assigns from a counter. An id the client sends (the empty id of the dashboard's favorite) is replaced. Ids in the source are strings.
- `JSON.stringify`/`JSON.parse` of the session profile are the identity. A plain text value under "user" reads as no user.
- `parseInt` of the ticket input is an optional integer: `None` stands for NaN.
- Catalog.ContinentSummary: keys are plain strings. A continent named like an `Object.prototype` member ("constructor", "toString") does not collide with it here.
- Sequences.SortBy: the sort is stable, but no lemma states stability. The contracts state the permutation and the order only.
- Sequences.TopBy: a left-out element is stated to be no smaller than a taken one. Which of several equal keys is taken is not stated.
- Registration.UserOf: extra keys that `handleChange` adds for unknown input names are not posted. The source would post them with the form.
- Login.LoginPage.CheckCredentials: the two consecutive `if`s are a `match` on the lookup. A missing user takes both branches, as in the source.
- Login.LoginPage.HandleSubmit: an exception thrown after the fetch (there is none in this code) is not modelled.
