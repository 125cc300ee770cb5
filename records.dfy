/** The records the storefront exchanges with its collection API and keeps in the
    browser session. Dates are integer timestamps, prices and totals are integers
    (cents), identifiers are natural numbers generated by the store. */
module Records {

  datatype Option<T> = None | Some(value: T)

  type Id = nat

  datatype User = User(
    id: Id,
    userName: string,
    password: string,
    confirmPassword: string,
    phoneNumber: string,
    email: string,
    continent: string)

  datatype Artist = Artist(
    id: Id,
    name: string,
    genre: string,
    country: string,
    image: string)

  datatype Concert = Concert(
    id: Id,
    name: string,
    artistId: Id,
    artistName: string,
    venue: string,
    date: int,
    price: int,
    availableTickets: int,
    totalTickets: int,
    continent: string)

  /** A favorite as stored; `userId` is absent when the poster's profile had no id. */
  datatype Favorite = Favorite(
    id: Id,
    userId: Option<Id>,
    artistId: Id,
    artistName: string,
    artistImage: string)

  datatype PurchaseRecord = PurchaseRecord(
    id: Id,
    userId: Option<Id>,
    userName: Option<string>,
    concertId: Id,
    concertName: string,
    artistName: string,
    venue: string,
    date: int,
    ticketsBought: int,
    totalPrice: int,
    purchaseDate: int)

  /** The profile object kept under the session key "user". A field whose source
      value was `undefined` is dropped by serialisation, hence every field is optional. */
  datatype Profile = Profile(
    id: Option<Id>,
    userName: Option<string>,
    password: Option<string>,
    confirmPassword: Option<string>,
    phoneNumber: Option<string>,
    email: Option<string>,
    continent: Option<string>)

  /** A session-storage value: a plain string, or a serialised profile. */
  datatype Stored = Text(text: string) | Json(profile: Profile)
}
