/** The records the application passes around: the public listing, the search filters, the
    add-hostel form data, and a row of the `hostels` table as the database driver returns it. */
module HostelTypes {
  import opened Wrappers

  /** The room-type union `"Private" | "Shared" | "Dormitory" | "Single"`. */
  datatype RoomType = Private | Shared | Dormitory | Single

  function RoomTypeName(t: RoomType): string {
    match t
    case Private => "Private"
    case Shared => "Shared"
    case Dormitory => "Dormitory"
    case Single => "Single"
  }

  /** The public `Hostel` record. `image` is `None` where the server sends `undefined`;
      `hostelType` is whatever text the row holds (the server does not check the union). */
  datatype Hostel = Hostel(
    id: string,
    name: string,
    location: string,
    price: real,
    rating: real,
    hostelType: string,
    image: Option<string>,
    amenities: seq<string>,
    description: string,
    availability: bool,
    reviews: int)

  /** The client's `SearchFilters`. `checkIn` and `checkOut` are collected but never sent. */
  datatype SearchFilters = SearchFilters(
    location: string,
    priceRange: (real, real),
    rating: real,
    hostelType: string,
    checkIn: string,
    checkOut: string)

  /** The add-hostel form's `HostelFormData`. */
  datatype HostelFormData = HostelFormData(
    name: string,
    location: string,
    price: real,
    hostelType: RoomType,
    description: string,
    amenities: seq<string>,
    images: seq<string>,
    contactEmail: string,
    contactPhone: string,
    address: string,
    checkInTime: string,
    checkOutTime: string,
    policies: string,
    capacity: int)

  /** How the driver hands back a column that holds a JSON list: already decoded into a
      list, as JSON text, or SQL NULL. */
  datatype JsonColumn = ListColumn(items: seq<string>) | TextColumn(text: string) | NullColumn

  /** A row of the `hostels` table. `price` and `rating` are the numbers `parseFloat` yields;
      `availability` is the stored tinyint. */
  datatype Row = Row(
    id: nat,
    name: string,
    location: string,
    address: string,
    price: real,
    hostelType: string,
    description: string,
    amenities: JsonColumn,
    images: JsonColumn,
    contactEmail: string,
    contactPhone: string,
    checkInTime: string,
    checkOutTime: string,
    policies: string,
    capacity: int,
    rating: real,
    reviewsCount: nat,
    availability: int)

  /** A value bound to a `?` placeholder. */
  datatype SqlValue = SqlNumber(n: real) | SqlText(s: string)

  /** An HTTP reply: the status and either the JSON payload or the `{ error }` message. */
  datatype Reply<+T> = Reply(status: nat, body: Result<T, string>)
}
