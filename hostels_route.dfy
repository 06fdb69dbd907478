/**
 * The public `/api/hostels` route.
 *
 * GET reads five optional URL parameters, builds a parameterised query clause by clause
 * (the query text is a sequence of clause tokens, each standing for a fixed SQL fragment,
 * and the values go into a separate parameter list), runs it, and shapes the rows.
 * POST inserts the fourteen form fields and answers with the re-read, shaped row.
 */
module HostelsRoute {
  import opened Wrappers
  import opened HostelTypes
  import opened RowShaping
  import Json
  import Decimal
  import Lists

  // ---------------------------------------------------------------- URL parameters

  /** The text of a numeric URL parameter: empty, or a numeral denoting `value`. */
  datatype NumText = Blank | Numeral(value: real)

  /** `searchParams.get(...)` for the five names; `None` when the parameter is missing. */
  datatype RequestParams = RequestParams(
    location: Option<string>,
    minPrice: Option<NumText>,
    maxPrice: Option<NumText>,
    rating: Option<NumText>,
    hostelType: Option<string>)

  /** The values the handler works with after applying its defaults. */
  datatype Filters = Filters(location: string, minPrice: int, maxPrice: int, rating: real, hostelType: string)

  /** `searchParams.get(k) || ""`. */
  function TextParam(p: Option<string>): string {
    match p
    case Some(s) => s
    case None => ""
  }

  /** `Number.parseInt` of a decimal numeral: the integer part, rounding toward zero. */
  function Truncate(x: real): (n: int)
    ensures 0.0 <= x ==> n as real <= x < n as real + 1.0
    ensures x < 0.0 ==> n as real - 1.0 < x <= n as real
  {
    if x >= 0.0 then x.Floor else -((-x).Floor)
  }

  /** `Number.parseInt(searchParams.get(k) || d)`. */
  function IntParam(p: Option<NumText>, d: int): int {
    match p
    case Some(Numeral(x)) => Truncate(x)
    case _ => d
  }

  /** `Number.parseFloat(searchParams.get(k) || d)`. */
  function RealParam(p: Option<NumText>, d: real): real {
    match p
    case Some(Numeral(x)) => x
    case _ => d
  }

  /** The five values the handler reads, with their defaults. */
  function ReadFilters(p: RequestParams): (f: Filters)
    ensures p.location.None? || p.location == Some("") ==> f.location == ""
    ensures p.hostelType.None? || p.hostelType == Some("") ==> f.hostelType == ""
    ensures p.minPrice.None? || p.minPrice == Some(Blank) ==> f.minPrice == 0
    ensures p.maxPrice.None? || p.maxPrice == Some(Blank) ==> f.maxPrice == 10000
    ensures p.rating.None? || p.rating == Some(Blank) ==> f.rating == 0.0
    ensures p.location.Some? ==> f.location == p.location.value
    ensures p.hostelType.Some? ==> f.hostelType == p.hostelType.value
    ensures p.minPrice.Some? && p.minPrice.value.Numeral? ==> f.minPrice == Truncate(p.minPrice.value.value)
    ensures p.maxPrice.Some? && p.maxPrice.value.Numeral? ==> f.maxPrice == Truncate(p.maxPrice.value.value)
    ensures p.rating.Some? && p.rating.value.Numeral? ==> f.rating == p.rating.value.value
  {
    Filters(
      location := TextParam(p.location),
      minPrice := IntParam(p.minPrice, 0),
      maxPrice := IntParam(p.maxPrice, 10000),
      rating := RealParam(p.rating, 0.0),
      hostelType := TextParam(p.hostelType))
  }

  // ---------------------------------------------------------------- query text and parameters

  /** The fragments the query text is assembled from. None carries a value. */
  datatype Clause =
    | SelectWherePrice      // SELECT <20 columns> FROM hostels WHERE price >= ? AND price <= ?
    | LocationIs            //  AND location = ?
    | RatingAtLeast         //  AND rating >= ?
    | TypeIs                //  AND type = ?
    | OrderByRatingReviews  //  ORDER BY rating DESC, reviews_count DESC

  /** What a `?` placeholder stands for. */
  datatype Slot = MinPriceSlot | MaxPriceSlot | LocationSlot | RatingSlot | TypeSlot

  /** The placeholders of one fragment, left to right. */
  function Slots(c: Clause): seq<Slot> {
    match c
    case SelectWherePrice => [MinPriceSlot, MaxPriceSlot]
    case LocationIs => [LocationSlot]
    case RatingAtLeast => [RatingSlot]
    case TypeIs => [TypeSlot]
    case OrderByRatingReviews => []
  }

  /** The placeholders of a whole query text, left to right; its length is the number of `?`. */
  function QuerySlots(cs: seq<Clause>): seq<Slot> {
    if cs == [] then [] else Slots(cs[0]) + QuerySlots(cs[1..])
  }

  lemma {:induction false} QuerySlotsAppend(a: seq<Clause>, b: seq<Clause>)
    ensures QuerySlots(a + b) == QuerySlots(a) + QuerySlots(b)
  {
    if a == [] {
      assert a + b == b;
    } else {
      assert (a + b)[1..] == a[1..] + b;
      QuerySlotsAppend(a[1..], b);
    }
  }

  /** The value the handler binds for a placeholder. */
  function ValueFor(f: Filters, s: Slot): SqlValue {
    match s
    case MinPriceSlot => SqlNumber(f.minPrice as real)
    case MaxPriceSlot => SqlNumber(f.maxPrice as real)
    case LocationSlot => SqlText(f.location)
    case RatingSlot => SqlNumber(f.rating)
    case TypeSlot => SqlText(f.hostelType)
  }

  /** Every `?` of the text has exactly one parameter, the one it stands for, in the same order. */
  predicate Aligned(f: Filters, cs: seq<Clause>, ps: seq<SqlValue>) {
    var slots := QuerySlots(cs);
    |ps| == |slots| && forall i :: 0 <= i < |ps| ==> ps[i] == ValueFor(f, slots[i])
  }

  predicate LocationActive(f: Filters) {
    f.location != "" && f.location != "all"
  }

  predicate RatingActive(f: Filters) {
    f.rating > 0.0
  }

  predicate TypeActive(f: Filters) {
    f.hostelType != ""
  }

  /** The query text as a function of which optional filters are active, and of nothing else:
      no filter value can reach the text. */
  function ClausesFor(withLocation: bool, withRating: bool, withType: bool): (cs: seq<Clause>)
    ensures |cs| >= 2 && cs[0] == SelectWherePrice && cs[|cs| - 1] == OrderByRatingReviews
    ensures (LocationIs in cs) == withLocation
    ensures (RatingAtLeast in cs) == withRating
    ensures (TypeIs in cs) == withType
  {
    [SelectWherePrice]
      + (if withLocation then [LocationIs] else [])
      + (if withRating then [RatingAtLeast] else [])
      + (if withType then [TypeIs] else [])
      + [OrderByRatingReviews]
  }

  function SearchClauses(f: Filters): seq<Clause> {
    ClausesFor(LocationActive(f), RatingActive(f), TypeActive(f))
  }

  /** The parameter list the search binds. */
  function SearchParams(f: Filters): (ps: seq<SqlValue>)
    ensures Aligned(f, SearchClauses(f), ps)
  {
    var slots := QuerySlots(SearchClauses(f));
    seq(|slots|, i requires 0 <= i < |slots| => ValueFor(f, slots[i]))
  }

  lemma AlignedExtend(f: Filters, cs: seq<Clause>, ps: seq<SqlValue>, c: Clause, vs: seq<SqlValue>)
    requires Aligned(f, cs, ps)
    requires |vs| == |Slots(c)| && forall i :: 0 <= i < |vs| ==> vs[i] == ValueFor(f, Slots(c)[i])
    ensures Aligned(f, cs + [c], ps + vs)
  {
    QuerySlotsAppend(cs, [c]);
    assert QuerySlots([c]) == Slots(c);
  }

  /** The GET handler's query construction (`query +=`, `params.push`). */
  method BuildSearchQuery(f: Filters) returns (query: seq<Clause>, params: seq<SqlValue>)
    ensures query == SearchClauses(f)
    ensures Aligned(f, query, params)
    ensures params == SearchParams(f)
    ensures 2 <= |params| <= 5
    ensures params[..2] == [SqlNumber(f.minPrice as real), SqlNumber(f.maxPrice as real)]
  {
    query := [SelectWherePrice];
    params := [SqlNumber(f.minPrice as real), SqlNumber(f.maxPrice as real)];
    assert QuerySlots(query) == [MinPriceSlot, MaxPriceSlot];
    if f.location != "" && f.location != "all" {
      AlignedExtend(f, query, params, LocationIs, [SqlText(f.location)]);
      query := query + [LocationIs];
      params := params + [SqlText(f.location)];
    }
    if f.rating > 0.0 {
      AlignedExtend(f, query, params, RatingAtLeast, [SqlNumber(f.rating)]);
      query := query + [RatingAtLeast];
      params := params + [SqlNumber(f.rating)];
    }
    if f.hostelType != "" {
      AlignedExtend(f, query, params, TypeIs, [SqlText(f.hostelType)]);
      query := query + [TypeIs];
      params := params + [SqlText(f.hostelType)];
    }
    AlignedExtend(f, query, params, OrderByRatingReviews, []);
    query := query + [OrderByRatingReviews];
    params := params + [];
    assert query == SearchClauses(f);
    AlignedUnique(f, query, params, SearchParams(f));
  }

  /** For a given text, the aligned parameter list is unique. */
  lemma AlignedUnique(f: Filters, cs: seq<Clause>, ps: seq<SqlValue>, qs: seq<SqlValue>)
    requires Aligned(f, cs, ps) && Aligned(f, cs, qs)
    ensures ps == qs
  {
  }

  // ---------------------------------------------------------------- what the query selects

  /** Whether one fragment accepts a row, given the values bound to its placeholders.
      A comparison with a value of the wrong kind is taken as false. */
  function ClauseHolds(c: Clause, vals: seq<SqlValue>, row: Row): bool
    requires |vals| == |Slots(c)|
  {
    match c
    case SelectWherePrice =>
      vals[0].SqlNumber? && vals[1].SqlNumber? && vals[0].n <= row.price && row.price <= vals[1].n
    case LocationIs => vals[0] == SqlText(row.location)
    case RatingAtLeast => vals[0].SqlNumber? && row.rating >= vals[0].n
    case TypeIs => vals[0] == SqlText(row.hostelType)
    case OrderByRatingReviews => true
  }

  /** The WHERE condition of a query text with its parameters bound left to right; `None`
      when the number of parameters differs from the number of placeholders (the driver
      rejects the statement). */
  function Holds(cs: seq<Clause>, ps: seq<SqlValue>, row: Row): Option<bool> {
    if cs == [] then (if ps == [] then Some(true) else None)
    else
      var k := |Slots(cs[0])|;
      if |ps| < k then None
      else match Holds(cs[1..], ps[k..], row)
        case None => None
        case Some(b) => Some(ClauseHolds(cs[0], ps[..k], row) && b)
  }

  /** The condition a fragment is meant to impose for the given filters. */
  predicate ClauseMeaning(f: Filters, c: Clause, row: Row) {
    match c
    case SelectWherePrice => f.minPrice as real <= row.price <= f.maxPrice as real
    case LocationIs => row.location == f.location
    case RatingAtLeast => row.rating >= f.rating
    case TypeIs => row.hostelType == f.hostelType
    case OrderByRatingReviews => true
  }

  /** The intended search: price within the inclusive range, and location, rating floor and
      type each applied only when active. */
  predicate Matches(f: Filters, row: Row) {
    && f.minPrice as real <= row.price <= f.maxPrice as real
    && (LocationActive(f) ==> row.location == f.location)
    && (RatingActive(f) ==> row.rating >= f.rating)
    && (TypeActive(f) ==> row.hostelType == f.hostelType)
  }

  /** With aligned parameters, each fragment imposes exactly its meaning. */
  lemma {:induction false} HoldsAligned(f: Filters, cs: seq<Clause>, ps: seq<SqlValue>, row: Row)
    requires Aligned(f, cs, ps)
    ensures Holds(cs, ps, row) == Some(forall j :: 0 <= j < |cs| ==> ClauseMeaning(f, cs[j], row))
  {
    if cs != [] {
      var k := |Slots(cs[0])|;
      assert QuerySlots(cs) == Slots(cs[0]) + QuerySlots(cs[1..]);
      assert Aligned(f, cs[1..], ps[k..]) by {
        forall i | 0 <= i < |ps[k..]| ensures ps[k..][i] == ValueFor(f, QuerySlots(cs[1..])[i]) {
          assert ps[k..][i] == ps[k + i];
        }
      }
      HoldsAligned(f, cs[1..], ps[k..], row);
      assert ClauseHolds(cs[0], ps[..k], row) == ClauseMeaning(f, cs[0], row) by {
        forall i | 0 <= i < k ensures ps[..k][i] == ValueFor(f, Slots(cs[0])[i]) {
          assert ps[..k][i] == ps[i];
        }
      }
      assert (forall j :: 0 <= j < |cs| ==> ClauseMeaning(f, cs[j], row))
        == (ClauseMeaning(f, cs[0], row) && forall j :: 0 <= j < |cs[1..]| ==> ClauseMeaning(f, cs[1..][j], row)) by {
        forall j | 0 < j < |cs| ensures cs[j] == cs[1..][j - 1] { }
      }
    }
  }

  /** A parameter list whose length differs from the number of `?` is rejected. */
  lemma {:induction false} HoldsRejectsMiscount(cs: seq<Clause>, ps: seq<SqlValue>, row: Row)
    requires |ps| != |QuerySlots(cs)|
    ensures Holds(cs, ps, row) == None
  {
    if cs != [] {
      var k := |Slots(cs[0])|;
      if |ps| >= k {
        HoldsRejectsMiscount(cs[1..], ps[k..], row);
      }
    }
  }

  /** The query the handler sends selects exactly the rows the filters describe. */
  lemma SearchSelectsMatches(f: Filters, row: Row)
    ensures Holds(SearchClauses(f), SearchParams(f), row) == Some(Matches(f, row))
  {
    var cs := SearchClauses(f);
    HoldsAligned(f, cs, SearchParams(f), row);
    if Matches(f, row) {
      forall j | 0 <= j < |cs| ensures ClauseMeaning(f, cs[j], row) { }
    } else {
      if !(f.minPrice as real <= row.price <= f.maxPrice as real) {
        assert !ClauseMeaning(f, cs[0], row);
      } else if LocationActive(f) && row.location != f.location {
        assert LocationIs in cs;
      } else if RatingActive(f) && row.rating < f.rating {
        assert RatingAtLeast in cs;
      } else {
        assert TypeIs in cs;
      }
    }
  }

  // ---------------------------------------------------------------- GET handler

  const FetchError: string := "Failed to fetch hostels"

  /** The listing reply for a query result: every row shaped, in order, or one 500 reply. */
  function ListingReply(rows: Result<seq<Row>, string>): (r: Reply<seq<Hostel>>)
    ensures r.status == 200 <==> rows.Success? && forall i :: 0 <= i < |rows.value| ==> ShapeRow(rows.value[i]).Success?
    ensures r.status == 200 ==>
      && r.body.Success? && |r.body.value| == |rows.value|
      && forall i :: 0 <= i < |rows.value| ==> ShapeRow(rows.value[i]) == Success(r.body.value[i])
    ensures r.status != 200 ==> r == Reply(500, Failure(FetchError))
  {
    match rows
    case Failure(_) => Reply(500, Failure(FetchError))
    case Success(rs) =>
      match ShapeRows(rs)
      case Failure(_) => Reply(500, Failure(FetchError))
      case Success(hs) => Reply(200, Success(hs))
  }

  /** GET: read the parameters, build the query, run it through `execute`, shape the rows. */
  method HandleGet(req: RequestParams, execute: (seq<Clause>, seq<SqlValue>) -> Result<seq<Row>, string>)
    returns (reply: Reply<seq<Hostel>>)
    ensures reply == ListingReply(execute(SearchClauses(ReadFilters(req)), SearchParams(ReadFilters(req))))
  {
    var f := ReadFilters(req);
    var query, params := BuildSearchQuery(f);
    reply := ListingReply(execute(query, params));
  }

  // ---------------------------------------------------------------- POST handler

  /** The columns an INSERT can name (the SQL spelling in the comments). */
  datatype Column =
    | NameCol          // name
    | LocationCol      // location
    | AddressCol       // address
    | PriceCol         // price
    | TypeCol          // type
    | DescriptionCol   // description
    | AmenitiesCol     // amenities
    | ImagesCol        // images
    | EmailCol         // contact_email
    | PhoneCol         // contact_phone
    | CheckInCol       // check_in_time
    | CheckOutCol      // check_out_time
    | PoliciesCol      // policies
    | CapacityCol      // capacity

  /** The column list of the INSERT statement, whose VALUES list has fourteen `?`. */
  const InsertColumns: seq<Column> := [
    NameCol, LocationCol, AddressCol, PriceCol, TypeCol, DescriptionCol, AmenitiesCol, ImagesCol,
    EmailCol, PhoneCol, CheckInCol, CheckOutCol, PoliciesCol, CapacityCol]

  const InsertPlaceholders: nat := 14

  /** The parameter array, with the two lists JSON-encoded. */
  function InsertParams(b: HostelFormData): (ps: seq<SqlValue>)
    ensures |ps| == |InsertColumns| == InsertPlaceholders
  {
    [ SqlText(b.name), SqlText(b.location), SqlText(b.address), SqlNumber(b.price),
      SqlText(RoomTypeName(b.hostelType)), SqlText(b.description),
      SqlText(Json.Encode(b.amenities)), SqlText(Json.Encode(b.images)),
      SqlText(b.contactEmail), SqlText(b.contactPhone), SqlText(b.checkInTime),
      SqlText(b.checkOutTime), SqlText(b.policies), SqlNumber(b.capacity as real) ]
  }

  /** What the store fills in itself for a new row. */
  datatype StoreDefaults = StoreDefaults(rating: real, reviewsCount: nat, availability: int)

  /** The value bound to column `c`: the parameter at the position where `c` is named. */
  function ValueAt(cols: seq<Column>, vals: seq<SqlValue>, c: Column): Option<SqlValue>
    requires |cols| == |vals|
  {
    if cols == [] then None
    else if cols[0] == c then Some(vals[0])
    else ValueAt(cols[1..], vals[1..], c)
  }

  lemma {:induction false} ValueAtIndex(cols: seq<Column>, vals: seq<SqlValue>, i: nat)
    requires |cols| == |vals| && i < |cols| && Lists.NoDuplicates(cols)
    ensures ValueAt(cols, vals, cols[i]) == Some(vals[i])
  {
    if i > 0 {
      assert cols[0] != cols[i];
      assert Lists.NoDuplicates(cols[1..]) by {
        forall a, b | 0 <= a < b < |cols[1..]| ensures cols[1..][a] != cols[1..][b] {
          assert cols[1..][a] == cols[a + 1] && cols[1..][b] == cols[b + 1];
        }
      }
      ValueAtIndex(cols[1..], vals[1..], i - 1);
    }
  }

  function TextAt(cols: seq<Column>, vals: seq<SqlValue>, c: Column): Option<string>
    requires |cols| == |vals|
  {
    match ValueAt(cols, vals, c)
    case Some(SqlText(s)) => Some(s)
    case _ => None
  }

  function NumberAt(cols: seq<Column>, vals: seq<SqlValue>, c: Column): Option<real>
    requires |cols| == |vals|
  {
    match ValueAt(cols, vals, c)
    case Some(SqlNumber(n)) => Some(n)
    case _ => None
  }

  /** The INSERT's values read back by column name, in three groups: the listing with its
      pictures, its description, and the contact details. */
  datatype ListingValues = ListingValues(
    name: string, location: string, address: string, price: real, hostelType: string, images: string)

  datatype DescriptionValues = DescriptionValues(
    description: string, amenities: string, policies: string, capacity: real)

  datatype ContactValues = ContactValues(
    email: string, phone: string, checkIn: string, checkOut: string)

  function ListingOf(cols: seq<Column>, vals: seq<SqlValue>): Option<ListingValues>
    requires |cols| == |vals|
  {
    var name, location, address := TextAt(cols, vals, NameCol), TextAt(cols, vals, LocationCol), TextAt(cols, vals, AddressCol);
    var price, hostelType, images := NumberAt(cols, vals, PriceCol), TextAt(cols, vals, TypeCol), TextAt(cols, vals, ImagesCol);
    if name.Some? && location.Some? && address.Some? && price.Some? && hostelType.Some? && images.Some?
    then Some(ListingValues(name.value, location.value, address.value, price.value, hostelType.value, images.value))
    else None
  }

  function DescriptionOf(cols: seq<Column>, vals: seq<SqlValue>): Option<DescriptionValues>
    requires |cols| == |vals|
  {
    var description, amenities := TextAt(cols, vals, DescriptionCol), TextAt(cols, vals, AmenitiesCol);
    var policies, capacity := TextAt(cols, vals, PoliciesCol), NumberAt(cols, vals, CapacityCol);
    if description.Some? && amenities.Some? && policies.Some? && capacity.Some?
    then Some(DescriptionValues(description.value, amenities.value, policies.value, capacity.value))
    else None
  }

  function ContactOf(cols: seq<Column>, vals: seq<SqlValue>): Option<ContactValues>
    requires |cols| == |vals|
  {
    var email, phone := TextAt(cols, vals, EmailCol), TextAt(cols, vals, PhoneCol);
    var checkIn, checkOut := TextAt(cols, vals, CheckInCol), TextAt(cols, vals, CheckOutCol);
    if email.Some? && phone.Some? && checkIn.Some? && checkOut.Some?
    then Some(ContactValues(email.value, phone.value, checkIn.value, checkOut.value))
    else None
  }

  /** The conversion of a number stored into an integer column: the nearest integer, halves
      away from zero; an integral value is kept. */
  function StoredInt(x: real): (n: int)
    ensures -0.5 <= n as real - x <= 0.5
    ensures x == x.Floor as real ==> n == x.Floor
  {
    if x >= 0.0 then (x + 0.5).Floor else -((-x + 0.5).Floor)
  }

  /** The row an INSERT creates under id `id`; `None` when the statement is rejected: a count
      mismatch, or a column without a value of its kind. The store converts the capacity for
      its integer column and fills in the defaults. */
  function InsertRow(id: nat, cols: seq<Column>, vals: seq<SqlValue>, d: StoreDefaults): Option<Row> {
    if |cols| != |vals| then None
    else match (ListingOf(cols, vals), DescriptionOf(cols, vals), ContactOf(cols, vals))
    case (Some(l), Some(t), Some(k)) =>
      Some(Row(
        id := id, name := l.name, location := l.location, address := l.address, price := l.price,
        hostelType := l.hostelType, description := t.description,
        amenities := TextColumn(t.amenities), images := TextColumn(l.images),
        contactEmail := k.email, contactPhone := k.phone, checkInTime := k.checkIn, checkOutTime := k.checkOut,
        policies := t.policies, capacity := StoredInt(t.capacity),
        rating := d.rating, reviewsCount := d.reviewsCount, availability := d.availability))
    case _ => None
  }

  /** The form field a column is named after: the reference the INSERT is checked against. */
  function FieldFor(b: HostelFormData, c: Column): SqlValue {
    match c
    case NameCol => SqlText(b.name)
    case LocationCol => SqlText(b.location)
    case AddressCol => SqlText(b.address)
    case PriceCol => SqlNumber(b.price)
    case TypeCol => SqlText(RoomTypeName(b.hostelType))
    case DescriptionCol => SqlText(b.description)
    case AmenitiesCol => SqlText(Json.Encode(b.amenities))
    case ImagesCol => SqlText(Json.Encode(b.images))
    case EmailCol => SqlText(b.contactEmail)
    case PhoneCol => SqlText(b.contactPhone)
    case CheckInCol => SqlText(b.checkInTime)
    case CheckOutCol => SqlText(b.checkOutTime)
    case PoliciesCol => SqlText(b.policies)
    case CapacityCol => SqlNumber(b.capacity as real)
  }

  /** The fourteen columns, placeholders and parameters line up: every column receives the
      form field it is named after. */
  lemma InsertBindsColumn(b: HostelFormData, c: Column)
    ensures ValueAt(InsertColumns, InsertParams(b), c) == Some(FieldFor(b, c))
  {
    InsertColumnsDistinct();
    ColumnAtOrdinal(c);
    ParamAtOrdinal(b, c);
    ValueAtIndex(InsertColumns, InsertParams(b), Ordinal(c));
  }

  /** Each column sits at its own position in the column list. */
  lemma ColumnAtOrdinal(c: Column)
    ensures InsertColumns[Ordinal(c)] == c
  {
  }

  /** The parameter at a column's position is the form field named after it. */
  lemma ParamAtOrdinal(b: HostelFormData, c: Column)
    ensures InsertParams(b)[Ordinal(c)] == FieldFor(b, c)
  {
  }

  /** The row the INSERT creates holds the form's fields, with both lists stored as JSON text. */
  lemma InsertStoresForm(b: HostelFormData, id: nat, d: StoreDefaults)
    ensures InsertRow(id, InsertColumns, InsertParams(b), d) == Some(FormRow(b, id, d))
  {
    forall c: Column ensures ValueAt(InsertColumns, InsertParams(b), c) == Some(FieldFor(b, c)) {
      InsertBindsColumn(b, c);
    }
    StoresBoundFields(b, id, InsertColumns, InsertParams(b), d);
  }

  /** The row holding the form's fields under `id`, both lists as JSON text. */
  function FormRow(b: HostelFormData, id: nat, d: StoreDefaults): Row {
    Row(
      id := id, name := b.name, location := b.location, address := b.address, price := b.price,
      hostelType := RoomTypeName(b.hostelType), description := b.description,
      amenities := TextColumn(Json.Encode(b.amenities)), images := TextColumn(Json.Encode(b.images)),
      contactEmail := b.contactEmail, contactPhone := b.contactPhone,
      checkInTime := b.checkInTime, checkOutTime := b.checkOutTime, policies := b.policies,
      capacity := b.capacity, rating := d.rating, reviewsCount := d.reviewsCount,
      availability := d.availability)
  }

  /** Any column list that binds every column to the field it is named after stores the form. */
  lemma StoresBoundFields(b: HostelFormData, id: nat, cols: seq<Column>, vals: seq<SqlValue>, d: StoreDefaults)
    requires |cols| == |vals|
    requires forall c: Column :: ValueAt(cols, vals, c) == Some(FieldFor(b, c))
    ensures InsertRow(id, cols, vals, d) == Some(FormRow(b, id, d))
  {
    BoundListing(b, cols, vals);
    BoundDescription(b, cols, vals);
    BoundContact(b, cols, vals);
    assert StoredInt(b.capacity as real) == b.capacity;
  }

  lemma BoundListing(b: HostelFormData, cols: seq<Column>, vals: seq<SqlValue>)
    requires |cols| == |vals|
    requires forall c: Column :: ValueAt(cols, vals, c) == Some(FieldFor(b, c))
    ensures ListingOf(cols, vals) == Some(ListingValues(
      b.name, b.location, b.address, b.price, RoomTypeName(b.hostelType), Json.Encode(b.images)))
  {
  }

  lemma BoundDescription(b: HostelFormData, cols: seq<Column>, vals: seq<SqlValue>)
    requires |cols| == |vals|
    requires forall c: Column :: ValueAt(cols, vals, c) == Some(FieldFor(b, c))
    ensures DescriptionOf(cols, vals) == Some(DescriptionValues(
      b.description, Json.Encode(b.amenities), b.policies, b.capacity as real))
  {
  }

  lemma BoundContact(b: HostelFormData, cols: seq<Column>, vals: seq<SqlValue>)
    requires |cols| == |vals|
    requires forall c: Column :: ValueAt(cols, vals, c) == Some(FieldFor(b, c))
    ensures ContactOf(cols, vals) == Some(ContactValues(
      b.contactEmail, b.contactPhone, b.checkInTime, b.checkOutTime))
  {
  }

  /** Position of a column in the INSERT list. */
  function Ordinal(c: Column): nat {
    match c
    case NameCol => 0
    case LocationCol => 1
    case AddressCol => 2
    case PriceCol => 3
    case TypeCol => 4
    case DescriptionCol => 5
    case AmenitiesCol => 6
    case ImagesCol => 7
    case EmailCol => 8
    case PhoneCol => 9
    case CheckInCol => 10
    case CheckOutCol => 11
    case PoliciesCol => 12
    case CapacityCol => 13
  }

  /** The INSERT names every column once. */
  lemma InsertColumnsDistinct()
    ensures Lists.NoDuplicates(InsertColumns)
  {
    forall i | 0 <= i < |InsertColumns| ensures Ordinal(InsertColumns[i]) == i { }
  }

  const CreateError: string := "Failed to create hostel"

  /** `JSON.parse(column)` on the re-read row; only JSON text parses. */
  function ParseColumn(c: JsonColumn): Option<seq<string>> {
    match c
    case TextColumn(t) => Json.Decode(t)
    case _ => None
  }

  /** `JSON.parse(images)[0] || "/placeholder.svg"`: the created record always has an image,
      the first stored one whenever that one is usable. */
  function CreatedImage(xs: seq<string>): (image: string)
    ensures image != ""
    ensures image == Placeholder || (xs != [] && image == xs[0])
    ensures xs != [] && xs[0] != "" ==> image == xs[0]
  {
    if xs == [] || xs[0] == "" then Placeholder else xs[0]
  }

  /** The response record built from the re-read row. */
  function CreatedHostel(row: Row): (r: Result<Hostel, ShapeError>)
    ensures r.Failure? <==> ParseColumn(row.images).None? || ParseColumn(row.amenities).None?
    ensures r.Success? ==>
      && r.value.id == Decimal.NatToString(row.id)
      && r.value.name == row.name && r.value.location == row.location
      && r.value.price == row.price && r.value.rating == row.rating
      && r.value.hostelType == row.hostelType && r.value.description == row.description
      && r.value.availability == (row.availability != 0)
      && r.value.reviews == row.reviewsCount
      && Some(r.value.amenities) == ParseColumn(row.amenities)
      && r.value.image == Some(CreatedImage(ParseColumn(row.images).value))
  {
    match ParseColumn(row.images)
    case None => Failure(UndecodableColumn(row.id))
    case Some(images) =>
      match ParseColumn(row.amenities)
      case None => Failure(UndecodableColumn(row.id))
      case Some(amenities) =>
        Success(Hostel(
          id := Decimal.NatToString(row.id),
          name := row.name,
          location := row.location,
          price := row.price,
          rating := row.rating,
          hostelType := row.hostelType,
          image := Some(CreatedImage(images)),
          amenities := amenities,
          description := row.description,
          availability := Truthy(row.availability),
          reviews := row.reviewsCount))
  }

  /** POST: insert through `insert`, which yields the new id, re-read the row through `select`
      and answer 201 with it; any failure is one 500 reply. */
  function HandlePost(
    b: HostelFormData,
    insert: (seq<Column>, seq<SqlValue>) -> Result<nat, string>,
    select: nat -> Result<seq<Row>, string>): (r: Reply<Hostel>)
    ensures r.status == 201 || r == Reply(500, Failure(CreateError))
    ensures r.status == 201 ==> insert(InsertColumns, InsertParams(b)).Success?
  {
    match insert(InsertColumns, InsertParams(b))
    case Failure(_) => Reply(500, Failure(CreateError))
    case Success(id) =>
      match select(id)
      case Failure(_) => Reply(500, Failure(CreateError))
      case Success(rows) =>
        if rows == [] then Reply(500, Failure(CreateError))
        else match CreatedHostel(rows[0])
          case Failure(_) => Reply(500, Failure(CreateError))
          case Success(h) => Reply(201, Success(h))
  }

  /** When the store keeps what was inserted, the reply carries the store's id, the form's
      fields, the amenities as sent and the first image, or the placeholder. */
  lemma CreateRoundTrip(
    b: HostelFormData, id: nat, d: StoreDefaults, row: Row,
    insert: (seq<Column>, seq<SqlValue>) -> Result<nat, string>,
    select: nat -> Result<seq<Row>, string>)
    requires insert(InsertColumns, InsertParams(b)) == Success(id)
    requires InsertRow(id, InsertColumns, InsertParams(b), d) == Some(row)
    requires select(id).Success? && select(id).value != [] && select(id).value[0] == row
    ensures var r := HandlePost(b, insert, select);
      && r.status == 201 && r.body.Success?
      && r.body.value.id == Decimal.NatToString(id)
      && r.body.value.name == b.name && r.body.value.location == b.location
      && r.body.value.price == b.price && r.body.value.description == b.description
      && r.body.value.hostelType == RoomTypeName(b.hostelType)
      && r.body.value.amenities == b.amenities
      && r.body.value.image == Some(CreatedImage(b.images))
      && r.body.value.rating == d.rating && r.body.value.reviews == d.reviewsCount
      && r.body.value.availability == (d.availability != 0)
  {
    InsertStoresForm(b, id, d);
    Json.RoundTrip(b.amenities);
    Json.RoundTrip(b.images);
  }
}
