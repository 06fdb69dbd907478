/**
 * The browser-side `searchHostels`: the client's `SearchFilters` become five URL parameters,
 * the public route reads them back with its defaults, and a non-ok response is an error.
 */
module SearchClient {
  import opened Wrappers
  import opened HostelTypes
  import opened HostelsRoute

  /** A parameter value as written into the query string: text, or a number rendered with
      `toString()` (which never yields the empty string). */
  datatype ParamValue = TextValue(s: string) | NumberValue(x: real)

  /** The parameter names the route reads (their URL spelling in the comments). */
  datatype ParamName =
    | LocationName   // location
    | MinPriceName   // minPrice
    | MaxPriceName   // maxPrice
    | RatingName     // rating
    | TypeName       // type

  datatype Param = Param(name: ParamName, value: ParamValue)

  const SentNames: seq<ParamName> := [LocationName, MinPriceName, MaxPriceName, RatingName, TypeName]

  /** `filters.location || ""`: the empty string is the only falsy string. */
  function OrEmpty(s: string): (r: string)
    ensures r == s
  {
    if s == "" then "" else s
  }

  /** The `URLSearchParams` built from the filters, in insertion order. */
  function SearchQuery(f: SearchFilters): (ps: seq<Param>)
    ensures |ps| == 5
    ensures forall i :: 0 <= i < 5 ==> ps[i].name == SentNames[i]
  {
    [ Param(LocationName, TextValue(OrEmpty(f.location))),
      Param(MinPriceName, NumberValue(f.priceRange.0)),
      Param(MaxPriceName, NumberValue(f.priceRange.1)),
      Param(RatingName, NumberValue(f.rating)),
      Param(TypeName, TextValue(OrEmpty(f.hostelType))) ]
  }

  /** `searchParams.get(name)`: the first value sent under `name`. */
  function Get(ps: seq<Param>, name: ParamName): (r: Option<ParamValue>)
    ensures r.None? <==> forall i :: 0 <= i < |ps| ==> ps[i].name != name
    ensures r.Some? ==> exists i :: 0 <= i < |ps| && ps[i].name == name && ps[i].value == r.value
  {
    if ps == [] then None
    else if ps[0].name == name then Some(ps[0].value)
    else Get(ps[1..], name)
  }

  /** `get` answers with the value of the first parameter carrying the name. */
  lemma {:induction false} GetFirst(ps: seq<Param>, i: nat, name: ParamName)
    requires i < |ps| && ps[i].name == name
    requires forall j :: 0 <= j < i ==> ps[j].name != name
    ensures Get(ps, name) == Some(ps[i].value)
  {
    if i > 0 {
      GetFirst(ps[1..], i - 1, name);
    }
  }

  /** A text parameter as the route sees it; `None` for a number in a text slot, which the
      client never sends. */
  function AsText(v: Option<ParamValue>): Option<Option<string>> {
    match v
    case None => Some(None)
    case Some(TextValue(s)) => Some(Some(s))
    case Some(NumberValue(_)) => None
  }

  /** A numeric parameter as the route sees it: the empty string is blank; `None` for other
      text in a numeric slot, which the client never sends. */
  function AsNumber(v: Option<ParamValue>): Option<Option<NumText>> {
    match v
    case None => Some(None)
    case Some(NumberValue(x)) => Some(Some(Numeral(x)))
    case Some(TextValue(s)) => if s == "" then Some(Some(Blank)) else None
  }

  /** The route's view of a query string: `None` when a value has the wrong kind for its slot. */
  function Received(ps: seq<Param>): Option<RequestParams> {
    match (AsText(Get(ps, LocationName)), AsNumber(Get(ps, MinPriceName)), AsNumber(Get(ps, MaxPriceName)),
           AsNumber(Get(ps, RatingName)), AsText(Get(ps, TypeName)))
    case (Some(location), Some(minPrice), Some(maxPrice), Some(rating), Some(hostelType)) =>
      Some(RequestParams(location, minPrice, maxPrice, rating, hostelType))
    case _ => None
  }

  /** Every parameter the client sends arrives in its slot. */
  lemma ReceivedQuery(f: SearchFilters)
    ensures Received(SearchQuery(f)) == Some(RequestParams(
      Some(f.location), Some(Numeral(f.priceRange.0)), Some(Numeral(f.priceRange.1)),
      Some(Numeral(f.rating)), Some(f.hostelType)))
  {
    var ps := SearchQuery(f);
    GetFirst(ps, 0, LocationName);
    GetFirst(ps, 1, MinPriceName);
    GetFirst(ps, 2, MaxPriceName);
    GetFirst(ps, 3, RatingName);
    GetFirst(ps, 4, TypeName);
  }

  /** What the route makes of the client's filters: the prices are truncated to integers
      with no check that min is at most max, and the rating and the two texts arrive unchanged. */
  lemma ClientServerAgree(f: SearchFilters)
    ensures Received(SearchQuery(f)).Some?
    ensures ReadFilters(Received(SearchQuery(f)).value)
      == Filters(f.location, Truncate(f.priceRange.0), Truncate(f.priceRange.1), f.rating, f.hostelType)
  {
    ReceivedQuery(f);
  }

  /** The empty location and the location "all" select nothing by location, the empty type
      nothing by type, and a rating of 0 or less nothing by rating. */
  lemma ClientFiltersActive(f: SearchFilters)
    ensures Received(SearchQuery(f)).Some?
    ensures var g := ReadFilters(Received(SearchQuery(f)).value);
      && (LocationIs in SearchClauses(g) <==> f.location != "" && f.location != "all")
      && (TypeIs in SearchClauses(g) <==> f.hostelType != "")
      && (RatingAtLeast in SearchClauses(g) <==> f.rating > 0.0)
  {
    ClientServerAgree(f);
    var g := ReadFilters(Received(SearchQuery(f)).value);
    assert g.location == f.location && g.hostelType == f.hostelType && g.rating == f.rating;
  }

  /** The dates are collected but never sent: they do not affect the query string. */
  lemma DatesNeverSent(f: SearchFilters, checkIn: string, checkOut: string)
    ensures SearchQuery(f.(checkIn := checkIn, checkOut := checkOut)) == SearchQuery(f)
  {
  }

  const SearchError: string := "Failed to search hostels"

  /** The fetch's outcome: `response.ok` and the parsed body. */
  datatype Response = Response(ok: bool, hostels: seq<Hostel>)

  /** `searchHostels`: one request through `fetch`; a non-ok response throws instead of
      returning a list. */
  function SearchHostels(f: SearchFilters, fetch: seq<Param> -> Response): (r: Result<seq<Hostel>, string>)
    ensures r.Failure? <==> !fetch(SearchQuery(f)).ok
    ensures r.Failure? ==> r.error == SearchError
    ensures r.Success? ==> r.value == fetch(SearchQuery(f)).hostels
  {
    var response := fetch(SearchQuery(f));
    if !response.ok then Failure(SearchError) else Success(response.hostels)
  }
}
