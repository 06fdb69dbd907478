/**
 * The row-to-`Hostel` mapping that the public search route and the admin listing route both
 * apply to every row they read: id to string, availability to a boolean, the JSON list
 * columns decoded whichever way the driver returned them, and the image placeholder.
 */
module RowShaping {
  import opened Wrappers
  import opened HostelTypes
  import Json
  import Decimal

  const Placeholder: string := "/placeholder.svg"

  /** `JSON.parse` threw (or did not yield a list of strings); the route answers 500. */
  datatype ShapeError = UndecodableColumn(rowId: nat)

  /** `Boolean(v)` for the stored tinyint. */
  function Truthy(v: int): bool {
    v != 0
  }

  /** `xs[0]`, which is `undefined` for an empty list. */
  function First(xs: seq<string>): Option<string> {
    if xs == [] then None else Some(xs[0])
  }

  /** `Array.isArray(c) ? c : c ? JSON.parse(c) : []`, the amenities rule; the outer `None` is a throw. */
  function ListOf(c: JsonColumn): (r: Option<seq<string>>)
    ensures r.None? <==> c.TextColumn? && c.text != [] && Json.Decode(c.text).None?
  {
    match c
    case ListColumn(xs) => Some(xs)
    case TextColumn(t) => if t == [] then Some([]) else Json.Decode(t)
    case NullColumn => Some([])
  }

  /** `Array.isArray(c) ? c[0] : c ? JSON.parse(c)[0] : "/placeholder.svg"`;
      the outer `None` is a throw. */
  function ImageOf(c: JsonColumn): (r: Option<Option<string>>)
    ensures r.None? <==> ListOf(c).None?
  {
    match c
    case ListColumn(xs) => Some(First(xs))
    case TextColumn(t) =>
      if t == [] then Some(Some(Placeholder))
      else (match Json.Decode(t)
        case None => None
        case Some(xs) => Some(First(xs)))
    case NullColumn => Some(Some(Placeholder))
  }

  /** One row to one public record. */
  function ShapeRow(row: Row): (r: Result<Hostel, ShapeError>)
    ensures r.Failure? <==> ImageOf(row.images).None? || ListOf(row.amenities).None?
    ensures r.Success? ==>
      && r.value.id == Decimal.NatToString(row.id)
      && r.value.name == row.name && r.value.location == row.location
      && r.value.price == row.price && r.value.rating == row.rating
      && r.value.hostelType == row.hostelType && r.value.description == row.description
      && r.value.availability == (row.availability != 0)
      && r.value.reviews == row.reviewsCount
      && Some(r.value.image) == ImageOf(row.images)
      && Some(r.value.amenities) == ListOf(row.amenities)
  {
    match ImageOf(row.images)
    case None => Failure(UndecodableColumn(row.id))
    case Some(image) =>
      match ListOf(row.amenities)
      case None => Failure(UndecodableColumn(row.id))
      case Some(amenities) =>
        Success(Hostel(
          id := Decimal.NatToString(row.id),
          name := row.name,
          location := row.location,
          price := row.price,
          rating := row.rating,
          hostelType := row.hostelType,
          image := image,
          amenities := amenities,
          description := row.description,
          availability := Truthy(row.availability),
          reviews := row.reviewsCount))
  }

  /** `rows.map(shape)` inside one `try`: all rows, in order, or the first failure and no list. */
  function ShapeRows(rows: seq<Row>): (r: Result<seq<Hostel>, ShapeError>)
    ensures r.Success? <==> forall i :: 0 <= i < |rows| ==> ShapeRow(rows[i]).Success?
    ensures r.Success? ==> |r.value| == |rows|
    ensures r.Success? ==> forall i :: 0 <= i < |rows| ==> ShapeRow(rows[i]) == Success(r.value[i])
  {
    if rows == [] then Success([])
    else match ShapeRow(rows[0])
      case Failure(e) => Failure(e)
      case Success(h) =>
        match ShapeRows(rows[1..])
        case Failure(e) => Failure(e)
        case Success(hs) => Success([h] + hs)
  }

  /** The public id reads back as the row id, so distinct rows keep distinct ids. */
  lemma IdReadsBack(row: Row, h: Hostel)
    requires ShapeRow(row) == Success(h)
    ensures Decimal.ParseNat(h.id) == row.id
  {
    Decimal.NatRoundTrip(row.id);
  }

  /** Amenities: a list column passes through, non-empty text is decoded, NULL or empty text gives `[]`. */
  lemma AmenitiesCases(c: JsonColumn)
    ensures c.ListColumn? ==> ListOf(c) == Some(c.items)
    ensures c.NullColumn? || c == TextColumn([]) ==> ListOf(c) == Some([])
    ensures c.TextColumn? && c.text != [] ==> ListOf(c) == Json.Decode(c.text)
  {
  }

  /** Absent means SQL NULL or empty text: the `c ?` test fails. */
  predicate Absent(c: JsonColumn) {
    c.NullColumn? || c == TextColumn([])
  }

  /** Image: the placeholder when the column is absent; otherwise the first element of the
      list the amenities rule would decode from it (`undefined` for an empty list), and a
      throw exactly where that decoding throws. */
  lemma ImageIsFirstOfList(c: JsonColumn)
    ensures Absent(c) ==> ImageOf(c) == Some(Some(Placeholder))
    ensures !Absent(c) && ListOf(c).Some? ==> ImageOf(c) == Some(First(ListOf(c).value))
  {
  }

  /** A column written by the encoder reads back as the list that was written:
      the amenities in full and the image as the first element. */
  lemma EncodedColumnsReadBack(xs: seq<string>)
    ensures ListOf(TextColumn(Json.Encode(xs))) == Some(xs)
    ensures ImageOf(TextColumn(Json.Encode(xs))) == Some(First(xs))
  {
    Json.RoundTrip(xs);
  }

  /** An empty image list stored as JSON text gives `undefined`, not the placeholder. */
  lemma StoredEmptyImagesHaveNoImage()
    ensures ImageOf(TextColumn(Json.Encode([]))) == Some(None)
  {
    Json.RoundTrip([]);
  }

  /** One undecodable row makes the whole listing fail, wherever it is. */
  lemma OneBadRowFailsAll(rows: seq<Row>, k: nat)
    requires k < |rows| && ShapeRow(rows[k]).Failure?
    ensures ShapeRows(rows).Failure?
  {
  }

  /** Shaping maps over concatenation, so the output follows the row order. */
  lemma ShapeRowsAppend(a: seq<Row>, b: seq<Row>)
    requires ShapeRows(a).Success? && ShapeRows(b).Success?
    ensures ShapeRows(a + b) == Success(ShapeRows(a).value + ShapeRows(b).value)
  {
    var va, vb := ShapeRows(a).value, ShapeRows(b).value;
    forall i | 0 <= i < |a + b| ensures ShapeRow((a + b)[i]) == Success((va + vb)[i]) {
      if i < |a| {
        assert (a + b)[i] == a[i];
      } else {
        assert (a + b)[i] == b[i - |a|];
      }
    }
    var r := ShapeRows(a + b);
    assert r.Success?;
    forall i | 0 <= i < |a + b| ensures r.value[i] == (va + vb)[i] {
      assert ShapeRow((a + b)[i]) == Success(r.value[i]);
    }
    assert r.value == va + vb;
  }
}
