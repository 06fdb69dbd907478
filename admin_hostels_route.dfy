/**
 * The admin listing route `/api/admin/hostels`: a fixed query over every stored hostel,
 * newest first, and the same row-to-record mapping as the public search.
 */
module AdminHostelsRoute {
  import opened Wrappers
  import opened HostelTypes
  import opened RowShaping
  import HostelsRoute

  const FetchError: string := "Failed to fetch hostels"

  /** GET, given what the fixed query (all rows, `ORDER BY created_at DESC`) returned: every
      row shaped in the order the store delivered it, or one 500 reply. */
  function AdminGet(rows: Result<seq<Row>, string>): (r: Reply<seq<Hostel>>)
    ensures r.status == 200 || r == Reply(500, Failure(FetchError))
    ensures r.status == 200 <==> rows.Success? && ShapeRows(rows.value).Success?
    ensures r.status == 200 ==> r.body == Success(ShapeRows(rows.value).value)
  {
    match rows
    case Failure(_) => Reply(500, Failure(FetchError))
    case Success(rs) =>
      match ShapeRows(rs)
      case Failure(_) => Reply(500, Failure(FetchError))
      case Success(hostels) => Reply(200, Success(hostels))
  }

  /** The listing has one record per row, in row order, each the shape of its row. */
  lemma AdminListsEveryRow(rows: seq<Row>)
    requires AdminGet(Success(rows)).status == 200
    ensures |AdminGet(Success(rows)).body.value| == |rows|
    ensures forall i :: 0 <= i < |rows| ==>
      ShapeRow(rows[i]) == Success(AdminGet(Success(rows)).body.value[i])
  {
  }

  /** The admin route answers exactly as the public search route does for the same rows. */
  lemma AdminMatchesSearch(rows: Result<seq<Row>, string>)
    ensures AdminGet(rows) == HostelsRoute.ListingReply(rows)
  {
  }

  /** One row whose list column does not decode turns the whole answer into a single 500
      reply: no partial list is ever sent. */
  lemma AdminOneBadRow(rows: seq<Row>, k: nat)
    requires k < |rows| && ShapeRow(rows[k]).Failure?
    ensures AdminGet(Success(rows)) == Reply(500, Failure(FetchError))
  {
    OneBadRowFailsAll(rows, k);
  }
}
