/**
 * Route handlers of src/app.ts, as early-return cascades from request
 * fields and backend results to the reply sent.
 *
 * The `swap` and `id` defects are corrected in the handlers; the members
 * named `...AsWritten` keep the code as it reads.
 */
module App {
  import opened JsValues
  import opened Types
  import opened Responses
  import opened RequestHandling
  import opened Backend
  import opened Rpcs
  import opened PotholeReporting
  import opened AdvancedAlerting

  /** An entry of the GET `/images` list: the row's fields plus its URL. */
  datatype ImageEntry = ImageEntry(id: int, createdAt: string, url: Url)

  /** What a handler sends; `NoReply` when it returns without sending. */
  datatype Reply =
    | Send(info: ResponseInfo)
    | SendText(status: int, text: string)
    | SendImages(images: seq<ImageEntry>)
    | NoReply

  // ---------------------------------------------------------------------
  // POST /potholes:action

  /** Where the action cascade goes once the body and the token are checked. */
  datatype ActionStep =
    | Reject(response: ResponseInfo)
    | RunAlert(lat: JsNumber, long: JsNumber)
    | RunReport(lat: JsNumber, long: JsNumber)

  /**
   * Latitude is checked before longitude, and both before the action token;
   * only a token `:alert` or `:report` gets past the cascade.
   */
  function ActionDispatch(rawLat: JsValue, rawLong: JsValue, rawAction: string): (s: ActionStep)
    ensures !IsNumber(rawLat) ==> s == Reject(InvalidJSONBodyElement("latitude"))
    ensures IsNumber(rawLat) && !IsNumber(rawLong) ==> s == Reject(InvalidJSONBodyElement("longitude"))
    ensures IsNumber(rawLat) && IsNumber(rawLong) && DeduceAction(rawAction).None? ==>
      s == Reject(UnsupportedActionError())
    ensures s.RunAlert? <==> IsNumber(rawLat) && IsNumber(rawLong) && rawAction == ":alert"
    ensures s.RunReport? <==> IsNumber(rawLat) && IsNumber(rawLong) && rawAction == ":report"
    ensures !s.Reject? ==> Number(s.lat) == rawLat && Number(s.long) == rawLong
  {
    var ll := VerifyLatLong(rawLat, rawLong);
    if ll.lat.None? then Reject(InvalidJSONBodyElement("latitude"))
    else if ll.long.None? then Reject(InvalidJSONBodyElement("longitude"))
    else
      match DeduceAction(rawAction)
      case None => Reject(UnsupportedActionError())
      case Some(Alert) => RunAlert(ll.lat.value, ll.long.value)
      case Some(Report) => RunReport(ll.lat.value, ll.long.value)
  }

  /** With both fields invalid only the latitude error is sent, and a bad body hides a bad token. */
  lemma BodyErrorsComeFirst(rawLat: JsValue, rawLong: JsValue, rawAction: string)
    requires !IsNumber(rawLat)
    ensures ActionDispatch(rawLat, rawLong, rawAction) == Reject(InvalidJSONBodyElement("latitude"))
  {
  }

  /**
   * The report outcome's response AS WRITTEN: both success cases read
   * `reportOutcome.id`, which the outcome does not have, so the id in the
   * message is `undefined`.
   */
  function ReportResponseAsWritten(o: ReportOutcome): (r: ResponseInfo)
    ensures o.Creation? ==> r == PotholeCreationSuccess(None)
    ensures o.Increment? ==> r == IncrementSuccess(None)
    ensures o.Error? ==> r == SupabaseError()
  {
    match o
    case Creation(_) => PotholeCreationSuccess(None)
    case Increment(_) => IncrementSuccess(None)
    case Error => SupabaseError()
  }

  /** As written, a successful creation announces the id `undefined`. */
  lemma CreationMessageSaysUndefined(id: int)
    ensures Contains(ReportResponseAsWritten(Creation(Some(id))).body.message, "undefined")
    ensures Contains(ReportResponseAsWritten(Increment(Pothole(id, NaN, NaN, 0, "", ""))).body.message, "undefined")
  {
  }

  /**
   * The intended mapping: creation success with the new id, increment
   * success with the merged pothole's id, and the internal error otherwise.
   */
  function ReportResponse(o: ReportOutcome): (r: ResponseInfo)
    ensures r.body.code == 2 && r.status == 200 <==> o.Creation?
    ensures r.body.code == 3 <==> o.Increment?
    ensures r.status == 500 <==> o.Error?
    ensures o.Creation? ==> Contains(r.body.message, RenderId(o.created))
    ensures o.Increment? ==> Contains(r.body.message, IntToString(o.merged.id))
  {
    match o
    case Creation(id) => PotholeCreationSuccess(id)
    case Increment(p) => IncrementSuccess(Some(p.id))
    case Error => SupabaseError()
  }

  /**
   * The action endpoint. An unsupported token or a bad body touches
   * nothing; `:alert` answers with the alert flag and changes nothing;
   * `:report` has the effect ReportEffect describes and sends its response.
   */
  method HandlePotholeAction(
    table: PotholeTable, nearby: NearbyRpc, rawLat: JsValue, rawLong: JsValue, rawAction: string,
    closenessThreshold: real, alertThreshold: real, now: string, f: ReportFaults)
    returns (r: Reply)
    requires table.Valid()
    modifies table
    ensures table.Valid()
    ensures match ActionDispatch(rawLat, rawLong, rawAction)
      case Reject(resp) =>
        r == Send(resp) && table.rows == old(table.rows)
      case RunAlert(lat, long) =>
        r == Send(AlertSuccess(ShouldAlert(nearby, lat, long, alertThreshold))) && table.rows == old(table.rows)
      case RunReport(lat, long) =>
        var res := ReportEffect(old(table.rows), old(table.nextId), GetClosestPothole(nearby(lat, long)),
                                closenessThreshold, lat, long, now, f);
        r == Send(ReportResponse(res.0)) && table.rows == res.1
  {
    match ActionDispatch(rawLat, rawLong, rawAction)
    case Reject(resp) =>
      r := Send(resp);
    case RunAlert(lat, long) =>
      r := Send(AlertSuccess(ShouldAlert(nearby, lat, long, alertThreshold)));
    case RunReport(lat, long) =>
      var o := ReportPothole(table, nearby, lat, long, closenessThreshold, now, f);
      r := Send(ReportResponse(o));
  }

  // ---------------------------------------------------------------------
  // DELETE /potholes

  /** An error if the delete errored, the existence check errored, or no row existed. */
  function DeletionResponse(deleteErrored: bool, existenceErrored: bool, existed: bool): (r: ResponseInfo)
    ensures r == ResourceDeletionSuccess() <==> !deleteErrored && !existenceErrored && existed
    ensures r != ResourceDeletionSuccess() ==> r == ResourceDeletionError()
  {
    if deleteErrored || existenceErrored || !existed then ResourceDeletionError() else ResourceDeletionSuccess()
  }

  /**
   * A NaN id is rejected before the table is touched. Otherwise the
   * existence check and the delete are both issued, the delete regardless
   * of what the check found.
   */
  method DeletePothole(
    table: PotholeTable, rawId: JsValue, strToNum: string -> JsNumber, selectFails: bool, deleteFails: bool)
    returns (r: ResponseInfo)
    requires table.Valid()
    modifies table
    ensures table.Valid()
    ensures IsNaN(ToNumber(rawId, strToNum)) ==> r == InvalidQueryParametersError() && table.rows == old(table.rows)
    ensures !IsNaN(ToNumber(rawId, strToNum)) ==>
      var id := ToNumber(rawId, strToNum);
      && table.rows == (if deleteFails then old(table.rows) else Removed(old(table.rows), id))
      && r == DeletionResponse(deleteFails, selectFails, |Matching(old(table.rows), id)| > 0)
  {
    var id := ToNumber(rawId, strToNum);
    if IsNaN(id) {
      return InvalidQueryParametersError();
    }
    var existing := table.Select(id, selectFails);
    var errored := table.Delete(id, deleteFails);
    r := DeletionResponse(errored, existing.QueryError?, existing.Rows? && |existing.rows| > 0);
  }

  // ---------------------------------------------------------------------
  // GET /potholes

  /** The `potholes_in_view` reply: an error, or `data`, which may be null. */
  datatype ViewResult = ViewError | ViewData(data: Option<seq<ViewRow>>)

  /** The RPC, called with the four bounds. */
  type ViewRpc = (JsNumber, JsNumber, JsNumber, JsNumber) -> ViewResult

  /**
   * Any NaN bound rejects the request before the RPC; an RPC error is an
   * internal error; otherwise `data`, or `[]` when it is null.
   */
  function GetPotholes(
    inView: ViewRpc, rawMinLat: JsValue, rawMinLong: JsValue, rawMaxLat: JsValue, rawMaxLong: JsValue,
    strToNum: string -> JsNumber)
    : (r: ResponseInfo)
    ensures var minLat, minLong, maxLat, maxLong :=
        ToNumber(rawMinLat, strToNum), ToNumber(rawMinLong, strToNum),
        ToNumber(rawMaxLat, strToNum), ToNumber(rawMaxLong, strToNum);
      && (IsNaN(minLat) || IsNaN(minLong) || IsNaN(maxLat) || IsNaN(maxLong) ==> r == InvalidQueryParametersError())
      && (!IsNaN(minLat) && !IsNaN(minLong) && !IsNaN(maxLat) && !IsNaN(maxLong) ==>
            match inView(minLat, minLong, maxLat, maxLong)
            case ViewError => r == SupabaseError()
            case ViewData(None) => r == PotholeGetSuccess([])
            case ViewData(Some(rows)) => r == PotholeGetSuccess(rows))
  {
    var minLat := ToNumber(rawMinLat, strToNum);
    var minLong := ToNumber(rawMinLong, strToNum);
    var maxLat := ToNumber(rawMaxLat, strToNum);
    var maxLong := ToNumber(rawMaxLong, strToNum);
    if IsNaN(minLat) || IsNaN(minLong) || IsNaN(maxLat) || IsNaN(maxLong) then
      InvalidQueryParametersError()
    else
      match inView(minLat, minLong, maxLat, maxLong)
      case ViewError => SupabaseError()
      case ViewData(data) => PotholeGetSuccess(if data.Some? then data.value else [])
  }

  /** A rejected request does not depend on the RPC at all: it is never consulted. */
  lemma NaNBoundIgnoresRpc(
    inView: ViewRpc, otherView: ViewRpc, rawMinLat: JsValue, rawMinLong: JsValue, rawMaxLat: JsValue,
    rawMaxLong: JsValue, strToNum: string -> JsNumber)
    requires IsNaN(ToNumber(rawMinLat, strToNum)) || IsNaN(ToNumber(rawMinLong, strToNum))
          || IsNaN(ToNumber(rawMaxLat, strToNum)) || IsNaN(ToNumber(rawMaxLong, strToNum))
    ensures GetPotholes(inView, rawMinLat, rawMinLong, rawMaxLat, rawMaxLong, strToNum)
         == GetPotholes(otherView, rawMinLat, rawMinLong, rawMaxLat, rawMaxLong, strToNum)
  {
  }

  /** Only NaN is rejected: an infinite bound passes the check. */
  lemma InfiniteBoundAccepted(inView: ViewRpc, rows: seq<ViewRow>, strToNum: string -> JsNumber)
    requires inView(Infinity(true), Finite(0.0), Finite(1.0), Finite(1.0)) == ViewData(Some(rows))
    ensures GetPotholes(inView, Number(Infinity(true)), Number(Finite(0.0)), Number(Finite(1.0)),
                        Number(Finite(1.0)), strToNum) == PotholeGetSuccess(rows)
  {
  }

  // ---------------------------------------------------------------------
  // GET /images

  /** A row of the images query: `id,createdAt:created_at`. */
  datatype ImageListRow = ImageListRow(id: int, createdAt: string)

  /**
   * The `for ... push` loop: one entry per row, in query order, each with
   * its `url` added. `urlOf` is `getImageResource`.
   */
  method WithUrls(rows: seq<ImageListRow>, urlOf: int -> Url) returns (images: seq<ImageEntry>)
    ensures |images| == |rows|
    ensures forall i | 0 <= i < |rows| ::
      images[i] == ImageEntry(rows[i].id, rows[i].createdAt, urlOf(rows[i].id))
  {
    images := [];
    var n := 0;
    while n < |rows|
      invariant 0 <= n <= |rows|
      invariant |images| == n
      invariant forall i | 0 <= i < n :: images[i] == ImageEntry(rows[i].id, rows[i].createdAt, urlOf(rows[i].id))
    {
      images := images + [ImageEntry(rows[n].id, rows[n].createdAt, urlOf(rows[n].id))];
      n := n + 1;
    }
  }

  /**
   * No `potholeId` in the query returns without a reply; a query error
   * sends the text 'supabase error' with status 500; otherwise the list.
   */
  method GetImages(potholeId: JsValue, query: QueryResult<ImageListRow>, urlOf: int -> Url) returns (r: Reply)
    ensures potholeId.Undefined? ==> r == NoReply
    ensures !potholeId.Undefined? && query.QueryError? ==> r == SendText(500, "supabase error")
    ensures !potholeId.Undefined? && query.Rows? ==>
      && r.SendImages?
      && |r.images| == |query.rows|
      && forall i | 0 <= i < |query.rows| ::
           r.images[i] == ImageEntry(query.rows[i].id, query.rows[i].createdAt, urlOf(query.rows[i].id))
  {
    if potholeId.Undefined? {
      return NoReply;
    }
    if query.QueryError? {
      return SendText(500, "supabase error");
    }
    var images := WithUrls(query.rows, urlOf);
    r := SendImages(images);
  }
}
