/**
 * The earlier `/potholes:action` handler of src/index.ts: only `:report`
 * is supported, coordinates go through `Number(...)`, and the merge
 * decision is made inline.
 *
 * A handler here yields the responses it passes to `res.send`, in order:
 * the client receives the first, and a second send after it fails.
 * The missing `return` and the unchecked `data[0]` are corrected in
 * HandleReport; the members named `...AsWritten` keep the code as it reads.
 */
module IndexHandler {
  import opened JsValues
  import opened Responses
  import opened Backend
  import opened Rpcs
  import opened PotholeReporting

  /** `action[0] === ':'`; on the empty token `action[0]` is `undefined`. */
  predicate HasColonPrefix(action: string)
  {
    |action| > 0 && action[0] == ':'
  }

  /**
   * The token check AS WRITTEN: a token without the leading colon sends the
   * format error and, lacking a `return`, goes on to send the
   * unsupported-action error as well. `[]` means the token is `:report`.
   */
  function ActionCheckAsWritten(action: string): (sent: seq<ResponseInfo>)
    ensures action == ":report" <==> sent == []
    ensures action != ":report" && !HasColonPrefix(action) ==>
      sent == [InvalidActionFormatError(), UnsupportedActionError()]
    ensures action != ":report" && HasColonPrefix(action) ==> sent == [UnsupportedActionError()]
  {
    if action == ":report" then []
    else (if !HasColonPrefix(action) then [InvalidActionFormatError()] else []) + [UnsupportedActionError()]
  }

  /** A bare `report` gets two sends: the 422, then a 404 that can no longer be delivered. */
  lemma BadFormatSendsTwiceAsWritten()
    ensures ActionCheckAsWritten("report") == [InvalidActionFormatError(), UnsupportedActionError()]
    ensures ActionCheckAsWritten("")[0].status == 422
  {
  }

  /** The intended token check: exactly one response for every token but `:report`. */
  function ActionCheck(action: string): (sent: seq<ResponseInfo>)
    ensures action == ":report" <==> sent == []
    ensures |sent| <= 1
    ensures action != ":report" && !HasColonPrefix(action) ==> sent == [InvalidActionFormatError()]
    ensures action != ":report" && HasColonPrefix(action) ==> sent == [UnsupportedActionError()]
  {
    if action == ":report" then []
    else if !HasColonPrefix(action) then [InvalidActionFormatError()]
    else [UnsupportedActionError()]
  }

  datatype Validation = Rejected(sent: seq<ResponseInfo>) | Accepted(lat: JsNumber, long: JsNumber)

  /**
   * The token first, then `Number(longitude)`, then `Number(latitude)`;
   * a NaN coordinate is the 422 / code 1 missing-parameter error.
   */
  function ValidateReport(action: string, rawLong: JsValue, rawLat: JsValue, strToNum: string -> JsNumber)
    : (v: Validation)
    ensures action != ":report" ==> v == Rejected(ActionCheck(action))
    ensures action == ":report" && IsNaN(ToNumber(rawLong, strToNum)) ==>
      v == Rejected([MissingBodyElementError("longitude")])
    ensures action == ":report" && !IsNaN(ToNumber(rawLong, strToNum)) && IsNaN(ToNumber(rawLat, strToNum)) ==>
      v == Rejected([MissingBodyElementError("latitude")])
    ensures v.Accepted? <==> action == ":report" && !IsNaN(ToNumber(rawLong, strToNum)) && !IsNaN(ToNumber(rawLat, strToNum))
    ensures v.Accepted? ==> v.lat == ToNumber(rawLat, strToNum) && v.long == ToNumber(rawLong, strToNum)
  {
    if action != ":report" then Rejected(ActionCheck(action))
    else
      var longitude := ToNumber(rawLong, strToNum);
      var latitude := ToNumber(rawLat, strToNum);
      if IsNaN(longitude) then Rejected([MissingBodyElementError("longitude")])
      else if IsNaN(latitude) then Rejected([MissingBodyElementError("latitude")])
      else Accepted(latitude, longitude)
  }

  /** Unlike the `typeof` check of the later handler, numeric strings and `null` pass. */
  lemma NumericStringsAccepted(rawLong: JsValue, s: string, strToNum: string -> JsNumber)
    requires strToNum(s) == Finite(40.0)
    requires !IsNaN(ToNumber(rawLong, strToNum))
    ensures ValidateReport(":report", rawLong, Str(s), strToNum) == Accepted(Finite(40.0), ToNumber(rawLong, strToNum))
    ensures ValidateReport(":report", rawLong, Null, strToNum) == Accepted(Finite(0.0), ToNumber(rawLong, strToNum))
  {
  }

  /**
   * This file's `getClosestPothole` AS WRITTEN: `data[0]` is destructured
   * without an emptiness check, so with no rows it throws (`None`).
   */
  function ClosestPotholeAsWritten(reply: QueryResult<NearbyRow>): (p: Option<Proximity>)
    ensures reply.QueryError? ==> p == Some(Failure)
    ensures reply == Rows([]) ==> p == None
    ensures reply.Rows? && |reply.rows| > 0 ==> p == Some(Found(reply.rows[0].id, reply.rows[0].distMeters))
  {
    match reply
    case QueryError => Some(Failure)
    case Rows(rows) => if |rows| == 0 then None else Some(Found(rows[0].id, rows[0].distMeters))
  }

  /** As written, with an empty table the lookup throws, so the first pothole can never be reported. */
  lemma EmptyTableThrowsAsWritten()
    ensures ClosestPotholeAsWritten(Rows([])).None?
    ensures GetClosestPothole(Rows([])) == NotFound
  {
  }

  /** This file's `createNewPothole(long, lat)`: `POINT(long lat)`, no address parts. */
  method CreateNewPothole(table: PotholeTable, long: JsNumber, lat: JsNumber, now: string, fails: bool)
    returns (id: Option<int>)
    requires table.Valid()
    modifies table
    ensures table.Valid()
    ensures fails ==> id == None && table.rows == old(table.rows)
    ensures !fails ==> id == Some(old(table.nextId)) && old(table.nextId) !in old(table.rows)
    ensures !fails ==> table.rows == old(table.rows)[old(table.nextId) := NewPotholeRow(WktPoint(long, lat), None, now)]
  {
    id := table.Insert(WktPoint(long, lat), None, now, fails);
  }

  /**
   * The report handler. A lookup failure is the internal error; within the
   * threshold (inclusive) the closest pothole is incremented and its id
   * announced; otherwise, and when there is no pothole, one is created.
   */
  method HandleReport(
    table: PotholeTable, nearby: NearbyRpc, action: string, rawLong: JsValue, rawLat: JsValue,
    strToNum: string -> JsNumber, threshold: real, now: string, insertFails: bool, incrementFails: bool)
    returns (sent: seq<ResponseInfo>)
    requires table.Valid()
    modifies table
    ensures table.Valid()
    ensures match ValidateReport(action, rawLong, rawLat, strToNum)
      case Rejected(s) => sent == s && table.rows == old(table.rows)
      case Accepted(lat, long) =>
        match ChooseBranch(GetClosestPothole(nearby(lat, long)), threshold)
        case FailBranch =>
          sent == [SupabaseError()] && table.rows == old(table.rows)
        case IncrementBranch(id) =>
          && table.rows == (if incrementFails then old(table.rows) else Incremented(old(table.rows), id, now))
          && sent == [if incrementFails then SupabaseError() else IncrementSuccess(Some(id))]
        case CreateBranch =>
          && (insertFails ==> sent == [SupabaseError()] && table.rows == old(table.rows))
          && (!insertFails ==>
                && sent == [PotholeCreationSuccess(Some(old(table.nextId)))]
                && table.rows == old(table.rows)[old(table.nextId) := NewPotholeRow(WktPoint(long, lat), None, now)])
  {
    match ValidateReport(action, rawLong, rawLat, strToNum)
    case Rejected(s) =>
      sent := s;
    case Accepted(latitude, longitude) =>
      var closest := GetClosestPothole(nearby(latitude, longitude));
      match ChooseBranch(closest, threshold)
      case FailBranch =>
        sent := [SupabaseError()];
      case IncrementBranch(id) =>
        var errored := IncrementPothole(table, id, now, incrementFails);
        sent := [if errored then SupabaseError() else IncrementSuccess(Some(id))];
      case CreateBranch =>
        var potholeId := CreateNewPothole(table, longitude, latitude, now, insertFails);
        sent := [if potholeId.None? then SupabaseError() else PotholeCreationSuccess(potholeId)];
  }
}
