/**
 * The proximity gateway (src/rpcs.ts): the `nearby_potholes` lookup
 * translated to a three-state result, and the `increment` and insert
 * operations on the pothole table.
 */
module Rpcs {
  import opened JsValues
  import opened Backend

  /** A row of `nearby_potholes`, closest first; only `id` and `dist_meters` are read. */
  datatype NearbyRow = NearbyRow(id: int, distMeters: real)

  /**
   * The lookup's outcome. In the source these are `undefined` (the call
   * failed), `null` (no rows) and `{ id, distance }`.
   */
  datatype Proximity = Failure | NotFound | Found(id: int, distance: real)

  /**
   * The `nearby_potholes` RPC, called with its named arguments `lat` and
   * `long`. Which rows it returns is decided by the database.
   */
  type NearbyRpc = (JsNumber, JsNumber) -> QueryResult<NearbyRow>

  /** An error is never a match, no rows is not an error, and a match is the first row as it came. */
  function GetClosestPothole(reply: QueryResult<NearbyRow>): (p: Proximity)
    ensures p.Failure? <==> reply.QueryError?
    ensures p.NotFound? <==> reply == Rows([])
    ensures p.Found? <==> reply.Rows? && |reply.rows| > 0
    ensures p.Found? ==> p.id == reply.rows[0].id && p.distance == reply.rows[0].distMeters
  {
    match reply
    case QueryError => Failure
    case Rows(rows) =>
      if |rows| == 0 then NotFound
      else Found(rows[0].id, rows[0].distMeters)
  }

  /**
   * What `createNewPothole` of this file produces: it rejects (throws) when
   * the reverse-geocoding step throws, before any insert; otherwise it
   * returns the new id, or `null` (`None`) when the insert errored.
   */
  datatype CreateOutcome = GeocoderThrew | Returned(id: Option<int>)

  /**
   * The variant that also stores the reverse-geocoded address. `place` is
   * what `getLocation` yields, `None` when it throws (a failed fetch, or a
   * missing result or address component). The location is `POINT(long lat)`:
   * the longitude goes first.
   */
  method CreateNewPothole(
    table: PotholeTable, long: JsNumber, lat: JsNumber, place: Option<Place>, now: string, fails: bool)
    returns (o: CreateOutcome)
    requires table.Valid()
    modifies table
    ensures table.Valid()
    ensures place.None? ==> o == GeocoderThrew && table.rows == old(table.rows)
    ensures place.Some? && fails ==> o == Returned(None) && table.rows == old(table.rows)
    ensures place.Some? && !fails ==> o == Returned(Some(old(table.nextId))) && old(table.nextId) !in old(table.rows)
    ensures place.Some? && !fails ==>
      table.rows == old(table.rows)[old(table.nextId) := NewPotholeRow(WktPoint(long, lat), place, now)]
  {
    if place.None? {
      return GeocoderThrew;
    }
    var id := table.Insert(WktPoint(long, lat), place, now, fails);
    o := Returned(id);
  }

  /** `null` exactly when the RPC errored (here `true`), otherwise `undefined` (here `false`). */
  method IncrementPothole(table: PotholeTable, id: int, now: string, fails: bool) returns (errored: bool)
    requires table.Valid()
    modifies table
    ensures table.Valid()
    ensures errored == fails
    ensures table.rows == if fails then old(table.rows) else Incremented(old(table.rows), id, now)
    ensures table.nextId == old(table.nextId)
  {
    errored := table.Increment(id, now, fails);
  }
}
