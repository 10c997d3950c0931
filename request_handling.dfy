/**
 * Input validation for the combined report/alert endpoint
 * (src/request-handling.ts): the latitude/longitude body fields and the
 * action token taken from the path.
 */
module RequestHandling {
  import opened JsValues

  /** `typeof v === 'number'`. NaN and the infinities are numbers; "40.0" is not. */
  function IsNumber(v: JsValue): (b: bool)
    ensures b <==> !(v.Undefined? || v.Null? || v.Bool? || v.Str? || v.Object?)
  {
    v.Number?
  }

  /** Each field is either the number it held or `null`. */
  datatype LatLong = LatLong(lat: Option<JsNumber>, long: Option<JsNumber>)

  function VerifyLatLong(lat: JsValue, long: JsValue): (r: LatLong)
    ensures r.lat.Some? <==> IsNumber(lat)
    ensures r.lat.Some? ==> Number(r.lat.value) == lat
    ensures r.long.Some? <==> IsNumber(long)
    ensures r.long.Some? ==> Number(r.long.value) == long
  {
    LatLong(
      if IsNumber(lat) then Some(lat.n) else None,
      if IsNumber(long) then Some(long.n) else None)
  }

  /** One invalid field never nulls the other: each is decided on its own. */
  lemma FieldsDecidedIndependently(lat: JsValue, otherLat: JsValue, long: JsValue, otherLong: JsValue)
    ensures VerifyLatLong(lat, long).long == VerifyLatLong(otherLat, long).long
    ensures VerifyLatLong(lat, long).lat == VerifyLatLong(lat, otherLong).lat
  {
  }

  /** Numeric strings are rejected, and so are `null`, booleans and a missing field. */
  lemma OnlyNumbersPass(s: string, long: JsValue)
    ensures VerifyLatLong(Str(s), long).lat == None
    ensures VerifyLatLong(Null, long).lat == None
    ensures VerifyLatLong(Undefined, long).lat == None
    ensures VerifyLatLong(Bool(true), long).lat == None
  {
  }

  datatype Action = Alert | Report

  /** The action token, colon included; anything else is `undefined`. */
  function DeduceAction(action: string): (r: Option<Action>)
    ensures r == Some(Alert) <==> action == ":alert"
    ensures r == Some(Report) <==> action == ":report"
    ensures r == None <==> action != ":alert" && action != ":report"
  {
    if action == ":alert" then Some(Alert)
    else if action == ":report" then Some(Report)
    else None
  }

  /** Tokens without the colon, and the empty token, are not actions. */
  lemma BareTokensRejected()
    ensures DeduceAction("alert") == None
    ensures DeduceAction("report") == None
    ensures DeduceAction("") == None
  {
  }
}
