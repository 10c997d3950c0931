/**
 * The response table (src/responses.ts): every constructor builds a fixed
 * record of HTTP status, envelope type and numeric code, with a message that
 * may name an id or a field.
 *
 * The source uses three envelope shapes, and the model keeps them apart:
 *   Flat            `{ type, code, message, data? }` with `type` 'Success' or 'Error'
 *   ErrorEnvelope   `{ type: 'error', error: { code, message } }`
 *   SuccessEnvelope `{ type: 'success', data: { code, message, result? } }`
 */
module Responses {
  import opened JsValues
  import opened Types

  /** What a success body carries besides its code and message. */
  datatype Payload =
    | NoPayload
    | ImagePayload(image: Image)
    | PotholeList(potholes: seq<ViewRow>)
    | AlertPayload(alert: bool)

  datatype Body =
    | Flat(tag: string, code: int, message: string, data: Payload)
    | ErrorEnvelope(code: int, message: string)
    | SuccessEnvelope(code: int, message: string, result: Payload)
  {
    /** The `type` field as sent on the wire. */
    function Type(): string
    {
      match this
      case Flat(tag, _, _, _) => tag
      case ErrorEnvelope(_, _) => "error"
      case SuccessEnvelope(_, _, _) => "success"
    }
  }

  datatype ResponseInfo = ResponseInfo(status: int, body: Body)

  function ResourceCreationSuccess(image: Image): (r: ResponseInfo)
    ensures r.status == 200 && r.body.code == 1 && r.body.Type() == "Success"
    ensures r.body.Flat? && r.body.data == ImagePayload(image)
    ensures Contains(r.body.message, IntToString(image.id))
  {
    var prefix := "The image was successfully created with id ";
    ContainsMiddle(prefix, IntToString(image.id), ".");
    ResponseInfo(200, Flat("Success", 1, prefix + IntToString(image.id) + ".", ImagePayload(image)))
  }

  function ResourceCreationFailureInternal(): (r: ResponseInfo)
    ensures r.status == 500 && r.body.code == 2 && r.body.Type() == "Error"
  {
    ResponseInfo(500, Flat("Error", 2, "The specified resource was not created due to an internal error.", NoPayload))
  }

  function InvalidBase64Error(): (r: ResponseInfo)
    ensures r.status == 400 && r.body.code == 11 && r.body.Type() == "error"
  {
    ResponseInfo(400, ErrorEnvelope(11, "Invalid base64 image encoding."))
  }

  function InvalidIDParameter(): (r: ResponseInfo)
    ensures r.status == 400 && r.body.code == 10 && r.body.Type() == "error"
  {
    ResponseInfo(400, ErrorEnvelope(10, "Invalid parameter 'id'."))
  }

  /** A body field that is missing or not a number; the message names the field. */
  function InvalidJSONBodyElement(invalidElement: string): (r: ResponseInfo)
    ensures r.status == 400 && r.body.code == 9 && r.body.Type() == "error"
    ensures Contains(r.body.message, invalidElement)
  {
    var prefix := "Invalid JSON element '";
    var suffix := "' in request body";
    ContainsMiddle(prefix, invalidElement, suffix);
    ResponseInfo(400, ErrorEnvelope(9, prefix + invalidElement + suffix))
  }

  /** The potholes in view, handed back unchanged as `result`. */
  function PotholeGetSuccess(potholes: seq<ViewRow>): (r: ResponseInfo)
    ensures r.status == 200 && r.body.code == 6 && r.body.Type() == "success"
    ensures r.body.SuccessEnvelope? && r.body.result == PotholeList(potholes)
  {
    ResponseInfo(200, SuccessEnvelope(6, "Successfully retrieved potholes.", PotholeList(potholes)))
  }

  function ResourceDeletionError(): (r: ResponseInfo)
    ensures r.status == 405 && r.body.code == 7 && r.body.Type() == "error"
  {
    ResponseInfo(405, ErrorEnvelope(7, "The requested resource could not be deleted."))
  }

  function ResourceDeletionSuccess(): (r: ResponseInfo)
    ensures r.status == 405 && r.body.code == 8 && r.body.Type() == "success"
  {
    ResponseInfo(405, SuccessEnvelope(8, "The specified resource was successfully deleted.", NoPayload))
  }

  function InvalidQueryParametersError(): (r: ResponseInfo)
    ensures r.status == 400 && r.body.code == 7 && r.body.Type() == "error"
  {
    ResponseInfo(400, ErrorEnvelope(7, "Could not parse query parameters."))
  }

  function InvalidActionFormatError(): (r: ResponseInfo)
    ensures r.status == 422 && r.body.code == 5 && r.body.Type() == "error"
  {
    ResponseInfo(422, ErrorEnvelope(5, "Invalid action format. Actions must follow the format '.../...:<action>'."))
  }

  function UnsupportedActionError(): (r: ResponseInfo)
    ensures r.status == 404 && r.body.code == 4 && r.body.Type() == "error"
  {
    ResponseInfo(404, ErrorEnvelope(4, "Unsupported action. Supported actions are ':report' and ':alert'."))
  }

  /** The id is the value interpolated into the message; `None` renders as `undefined`. */
  function PotholeCreationSuccess(id: Option<int>): (r: ResponseInfo)
    ensures r.status == 200 && r.body.code == 2 && r.body.Type() == "success"
    ensures Contains(r.body.message, RenderId(id))
  {
    var prefix := "Successfully created pothole with id ";
    ContainsMiddle(prefix, RenderId(id), ".");
    ResponseInfo(200, SuccessEnvelope(2, prefix + RenderId(id) + ".", NoPayload))
  }

  /** The alert flag is handed back unchanged as `result.alert`. */
  function AlertSuccess(alert: bool): (r: ResponseInfo)
    ensures r.status == 200 && r.body.code == 5 && r.body.Type() == "success"
    ensures r.body.SuccessEnvelope? && r.body.result == AlertPayload(alert)
  {
    ResponseInfo(200, SuccessEnvelope(5, "Successfully checked for nearby potholes.", AlertPayload(alert)))
  }

  function IncrementSuccess(id: Option<int>): (r: ResponseInfo)
    ensures r.status == 200 && r.body.code == 3 && r.body.Type() == "success"
    ensures Contains(r.body.message, RenderId(id))
  {
    var prefix := "Successfully incremented pothole with id ";
    ContainsMiddle(prefix, RenderId(id), ".");
    ResponseInfo(200, SuccessEnvelope(3, prefix + RenderId(id) + ".", NoPayload))
  }

  function SupabaseError(): (r: ResponseInfo)
    ensures r.status == 500 && r.body.code == 2 && r.body.Type() == "error"
  {
    ResponseInfo(500, ErrorEnvelope(2, "Something went wrong on Supabase's end."))
  }

  function MissingBodyElementError(missingParameter: string): (r: ResponseInfo)
    ensures r.status == 422 && r.body.code == 1 && r.body.Type() == "error"
    ensures Contains(r.body.message, missingParameter)
  {
    var prefix := "Missing parameter '";
    ContainsMiddle(prefix, missingParameter, "'.");
    ResponseInfo(422, ErrorEnvelope(1, prefix + missingParameter + "'."))
  }

  /** A bare body, not a ResponseInfo: the source exports it as a constant. */
  function NotImplementedResponse(): (b: Body)
    ensures b.code == 0 && b.Type() == "error"
  {
    ErrorEnvelope(0, "Not implemented.")
  }

  /** A created pothole and a merged one are told apart by their codes, whatever the ids. */
  lemma CreationAndMergeDistinguishable(created: Option<int>, merged: Option<int>)
    ensures PotholeCreationSuccess(created).body.code != IncrementSuccess(merged).body.code
  {
  }

  /**
   * Codes are not unique: code 7 is both the deletion error and the
   * query-parameter error, both with type 'error', and code 2 is both the
   * pothole-creation success and two internal-error responses.
   */
  lemma CodesAreReused()
    ensures ResourceDeletionError().body.code == InvalidQueryParametersError().body.code == 7
    ensures ResourceDeletionError().body.Type() == InvalidQueryParametersError().body.Type()
    ensures ResourceDeletionError() != InvalidQueryParametersError()
    ensures SupabaseError().body.code == ResourceCreationFailureInternal().body.code
            == PotholeCreationSuccess(None).body.code == 2
    ensures AlertSuccess(false).body.code == InvalidActionFormatError().body.code == 5
  {
  }

  /** Both deletion responses carry status 405, the success included. */
  lemma DeletionResponsesAre405()
    ensures ResourceDeletionSuccess().status == ResourceDeletionError().status == 405
  {
  }
}
