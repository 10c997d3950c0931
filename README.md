# AIPotholeAPI — a Dafny model of the report, merge and alert layer

AIPotholeAPI is an Express HTTP API in front of a Supabase (PostgreSQL with
PostGIS) database and a Supabase storage bucket. Drivers' devices report
potholes and ask whether one is near. The API:

- merges a report into an existing pothole when the closest known one lies
  within a closeness threshold, and otherwise creates a new pothole;
- answers an alert query by comparing the closest pothole's distance with an
  alert threshold;
- lists the potholes inside a bounding box, deletes potholes, and stores
  image metadata in a table and the image binaries in a bucket.

The proximity search, the storage and the geocoding all run in external
services. What the repository's own code does is case analysis over the
replies of those services: validating request fields, choosing a branch,
sequencing backend calls, and mapping outcomes to fixed response records.
That layer is modelled here.

## Structure

One module per source file.

- `JsValues` (js_values.dfy) holds the JavaScript values the handlers see.
  These are the `any` request fields, JavaScript numbers (finite, ±Infinity,
  NaN), `Number(...)`, and the decimal rendering used when an integer id is
  placed in a template string. Lemmas prove that rendering is injective.
- `Types` (types.dfy) holds the records of src/internal.types.ts.
- `Responses` (responses.dfy) holds every response constructor as a
  status / code / type record, plus its message or payload.
- `RequestHandling` (request_handling.dfy) holds `verifyLatLong`, `isNumber`
  and `deduceAction`.
- `Backend` (backend.dfy) holds the external stores as classes: the
  `potholes` table, the `images` table and the `images` bucket. Each insert,
  update, select and delete is a method with a `fails` flag for the backend
  error. The specification functions `Incremented`, `Matching` and `Removed`
  state the new contents.
- `Rpcs` (rpcs.dfy) holds the three-state proximity translation and the
  create and increment calls of src/rpcs.ts.
- `ResourceOperations` (resource_operations.dfy) holds pothole creation,
  image creation (insert, then upload), image lookup and the `${id}.png`
  object key.
- `PotholeReporting` (pothole_reporting.dfy) holds the report-or-merge
  policy. The pure branch choice is `ChooseBranch`. The whole effect on the
  table is the function `ReportEffect`, and the method `ReportPothole` is
  proved to carry it out.
- `AdvancedAlerting` (advanced_alerting.dfy) holds the alert policy.
- `App` (app.dfy) holds the route handlers of src/app.ts. The action
  cascade, DELETE, GET `/potholes` and GET `/images` are modelled.
- `IndexHandler` (index_handler.dfy) holds the earlier handler of
  src/index.ts, which only supports `:report`.

External behaviour enters as parameters:

- the backend's error outcomes are `fails` flags;
- the clock is `now`;
- the `nearby_potholes` RPC is a function `nearby(lat, long)`, named by its
  lat and long arguments;
- the `potholes_in_view` RPC is `inView`;
- the geocoder's answer is `place`;
- JavaScript's string-to-number conversion is `strToNum`;
- `getImageResource` is `urlOf`;
- the two thresholds from the unshown `./constants` module are `threshold`
  arguments.

Where the code has a defect, the members named `...AsWritten` describe the
code as it reads, and a lemma beside each one shows the defect on a concrete
input. The handlers then use the corrected definition (see "## Findings").

Behaviours of the code worth knowing:

- The bounding-box check rejects only NaN, so an infinite bound passes
  (`App.InfiniteBoundAccepted`).
- `createInvalidQueryParametersError` names no parameter.
- Codes 7, 2 and 5 are each used by more than one response
  (`Responses.CodesAreReused`).
- With no potholes at all, `shouldAlert` throws (Finding 3).
- src/app.ts imports `createImageSuccess`, `createFailedImageCreationError`,
  `verifyBase64` and `getImageResource`. None of them exists in the shown
  src/responses.ts, src/request-handling.ts or src/resource-operations.ts,
  whose exports differ: `createResourceCreationSuccess`,
  `getImageResourceById` and `getImageUrl`.

## Model

| member | source | states |
|---|---|---|
| `RequestHandling.IsNumber` | src/request-handling.ts:23-25 | true exactly of JS numbers, NaN and the infinities included |
| `RequestHandling.VerifyLatLong` | src/request-handling.ts:6-11 | each field is returned unchanged exactly when it is a JS number, and is null otherwise |
| `RequestHandling.FieldsDecidedIndependently` | src/request-handling.ts:7-10 | the long component does not depend on lat, and the lat component does not depend on long |
| `RequestHandling.OnlyNumbersPass` | src/request-handling.ts:23-25 | a numeric string such as "40.0" is rejected; only `typeof === 'number'` passes |
| `RequestHandling.DeduceAction` | src/request-handling.ts:13-21 | `:alert` gives alert, `:report` gives report, and every other token gives undefined |
| `RequestHandling.BareTokensRejected` | src/request-handling.ts:18-20 | `alert`, `report` without the colon, and the empty token all give undefined |
| `Rpcs.GetClosestPothole` | src/rpcs.ts:32-51 | an RPC error gives Failure; zero rows give NotFound, which is distinct from Failure; otherwise the result is Found with the first row's id and its dist_meters unchanged |
| `Rpcs.CreateNewPothole` | src/rpcs.ts:4-20 | a throwing geocoder rejects before any insert, with the table unchanged and an outcome distinct from null; an insert error returns null and leaves the table unchanged; otherwise the new id is returned and exactly that row is added, with location POINT(long lat) and the geocoded address |
| `Rpcs.IncrementPothole` | src/rpcs.ts:22-30 | returns null (errored) iff the RPC errored; on success exactly that pothole's count goes up by one and its last-report time is set |
| `PotholeReporting.ChooseBranch` | src/pothole-reporting.ts:29-36 | Failure goes to the error branch; NotFound, or a distance above the threshold, creates; a distance at or below the threshold increments that pothole's id; each branch is characterised in both directions |
| `PotholeReporting.ThresholdTieMerges` | src/pothole-reporting.ts:35 | a pothole exactly at the threshold distance is merged into, because the comparison is a strict `>` |
| `PotholeReporting.ClosestInfo` | src/pothole-reporting.ts:65-82 | undefined on error or an empty result; otherwise the first row's id, count and timestamps, with the report's own lat and long, since no selected column overrides them |
| `PotholeReporting.CreationOutcomeAsWritten` | src/pothole-reporting.ts:37-47 | as written, the create branch reports a creation for every insert result, the null of a failed insert included |
| `PotholeReporting.FailedInsertReportedAsCreation` | src/pothole-reporting.ts:38 | as written, a failed insert yields the outcome creation of null, not error |
| `PotholeReporting.CreationOutcome` | src/pothole-reporting.ts:37-47 | corrected: the outcome is error iff the insert returned null, and creation with the new id otherwise |
| `PotholeReporting.IncrementOutcome` | src/pothole-reporting.ts:50-60 | the outcome is increment iff the increment succeeded and the re-fetch found the row, and it then carries the fetched record; otherwise it is error |
| `PotholeReporting.ReportEffect` | src/pothole-reporting.ts:23-62 | a lookup failure is error with the table unchanged. Create adds exactly the new row (count 1, POINT(long lat)) and changes nothing else. Increment bumps exactly the closest pothole, creates nothing and returns increment only if the increment and the re-fetch succeeded. The merged record holds the pre-increment count. |
| `PotholeReporting.CreateNeverIncrements` | src/pothole-reporting.ts:33-47 | on the create branch every existing pothole keeps its row, its count included |
| `PotholeReporting.IncrementCreatesNothing` | src/pothole-reporting.ts:48-61 | on the increment branch the set of pothole ids is unchanged |
| `PotholeReporting.CountedButReportedAsError` | src/pothole-reporting.ts:50-54 | if the re-fetch fails but the increment succeeds, the report is counted and yet the outcome is error |
| `PotholeReporting.ReportPothole` | src/pothole-reporting.ts:23-62 | the lookup, create, re-fetch and increment steps produce exactly the outcome and table that ReportEffect gives |
| `AdvancedAlerting.AlertDecisionAsWritten` | src/advanced-alerting.ts:6-9 | as written: false for undefined, a thrown TypeError for null, otherwise `distance <= threshold` |
| `AdvancedAlerting.NoPotholesThrowsAsWritten` | src/advanced-alerting.ts:9 | as written, with no potholes at all the decision throws instead of answering |
| `AdvancedAlerting.AlertDecision` | src/advanced-alerting.ts:6-9 | corrected: alert iff a pothole was found and its distance is at most the threshold |
| `AdvancedAlerting.ShouldAlertAsWritten` | src/advanced-alerting.ts:4-10 | as written, with parameters (long, lat) passed on as the lookup (lat, long); the result holds exactly when the first row of that lookup is within the threshold |
| `AdvancedAlerting.CallerOrderSwapsQuery` | src/advanced-alerting.ts:4-5 | the route calls `shouldAlert(lat, long)`, so a pothole at the reported point can be missed: the as-written result is false where the corrected one is true |
| `AdvancedAlerting.ShouldAlert` | src/advanced-alerting.ts:4-10 | corrected: true iff the lookup at the reported point has a first row within the threshold, and false without a match |
| `AdvancedAlerting.AlertFailsSafe` | src/advanced-alerting.ts:6-8 | a failed lookup and an empty one both give false |
| `AdvancedAlerting.ThresholdTieAlerts` | src/advanced-alerting.ts:9 | a pothole exactly at the alert threshold alerts, in both the as-written and the corrected decision |
| `Responses.ResourceCreationSuccess` | src/responses.ts:31-42 | 200, code 1, type Success, with the image as data and a message that contains its id |
| `Responses.ResourceCreationFailureInternal` | src/responses.ts:44-54 | 500, code 2, type Error |
| `Responses.InvalidBase64Error` | src/responses.ts:56-67 | 400, code 11, type error |
| `Responses.InvalidIDParameter` | src/responses.ts:69-80 | 400, code 10, type error |
| `Responses.InvalidJSONBodyElement` | src/responses.ts:82-95 | 400, code 9, type error, and the message contains the invalid element's name |
| `Responses.PotholeGetSuccess` | src/responses.ts:97-109 | 200, code 6, type success, with the given potholes unchanged as the result |
| `Responses.ResourceDeletionError` | src/responses.ts:111-122 | 405, code 7, type error |
| `Responses.ResourceDeletionSuccess` | src/responses.ts:124-135 | 405, code 8, type success |
| `Responses.InvalidQueryParametersError` | src/responses.ts:137-148 | 400, code 7, type error |
| `Responses.InvalidActionFormatError` | src/responses.ts:150-162 | 422, code 5, type error |
| `Responses.UnsupportedActionError` | src/responses.ts:164-175 | 404, code 4, type error |
| `Responses.PotholeCreationSuccess` | src/responses.ts:177-188 | 200, code 2, type success, and the message contains the rendered id (`undefined` when there is none) |
| `Responses.AlertSuccess` | src/responses.ts:190-204 | 200, code 5, type success, and the result's alert flag equals the argument |
| `Responses.IncrementSuccess` | src/responses.ts:206-217 | 200, code 3, type success, and the message contains the rendered id |
| `Responses.SupabaseError` | src/responses.ts:219-230 | 500, code 2, type error |
| `Responses.MissingBodyElementError` | src/responses.ts:232-245 | 422, code 1, type error, and the message contains the parameter's name |
| `Responses.NotImplementedResponse` | src/responses.ts:247-253 | a bare body with type error and code 0 |
| `Responses.CreationAndMergeDistinguishable` | src/responses.ts:177-217 | creation success (code 2) and increment success (code 3) always differ |
| `Responses.CodesAreReused` | src/responses.ts:111-148 | codes are not unique: 7 is both the deletion and the query-parameter error, 2 is used three times, and 5 is both the format error and alert success |
| `Responses.DeletionResponsesAre405` | src/responses.ts:111-135 | both deletion responses have status 405, the success included |
| `ResourceOperations.ImageKey` | src/resource-operations.ts:122 | the object key is the decimal id followed by `.png` |
| `ResourceOperations.ImageKeyInjective` | src/resource-operations.ts:90 | distinct image ids never share an object key |
| `ResourceOperations.GetImageUrl` | src/resource-operations.ts:87-92 | the public URL of the `images` bucket object whose key is the one the upload used |
| `ResourceOperations.ImageUrlInjective` | src/resource-operations.ts:87-92 | distinct image ids give distinct URLs |
| `ResourceOperations.CreateNewPothole` | src/resource-operations.ts:17-31 | takes (lat, long) but stores POINT(long lat) with no address; null on error with the table unchanged; otherwise the new id is returned and exactly that row is added |
| `ResourceOperations.UploadImage` | src/resource-operations.ts:119-131 | undefined on error with the bucket unchanged; otherwise the path is the `${id}.png` key and exactly that object is written |
| `ResourceOperations.CreateNewImageResource` | src/resource-operations.ts:49-85 | A failed insert is creation error, with no upload and nothing changed. A failed upload is upload error, and the inserted row stays. On success the image has the new id, the given pothole id, the row's creation time and the URL of the uploaded key. |
| `ResourceOperations.GetImageResourceById` | src/resource-operations.ts:94-117 | undefined on error, null when no row has the id, and otherwise the image with the requested id, its row's fields and its URL |
| `App.ActionDispatch` | src/app.ts:51-83 | Latitude is checked before longitude, and both before the action token. An unsupported token gives the 404. Only `:alert` and `:report` pass, each iff both fields are numbers, and their values pass through unchanged. |
| `App.BodyErrorsComeFirst` | src/app.ts:54-75 | with an invalid latitude only the latitude error is sent, whatever the longitude and the token are |
| `App.ReportResponseAsWritten` | src/app.ts:84-103 | as written, both success responses are built from `reportOutcome.id`, which is undefined |
| `App.CreationMessageSaysUndefined` | src/app.ts:86-97 | as written, the creation and increment messages announce the id `undefined` |
| `App.ReportResponse` | src/app.ts:84-103 | corrected: creation maps to creation success containing the new id, increment to increment success containing the merged id, and error to the 500; each one-to-one |
| `App.HandlePotholeAction` | src/app.ts:51-104 | a rejected request sends the rejection and leaves the table unchanged; `:alert` sends the alert answer and leaves the table unchanged; `:report` has exactly ReportEffect's effect and sends its mapped response |
| `App.DeletionResponse` | src/app.ts:122-130 | success iff neither the delete nor the existence check errored and a row existed; otherwise the deletion error |
| `App.DeletePothole` | src/app.ts:106-131 | a NaN id is rejected before any table access. Otherwise the delete runs regardless of the existence check, removes exactly the matching row unless it errored, and the response follows DeletionResponse. |
| `App.GetPotholes` | src/app.ts:133-178 | any NaN bound gives the query-parameter error; an RPC error gives the 500; otherwise the response holds `data`, or `[]` when `data` is null |
| `App.NaNBoundIgnoresRpc` | src/app.ts:148-158 | when any of the four bounds is NaN, the response does not depend on the RPC at all |
| `App.InfiniteBoundAccepted` | src/app.ts:148-153 | an infinite bound is not rejected: only NaN is checked |
| `App.WithUrls` | src/app.ts:275-281 | one entry per row, in query order, each with the row's id and time and `url = getImageResource(id)` |
| `App.GetImages` | src/app.ts:242-285 | no `potholeId` returns without a reply; a query error sends 500 with the text `supabase error`; otherwise the list WithUrls builds |
| `IndexHandler.ActionCheckAsWritten` | src/index.ts:34-47 | as written, every token but `:report` gets the 404, and a token without the leading colon gets the 422 before it |
| `IndexHandler.BadFormatSendsTwiceAsWritten` | src/index.ts:35-46 | as written, a bare `report` sends twice: the 422, then a 404 |
| `IndexHandler.ActionCheck` | src/index.ts:34-47 | corrected: exactly one response for every token but `:report`, the format error when the colon is missing and the unsupported-action error otherwise |
| `IndexHandler.ValidateReport` | src/index.ts:33-69 | The token is checked first, then `Number(longitude)`, then `Number(latitude)`. A NaN coordinate gives 422 code 1 naming that field. It is accepted iff the token is `:report` and neither number is NaN. |
| `IndexHandler.NumericStringsAccepted` | src/index.ts:54-55 | unlike the later handler, a numeric string and `null` pass `Number()` |
| `IndexHandler.ClosestPotholeAsWritten` | src/index.ts:140-155 | as written: an error gives undefined, an empty result throws, and otherwise the first row is used |
| `IndexHandler.EmptyTableThrowsAsWritten` | src/index.ts:150 | as written, with an empty table the lookup throws, where the corrected lookup answers NotFound |
| `IndexHandler.CreateNewPothole` | src/index.ts:114-128 | stores POINT(long lat) with no address; null on error with the table unchanged; otherwise exactly the new row is added |
| `IndexHandler.HandleReport` | src/index.ts:32-112 | rejection responses touch nothing and a lookup error gives the 500. Within the threshold (inclusive) it increments exactly the closest pothole and sends increment success with its id, or the 500. Otherwise it creates exactly one row and sends creation success with the new id, or the 500. Exactly one response is sent. |

## Left out

- Express and cors setup, `app.listen`, the `res.status` / `res.send` plumbing, and `console.log`. A handler is a value-returning function or method; in src/index.ts it returns the sequence of responses sent.
- src/supabase.ts is not part of this model. It is the construction of an external client.
- src/google-api.ts is not part of this model. It is network reverse geocoding; its answer enters `Rpcs.CreateNewPothole` as the `place` parameter, `None` standing for any throw of `getLocation` (a failed fetch, or a missing result or address component). Which responses make it throw is not modelled.
- src/database.types.ts and the root index.ts (a 501 stub) are not part of this model. The pothole row mirrors only the columns the core writes.
- The geospatial distance computation inside the `nearby_potholes` and `potholes_in_view` RPCs. The RPCs are parameters, and distances are `real` values that are only compared.
- The unshown `./constants` module: both thresholds are parameters.
- POST `/images` (src/app.ts:180-218): it calls `verifyBase64`, `createFailedImageCreationError` and `createImageSuccess`, which the shown sources do not define, and reads `result.id`, which the outcome does not carry. The operation it drives, `ResourceOperations.CreateNewImageResource`, is modelled.
- GET `/images/:id` (src/app.ts:220-240): it calls `getImageResource`, which the shown sources do not define. Elsewhere it enters as the parameter `urlOf`.
- Base64 decoding (a foreign library): the bucket stores the encoding string as given.
- The duplicate-creation race between the proximity lookup and the insert. Every handler is modelled as one uninterrupted run.
- Floating point: coordinates are JS numbers with a `real` finite part, and distances are `real`. JavaScript's string-to-number conversion is the parameter `strToNum`, and `Number()` of an object goes through its string text.
- The text rendering of coordinates in `POINT(${long} ${lat})`: the location is the structured value `WktPoint(x, y)`, which keeps the longitude-first order.
- The SQL body of the `increment` function is not shown. It is modelled as the count going up by one and the last-report time becoming `now`; the creation time and the expiry column are not modelled.
- The `expiresAt` column that `closestInfoHelper` selects is dropped from the merged record.
- A non-integral numeric id matches no row in `.eq('id', id)`, and the model keeps that rule. Whether PostgreSQL rejects such a comparison instead is not modelled.
- `createUnsupportedActionError` takes no parameter, so the argument src/index.ts passes it (src/index.ts:41-43) has no effect, as in the source.
- App.GetImages: takes the query's rows as given. The `pothole_id` filter and the newest-first ordering are the database's.
- `getPotholeById`, imported by src/pothole-reporting.ts, is not defined in the shown src/resource-operations.ts and is never called.

## Findings

| source | as written | input that shows it | evidently intended | confidence | as-written member | corrected member |
|---|---|---|---|---|---|---|
| src/pothole-reporting.ts:38 | the create branch tests `pothole === undefined`, but createNewPothole returns `number \| null` | an insert that errors: createNewPothole returns null, and the outcome is `'creation'` with pothole null | test for `null`, so that a failed insert is `'error'` | high; not executed | `PotholeReporting.FailedInsertReportedAsCreation` | `PotholeReporting.CreationOutcome` |
| src/app.ts:88 | both success cases read `reportOutcome.id`, which the outcome type does not have | any successful report: the message reads "Successfully created pothole with id undefined." | the created id, or the merged pothole's `id` | high; not executed | `App.CreationMessageSaysUndefined` | `App.ReportResponse` |
| src/advanced-alerting.ts:6-9 | only `undefined` is handled before `closest.distance` is read | an alert query against an empty table: getClosestPothole returns null and the handler throws a TypeError | answer `false` when there is no pothole | high; not executed | `AdvancedAlerting.NoPotholesThrowsAsWritten` | `AdvancedAlerting.AlertDecision` |
| src/advanced-alerting.ts:4-5 | declared `(long, lat)` while src/app.ts:78 calls `shouldAlert(lat, long)`, so the lookup runs at the swapped point | a pothole at the reported point, with the swapped point more than the threshold from any pothole: the result is false | look up the reported point | high; not executed | `AdvancedAlerting.CallerOrderSwapsQuery` | `AdvancedAlerting.ShouldAlert` |
| src/index.ts:35-39 | no `return` after sending the invalid-format error | action `report`: the 422 is sent, then a second send of the 404 | send only the format error | high; not executed | `IndexHandler.BadFormatSendsTwiceAsWritten` | `IndexHandler.ActionCheck` |
| src/index.ts:150 | `data[0]` is destructured without an emptiness check | the first report against an empty table: the handler throws, so no pothole can ever be created | treat no rows as "no pothole" and create one | high; not executed | `IndexHandler.EmptyTableThrowsAsWritten` | `Rpcs.GetClosestPothole` |
