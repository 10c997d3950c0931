/**
 * The record shapes the API passes around (src/internal.types.ts), and the
 * row shape the `potholes_in_view` database function returns.
 */
module Types {
  import opened JsValues

  /** A pothole as the handlers return it after a merge. */
  datatype Pothole = Pothole(
    id: int,
    lat: JsNumber,
    long: JsNumber,
    reports: int,
    createdAt: string,
    lastReportedAt: string)

  /**
   * The public address of an object in a storage bucket. The storage client
   * derives the URL text from the bucket and the object key; the model keeps
   * the two parts that identify the object.
   */
  datatype Url = PublicUrl(bucket: string, key: string)

  /** Photo evidence attached to a pothole; `url` is derived from `id`, never stored. */
  datatype Image = Image(id: int, potholeId: int, createdAt: string, url: Url)

  /** A row of `potholes_in_view`, passed through to the client unchanged. */
  datatype ViewRow = ViewRow(id: int, lat: real, long: real, reports: int)
}
