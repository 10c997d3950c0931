/**
 * Resource operations (src/resource-operations.ts): creating a pothole row,
 * creating an image (metadata row first, then the binary upload), reading an
 * image back, and the object key both the upload and the public URL use.
 */
module ResourceOperations {
  import opened JsValues
  import opened Types
  import opened Backend

  /** The bucket key of an image: `${id}.png`. */
  function ImageKey(id: int): (key: string)
    ensures |key| > 4 && key[|key| - 4..] == ".png"
    ensures key[..|key| - 4] == IntToString(id)
  {
    IntToString(id) + ".png"
  }

  /** Distinct images never share an object key. */
  lemma ImageKeyInjective(a: int, b: int)
    requires ImageKey(a) == ImageKey(b)
    ensures a == b
  {
    var ka := ImageKey(a);
    assert IntToString(a) == ka[..|ka| - 4] == IntToString(b);
    IntToStringInjective(a, b);
  }

  /** `getImageUrl`: the public URL of the `images` object keyed by the id. */
  function GetImageUrl(id: int): (u: Url)
    ensures u.bucket == "images" && u.key == ImageKey(id)
  {
    PublicUrl("images", ImageKey(id))
  }

  /** Different image ids give different URLs. */
  lemma ImageUrlInjective(a: int, b: int)
    requires GetImageUrl(a) == GetImageUrl(b)
    ensures a == b
  {
    ImageKeyInjective(a, b);
  }

  /**
   * This variant takes `(lat, long)` but still stores `POINT(long lat)`,
   * longitude first. The `null` of a failed insert is `None`.
   */
  method CreateNewPothole(table: PotholeTable, lat: JsNumber, long: JsNumber, now: string, fails: bool)
    returns (id: Option<int>)
    requires table.Valid()
    modifies table
    ensures table.Valid()
    ensures fails ==> id == None && table.rows == old(table.rows)
    ensures !fails ==> id == Some(old(table.nextId)) && old(table.nextId) !in old(table.rows)
    ensures !fails ==> table.rows == old(table.rows)[old(table.nextId) := NewPotholeRow(WktPoint(long, lat), None, now)]
  {
    id := table.Insert(WktPoint(long, lat), None, now, fails);
  }

  /** `uploadImage`: upload under `${id}.png`; `None` stands for `undefined` on error. */
  method UploadImage(bucket: Bucket, id: int, encoding: string, fails: bool) returns (path: Option<string>)
    modifies bucket
    ensures fails ==> path == None && bucket.objects == old(bucket.objects)
    ensures !fails ==> path == Some(ImageKey(id)) && bucket.objects == old(bucket.objects)[ImageKey(id) := encoding]
  {
    path := bucket.Upload(ImageKey(id), encoding, fails);
  }

  datatype NewImageOutcome = CreationError | UploadError | CreationSuccess(image: Image)

  /**
   * Inserts the metadata row, then uploads the binary. A failed insert stops
   * before any upload; a failed upload leaves the inserted row in place.
   */
  method CreateNewImageResource(
    images: ImageTable, bucket: Bucket, potholeId: int, encoding: string, now: string,
    insertFails: bool, uploadFails: bool)
    returns (o: NewImageOutcome)
    requires images.Valid()
    modifies images, bucket
    ensures images.Valid()
    ensures insertFails ==> o == CreationError
    ensures insertFails ==> images.rows == old(images.rows) && bucket.objects == old(bucket.objects)
    ensures !insertFails ==> old(images.nextId) !in old(images.rows)
    ensures !insertFails ==> images.rows == old(images.rows)[old(images.nextId) := ImageRow(potholeId, now)]
    ensures !insertFails && uploadFails ==> o == UploadError && bucket.objects == old(bucket.objects)
    ensures !insertFails && !uploadFails ==>
      var id := old(images.nextId);
      && o == CreationSuccess(Image(id, potholeId, now, GetImageUrl(id)))
      && bucket.objects == old(bucket.objects)[ImageKey(id) := encoding]
  {
    var inserted := images.Insert(potholeId, now, insertFails);
    if inserted.None? {
      return CreationError;
    }
    var id := inserted.value;
    var path := UploadImage(bucket, id, encoding, uploadFails);
    if path.None? {
      return UploadError;
    }
    o := CreationSuccess(Image(id, potholeId, now, GetImageUrl(id)));
  }

  /** The source's `Image | null | undefined`. */
  datatype ImageLookup = LookupFailed | NoSuchImage | FoundImage(image: Image)

  /** `undefined` on error, `null` when no row has the id, otherwise the image with the requested id. */
  method GetImageResourceById(images: ImageTable, id: int, fails: bool) returns (r: ImageLookup)
    ensures fails ==> r == LookupFailed
    ensures !fails && id !in images.rows ==> r == NoSuchImage
    ensures !fails && id in images.rows ==>
      r == FoundImage(Image(id, images.rows[id].potholeId, images.rows[id].createdAt, GetImageUrl(id)))
  {
    var q := images.Select(id, fails);
    if q.QueryError? {
      return LookupFailed;
    }
    if |q.rows| == 0 {
      return NoSuchImage;
    }
    var row := q.rows[0].1;
    r := FoundImage(Image(id, row.potholeId, row.createdAt, GetImageUrl(id)));
  }
}
