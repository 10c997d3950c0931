/**
 * The external backend the API delegates all durable state to: the
 * `potholes` and `images` tables and the `images` storage bucket.
 *
 * Each operation the API issues is a method that can fail; whether the
 * backend reports an error is not decided here, so it is the parameter
 * `fails`. Timestamps come from the database clock, passed in as `now`.
 * Ids are assigned by the table, one greater each time.
 */
module Backend {
  import opened JsValues

  /** The `{ data, error }` a query or RPC yields: an error, or its rows in order. */
  datatype QueryResult<T> = QueryError | Rows(rows: seq<T>)

  /** The geometry text `POINT(x y)`: the first coordinate is x (longitude), the second y (latitude). */
  datatype WktPoint = WktPoint(x: JsNumber, y: JsNumber)

  /** Reverse-geocoded address parts, stored only at creation. */
  datatype Place = Place(street: string, city: string, county: string)

  datatype PotholeRow = PotholeRow(
    location: WktPoint,
    place: Option<Place>,
    reports: int,
    createdAt: string,
    lastReportedAt: string)

  /**
   * A freshly inserted pothole: the insert gives only the location (and the
   * address parts), so `reports` and both timestamps are the table's
   * defaults, a count of 1 and the insertion time.
   */
  function NewPotholeRow(location: WktPoint, place: Option<Place>, now: string): (row: PotholeRow)
    ensures row.location == location && row.place == place
    ensures row.reports == 1 && row.createdAt == now && row.lastReportedAt == now
  {
    PotholeRow(location, place, 1, now, now)
  }

  /** The table after the `increment` function ran for `id`. */
  function Incremented(rows: map<int, PotholeRow>, id: int, now: string): (r: map<int, PotholeRow>)
    ensures r.Keys == rows.Keys
    ensures forall k | k in rows && k != id :: r[k] == rows[k]
    ensures id in rows ==> r[id].reports == rows[id].reports + 1 && r[id].lastReportedAt == now
    ensures id in rows ==> r[id].location == rows[id].location && r[id].place == rows[id].place
    ensures id in rows ==> r[id].createdAt == rows[id].createdAt
  {
    if id in rows then rows[id := rows[id].(reports := rows[id].reports + 1, lastReportedAt := now)] else rows
  }

  /** The rows an `.eq('id', id)` filter selects, with their keys. */
  function Matching<R>(rows: map<int, R>, id: JsNumber): (m: seq<(int, R)>)
    ensures |m| <= 1
    ensures |m| == 1 <==> KeyOf(id).Some? && KeyOf(id).value in rows
    ensures |m| == 1 ==> m[0] == (KeyOf(id).value, rows[KeyOf(id).value])
  {
    var k := KeyOf(id);
    if k.Some? && k.value in rows then [(k.value, rows[k.value])] else []
  }

  /** The table after `.delete().eq('id', id)`. */
  function Removed<R>(rows: map<int, R>, id: JsNumber): (r: map<int, R>)
    ensures KeyOf(id).Some? ==> r == rows - {KeyOf(id).value}
    ensures KeyOf(id).None? ==> r == rows
  {
    var k := KeyOf(id);
    if k.Some? then rows - {k.value} else rows
  }

  class PotholeTable {
    var rows: map<int, PotholeRow>
    var nextId: int

    ghost predicate Valid()
      reads this
    {
      forall k | k in rows :: k < nextId
    }

    constructor ()
      ensures Valid() && rows == map[]
    {
      rows := map[];
      nextId := 1;
    }

    /** `.insert(...).select('id')`: the new row's id, or `None` on error. */
    method Insert(location: WktPoint, place: Option<Place>, now: string, fails: bool) returns (id: Option<int>)
      requires Valid()
      modifies this
      ensures Valid()
      ensures fails ==> id == None && rows == old(rows) && nextId == old(nextId)
      ensures !fails ==> id == Some(old(nextId)) && old(nextId) !in old(rows)
      ensures !fails ==> rows == old(rows)[old(nextId) := NewPotholeRow(location, place, now)]
    {
      if fails {
        return None;
      }
      id := Some(nextId);
      rows := rows[nextId := NewPotholeRow(location, place, now)];
      nextId := nextId + 1;
    }

    /** The `increment` RPC for `id_to_increment`. */
    method Increment(id: int, now: string, fails: bool) returns (errored: bool)
      requires Valid()
      modifies this`rows
      ensures Valid()
      ensures errored == fails
      ensures rows == if fails then old(rows) else Incremented(old(rows), id, now)
    {
      errored := fails;
      if !fails {
        rows := Incremented(rows, id, now);
      }
    }

    /** `.select(...).eq('id', id)`. */
    method Select(id: JsNumber, fails: bool) returns (q: QueryResult<(int, PotholeRow)>)
      ensures q == if fails then QueryError else Rows(Matching(rows, id))
    {
      if fails {
        return QueryError;
      }
      q := Rows(Matching(rows, id));
    }

    /** `.delete().eq('id', id)`. */
    method Delete(id: JsNumber, fails: bool) returns (errored: bool)
      requires Valid()
      modifies this`rows
      ensures Valid()
      ensures errored == fails
      ensures rows == if fails then old(rows) else Removed(old(rows), id)
    {
      errored := fails;
      if !fails {
        rows := Removed(rows, id);
      }
    }
  }

  datatype ImageRow = ImageRow(potholeId: int, createdAt: string)

  class ImageTable {
    var rows: map<int, ImageRow>
    var nextId: int

    ghost predicate Valid()
      reads this
    {
      forall k | k in rows :: k < nextId
    }

    constructor ()
      ensures Valid() && rows == map[]
    {
      rows := map[];
      nextId := 1;
    }

    /** `.insert({ pothole_id }).select('id,createdAt:created_at')`. */
    method Insert(potholeId: int, now: string, fails: bool) returns (id: Option<int>)
      requires Valid()
      modifies this
      ensures Valid()
      ensures fails ==> id == None && rows == old(rows) && nextId == old(nextId)
      ensures !fails ==> id == Some(old(nextId)) && old(nextId) !in old(rows)
      ensures !fails ==> rows == old(rows)[old(nextId) := ImageRow(potholeId, now)]
    {
      if fails {
        return None;
      }
      id := Some(nextId);
      rows := rows[nextId := ImageRow(potholeId, now)];
      nextId := nextId + 1;
    }

    /** `.select(...).eq('id', id)`. */
    method Select(id: int, fails: bool) returns (q: QueryResult<(int, ImageRow)>)
      ensures q == if fails then QueryError else Rows(Matching(rows, Finite(id as real)))
    {
      if fails {
        return QueryError;
      }
      q := Rows(Matching(rows, Finite(id as real)));
    }
  }

  /**
   * The `images` storage bucket: object key to the base64 text whose
   * decoding was uploaded under that key.
   */
  class Bucket {
    var objects: map<string, string>

    constructor ()
      ensures objects == map[]
    {
      objects := map[];
    }

    /** `.upload(key, decode(encoding))`: the stored path, or `None` on error. */
    method Upload(key: string, encoding: string, fails: bool) returns (path: Option<string>)
      modifies this
      ensures fails ==> path == None && objects == old(objects)
      ensures !fails ==> path == Some(key) && objects == old(objects)[key := encoding]
    {
      if fails {
        return None;
      }
      objects := objects[key := encoding];
      path := Some(key);
    }
  }
}
