/**
 * The report-or-merge policy (src/pothole-reporting.ts): a lookup failure
 * is an error; no pothole, or one farther than the closeness threshold,
 * creates a new row; one within the threshold (inclusive) is re-fetched and
 * then incremented.
 *
 * The threshold CLOSENESS_THRESHOLD_METERS is a parameter. The decision is
 * the pure function ChooseBranch; the full effect on the table is the
 * specification function ReportEffect, which the method ReportPothole
 * carries out step by step.
 */
module PotholeReporting {
  import opened JsValues
  import opened Types
  import opened Backend
  import opened Rpcs
  import ResourceOperations

  /**
   * Both successful outcomes have a field `pothole` in the source:
   * `'creation'` carries what createNewPothole returned (an id, or the
   * `null` of a failed insert), here `created`; `'increment'` carries the
   * re-fetched record, here `merged`.
   */
  datatype ReportOutcome = Creation(created: Option<int>) | Increment(merged: Pothole) | Error

  datatype Branch = FailBranch | CreateBranch | IncrementBranch(id: int)

  /** The branch taken on the lookup result; the comparison is a strict `>`, so a tie merges. */
  function ChooseBranch(closest: Proximity, threshold: real): (b: Branch)
    ensures b == FailBranch <==> closest.Failure?
    ensures b == CreateBranch <==> closest.NotFound? || (closest.Found? && closest.distance > threshold)
    ensures b.IncrementBranch? <==> closest.Found? && closest.distance <= threshold
    ensures b.IncrementBranch? ==> b.id == closest.id
  {
    match closest
    case Failure => FailBranch
    case NotFound => CreateBranch
    case Found(id, distance) => if distance > threshold then CreateBranch else IncrementBranch(id)
  }

  /** A pothole exactly at the threshold distance is merged into, not duplicated. */
  lemma ThresholdTieMerges(id: int, threshold: real)
    ensures ChooseBranch(Found(id, threshold), threshold) == IncrementBranch(id)
  {
  }

  /**
   * `closestInfoHelper`: `undefined` on error or no row; otherwise the row,
   * with the report's own `lat` and `long` spread in first. The selected
   * columns hold no coordinates, so the record carries the reported
   * position, not the stored one.
   */
  function ClosestInfo(q: QueryResult<(int, PotholeRow)>, lat: JsNumber, long: JsNumber): (p: Option<Pothole>)
    ensures p.None? <==> q.QueryError? || |q.rows| == 0
    ensures p.Some? ==> p.value.id == q.rows[0].0 && p.value.reports == q.rows[0].1.reports
    ensures p.Some? ==> p.value.createdAt == q.rows[0].1.createdAt && p.value.lastReportedAt == q.rows[0].1.lastReportedAt
    ensures p.Some? ==> p.value.lat == lat && p.value.long == long
  {
    match q
    case QueryError => None
    case Rows(rows) =>
      if |rows| == 0 then None
      else
        var (id, row) := rows[0];
        Some(Pothole(id, lat, long, row.reports, row.createdAt, row.lastReportedAt))
  }

  /**
   * The create branch's outcome AS WRITTEN: the test `pothole === undefined`
   * never holds for createNewPothole's `number | null`, so every insert,
   * failed or not, is reported as a creation.
   */
  function CreationOutcomeAsWritten(created: Option<int>): (o: ReportOutcome)
    ensures o.Creation? && o.created == created
  {
    Creation(created)
  }

  /** A failed insert is reported as a successful creation of `null`. */
  lemma FailedInsertReportedAsCreation()
    ensures CreationOutcomeAsWritten(None) == Creation(None)
    ensures !CreationOutcomeAsWritten(None).Error?
  {
  }

  /** The create branch's outcome tested against `null`, as intended: a failed insert is an error. */
  function CreationOutcome(created: Option<int>): (o: ReportOutcome)
    ensures o.Error? <==> created.None?
    ensures o.Creation? <==> created.Some?
    ensures o.Creation? ==> o.created == created
  {
    if created.None? then Error else Creation(created)
  }

  /** `'increment'` only when the increment succeeded and the re-fetch found the row. */
  function IncrementOutcome(incrementErrored: bool, fetched: Option<Pothole>): (o: ReportOutcome)
    ensures o.Increment? <==> !incrementErrored && fetched.Some?
    ensures o.Increment? ==> o.merged == fetched.value
    ensures !o.Increment? ==> o == Error
  {
    if incrementErrored || fetched.None? then Error else Increment(fetched.value)
  }

  /** Which of the three backend calls of a report fail. */
  datatype ReportFaults = ReportFaults(insertFails: bool, fetchFails: bool, incrementFails: bool)

  /**
   * The outcome of a report and the pothole table after it, given the table
   * before, the id the table assigns next, and the lookup's result.
   */
  function ReportEffect(
    rows: map<int, PotholeRow>, freshId: int, closest: Proximity, threshold: real,
    lat: JsNumber, long: JsNumber, now: string, f: ReportFaults)
    : (res: (ReportOutcome, map<int, PotholeRow>))
    ensures closest.Failure? ==> res == (Error, rows)
    ensures res.0.Creation? ==> ChooseBranch(closest, threshold) == CreateBranch
    ensures res.0.Increment? ==> ChooseBranch(closest, threshold).IncrementBranch?
    // The create branch adds exactly the new row, with a count of 1 and the point (long, lat).
    ensures ChooseBranch(closest, threshold) == CreateBranch ==>
      && (f.insertFails ==> res == (Error, rows))
      && (!f.insertFails ==> res.0 == Creation(Some(freshId)))
      && (!f.insertFails ==> res.1 == rows[freshId := NewPotholeRow(WktPoint(long, lat), None, now)])
    // The increment branch bumps exactly the closest pothole and creates nothing.
    ensures ChooseBranch(closest, threshold).IncrementBranch? ==>
      var id := closest.id;
      && res.1 == (if f.incrementFails then rows else Incremented(rows, id, now))
      && (res.0.Increment? <==> !f.incrementFails && !f.fetchFails && id in rows)
      && (!res.0.Increment? ==> res.0 == Error)
    // The merged record is read before the increment: it holds the old count.
    ensures res.0.Increment? ==>
      && closest.Found? && closest.id in rows
      && res.0.merged.id == closest.id
      && res.0.merged.reports == rows[closest.id].reports
  {
    match ChooseBranch(closest, threshold)
    case FailBranch => (Error, rows)
    case CreateBranch =>
      if f.insertFails then (CreationOutcome(None), rows)
      else (CreationOutcome(Some(freshId)), rows[freshId := NewPotholeRow(WktPoint(long, lat), None, now)])
    case IncrementBranch(id) =>
      var fetched := if f.fetchFails then QueryError else Rows(Matching(rows, Finite(id as real)));
      var pothole := ClosestInfo(fetched, lat, long);
      (IncrementOutcome(f.incrementFails, pothole), if f.incrementFails then rows else Incremented(rows, id, now))
  }

  /** The create branch changes no existing row, so it never increments. */
  lemma CreateNeverIncrements(
    rows: map<int, PotholeRow>, freshId: int, closest: Proximity, threshold: real,
    lat: JsNumber, long: JsNumber, now: string, f: ReportFaults)
    requires freshId !in rows
    requires ChooseBranch(closest, threshold) == CreateBranch
    ensures var after := ReportEffect(rows, freshId, closest, threshold, lat, long, now, f).1;
      forall k | k in rows :: k in after && after[k] == rows[k]
  {
  }

  /** The increment branch leaves the set of potholes as it was. */
  lemma IncrementCreatesNothing(
    rows: map<int, PotholeRow>, freshId: int, closest: Proximity, threshold: real,
    lat: JsNumber, long: JsNumber, now: string, f: ReportFaults)
    requires ChooseBranch(closest, threshold).IncrementBranch?
    ensures ReportEffect(rows, freshId, closest, threshold, lat, long, now, f).1.Keys == rows.Keys
  {
  }

  /**
   * When the re-fetch fails but the increment succeeds, the report is
   * counted and yet the outcome is an error.
   */
  lemma CountedButReportedAsError(
    rows: map<int, PotholeRow>, freshId: int, id: int, distance: real, threshold: real,
    lat: JsNumber, long: JsNumber, now: string)
    requires distance <= threshold && id in rows
    ensures var res := ReportEffect(rows, freshId, Found(id, distance), threshold, lat, long, now,
                                    ReportFaults(false, true, false));
      res.0 == Error && res.1[id].reports == rows[id].reports + 1
  {
  }

  /** `reportPothole`: the lookup, then create, or re-fetch and increment. */
  method ReportPothole(
    table: PotholeTable, nearby: NearbyRpc, lat: JsNumber, long: JsNumber,
    threshold: real, now: string, f: ReportFaults)
    returns (o: ReportOutcome)
    requires table.Valid()
    modifies table
    ensures table.Valid()
    ensures (o, table.rows) == ReportEffect(old(table.rows), old(table.nextId),
                                            GetClosestPothole(nearby(lat, long)), threshold, lat, long, now, f)
  {
    var closest := GetClosestPothole(nearby(lat, long));
    match ChooseBranch(closest, threshold)
    case FailBranch =>
      o := Error;
    case CreateBranch =>
      var created := ResourceOperations.CreateNewPothole(table, lat, long, now, f.insertFails);
      o := CreationOutcome(created);
    case IncrementBranch(id) =>
      var fetched := table.Select(Finite(id as real), f.fetchFails);
      var pothole := ClosestInfo(fetched, lat, long);
      var errored := IncrementPothole(table, id, now, f.incrementFails);
      o := IncrementOutcome(errored, pothole);
  }
}
