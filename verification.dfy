/**
 * The verification engine: a threshold ladder on the vision and agent
 * confidences and the risk score, and a duplicate check against an
 * append-only list of recently accepted reports.
 *
 * The report id (`uuid4()`) and the clock (`datetime.now()`) are parameters;
 * the haversine distance is a parameter `distance` of type `DistanceFn`.
 */
module Verification {
  import opened Wrappers
  import opened Records

  // THRESHOLDS
  const VisionConfidenceMin: real := 0.40
  const VisionConfidenceAuto: real := 0.75
  const AgentConfidenceMin: real := 0.60
  const CriticalRiskFlag: real := 85.0
  const DuplicateDistanceMeters: real := 15.0
  const DuplicateWindowHours: nat := 24

  /** A point in time in microseconds, the resolution of Python's `datetime`. */
  type Instant = int

  const MicrosPerHour: nat := 3_600_000_000

  /** Distance in metres between `(lat1, lon1)` and `(lat2, lon2)`. */
  type DistanceFn = (real, real, real, real) -> real

  datatype Status = Rejected | AutoMerged | ManualReview | AutoVerified {
    /** The `verification_status` string sent to clients. */
    function Name(): (s: string)
      ensures s in {"rejected", "auto_merged", "manual_review", "auto_verified"}
    {
      match this
      case Rejected => "rejected"
      case AutoMerged => "auto_merged"
      case ManualReview => "manual_review"
      case AutoVerified => "auto_verified"
    }
  }

  /** The `verification_reason`, kept as the data its message is formatted from. */
  datatype Reason =
    | ConfidenceTooLow(visionConfidence: real)
    | DuplicateOf(originalId: string)
    | HighRisk(riskScore: real)
    | HighConfidence
    | ModerateConfidence(visionConfidence: real, agentConfidence: real)

  /** The dictionary built by `_build_response` (its timestamp is not modelled). */
  datatype Response = Response(reportId: string, isVerified: bool, status: Status, reason: Reason)

  /** One entry of the report cache: `{"id", "lat", "lon", "time"}`. */
  datatype CachedReport = CachedReport(id: string, lat: real, lon: real, time: Instant)

  /** The confidence read from `vision_metadata`, 0.0 when the key is absent. */
  function VisionScore(boxConfidence: Option<real>): real {
    boxConfidence.GetOr(0.0)
  }

  /** Not older than the duplicate window: `current_time - time <= 24 hours`. */
  predicate WithinWindow(now: Instant, time: Instant) {
    now - time <= DuplicateWindowHours * MicrosPerHour
  }

  predicate IsDuplicateOf(e: CachedReport, lat: real, lon: real, now: Instant, distance: DistanceFn) {
    WithinWindow(now, e.time) && distance(lat, lon, e.lat, e.lon) <= DuplicateDistanceMeters
  }

  /** The id of the first cached report, in list order, that the new location duplicates. */
  function FirstDuplicate(db: seq<CachedReport>, lat: real, lon: real, now: Instant, distance: DistanceFn)
    : (r: Option<string>)
    ensures r.None? <==> forall i :: 0 <= i < |db| ==> !IsDuplicateOf(db[i], lat, lon, now, distance)
  {
    if db == [] then None
    else if IsDuplicateOf(db[0], lat, lon, now, distance) then Some(db[0].id)
    else FirstDuplicate(db[1..], lat, lon, now, distance)
  }

  /** A found duplicate is the first entry in list order that lies within the window and the radius. */
  lemma {:induction false} FirstDuplicateIsFirst(db: seq<CachedReport>, lat: real, lon: real, now: Instant, distance: DistanceFn)
    requires FirstDuplicate(db, lat, lon, now, distance).Some?
    ensures exists i ::
              && 0 <= i < |db| && db[i].id == FirstDuplicate(db, lat, lon, now, distance).value
              && IsDuplicateOf(db[i], lat, lon, now, distance)
              && forall j :: 0 <= j < i ==> !IsDuplicateOf(db[j], lat, lon, now, distance)
  {
    if !IsDuplicateOf(db[0], lat, lon, now, distance) {
      FirstDuplicateIsFirst(db[1..], lat, lon, now, distance);
      var i :| 0 <= i < |db[1..]| && db[1..][i].id == FirstDuplicate(db[1..], lat, lon, now, distance).value
        && IsDuplicateOf(db[1..][i], lat, lon, now, distance)
        && forall j :: 0 <= j < i ==> !IsDuplicateOf(db[1..][j], lat, lon, now, distance);
      assert forall j :: 0 <= j < i + 1 ==> !IsDuplicateOf(db[j], lat, lon, now, distance) by {
        forall j | 0 <= j < i + 1
          ensures !IsDuplicateOf(db[j], lat, lon, now, distance)
        {
          if j > 0 { assert db[j] == db[1..][j - 1]; }
        }
      }
      assert db[i + 1] == db[1..][i];
    } else {
      assert db[0].id == FirstDuplicate(db, lat, lon, now, distance).value;
    }
  }

  /**
   * `_check_duplicate`: no duplicate when the location is missing or has no
   * `lat`; a KeyError when it has `lat` but no `lon`; otherwise the first
   * duplicate in the cache.
   */
  function DuplicateLookup(db: seq<CachedReport>, loc: Option<Location>, now: Instant, distance: DistanceFn)
    : (r: Result<Option<string>>)
    ensures r.KeyError? <==> loc.Some? && loc.value.lat.Some? && loc.value.lon.None?
    ensures (loc.None? || loc.value.lat.None?) ==> r == Ok(None)
    ensures HasLat(loc) && loc.value.lon.Some? ==>
      r == Ok(FirstDuplicate(db, loc.value.lat.value, loc.value.lon.value, now, distance))
  {
    if loc.None? || loc.value.lat.None? then Ok(None)
    else if loc.value.lon.None? then KeyError("lon")
    else Ok(FirstDuplicate(db, loc.value.lat.value, loc.value.lon.value, now, distance))
  }

  /** `_cache_report`: the entries appended for a location, none when it has no `lat`. */
  function CacheEntries(reportId: string, loc: Option<Location>, time: Instant): (r: seq<CachedReport>)
    requires loc.Some? && loc.value.lat.Some? ==> loc.value.lon.Some?
    ensures |r| == (if loc.Some? && loc.value.lat.Some? then 1 else 0)
    ensures |r| == 1 ==> r[0] == CachedReport(reportId, loc.value.lat.value, loc.value.lon.value, time)
  {
    if loc.Some? && loc.value.lat.Some? then
      [CachedReport(reportId, loc.value.lat.value, loc.value.lon.value, time)]
    else []
  }

  predicate HasLat(loc: Option<Location>) {
    loc.Some? && loc.value.lat.Some?
  }

  /** An outcome after which the report is cached: `auto_verified` or `manual_review`. */
  predicate Accepted(r: Result<Response>) {
    r.Ok? && (r.value.status == AutoVerified || r.value.status == ManualReview)
  }

  /** The status ladder applied to a non-rejected, non-duplicate report. */
  function Ladder(visConf: real, agentConf: real, riskScore: real): (r: (Status, Reason))
    ensures r.0 == AutoVerified || r.0 == ManualReview
    ensures riskScore >= CriticalRiskFlag ==> r == (ManualReview, HighRisk(riskScore))
    ensures r.0 == AutoVerified <==>
      riskScore < CriticalRiskFlag && visConf >= VisionConfidenceAuto && agentConf >= AgentConfidenceMin
  {
    if riskScore >= CriticalRiskFlag then (ManualReview, HighRisk(riskScore))
    else if visConf >= VisionConfidenceAuto && agentConf >= AgentConfidenceMin then (AutoVerified, HighConfidence)
    else (ManualReview, ModerateConfidence(visConf, agentConf))
  }

  /**
   * `verify_submission` as a function of the cache before the call: the
   * response (or the KeyError raised) and the cache after it.
   */
  function Verify(db: seq<CachedReport>, boxConfidence: Option<real>, agent: AgentReport,
                  loc: Option<Location>, reportId: string, now: Instant, distance: DistanceFn)
    : (out: (Result<Response>, seq<CachedReport>))
    // the response carries the given id; every outcome but a rejection is verified
    ensures out.0.Ok? ==> out.0.value.reportId == reportId
    ensures out.0.Ok? ==> (out.0.value.isVerified <==> out.0.value.status != Rejected)
    // the vision gate, before anything else
    ensures VisionScore(boxConfidence) < VisionConfidenceMin <==> out.0.Ok? && out.0.value.status == Rejected
    ensures VisionScore(boxConfidence) < VisionConfidenceMin ==>
      out == (Ok(Response(reportId, false, Rejected, ConfidenceTooLow(VisionScore(boxConfidence)))), db)
    // a location with `lat` but no `lon` raises once past the vision gate
    ensures out.0.KeyError? <==>
      VisionScore(boxConfidence) >= VisionConfidenceMin && DuplicateLookup(db, loc, now, distance).KeyError?
    // a duplicate is merged, names the original and leaves the cache alone
    ensures out.0.Ok? && out.0.value.status == AutoMerged <==>
      VisionScore(boxConfidence) >= VisionConfidenceMin && DuplicateLookup(db, loc, now, distance).Ok?
      && DuplicateLookup(db, loc, now, distance).value.Some?
    ensures out.0.Ok? && out.0.value.status == AutoMerged ==>
      out.0.value.reason == DuplicateOf(DuplicateLookup(db, loc, now, distance).value.value) && out.1 == db
    // a high risk score always goes to a human
    ensures out.0.Ok? && agent.riskScore.GetOr(0.0) >= CriticalRiskFlag ==> out.0.value.status != AutoVerified
    // auto-verification needs every gate
    ensures out.0.Ok? && out.0.value.status == AutoVerified <==>
      && VisionScore(boxConfidence) >= VisionConfidenceAuto
      && DuplicateLookup(db, loc, now, distance) == Ok(None)
      && agent.riskScore.GetOr(0.0) < CriticalRiskFlag
      && agent.confidenceScore.GetOr(0.0) >= AgentConfidenceMin
    // the cache grows only for accepted, non-duplicate reports with a `lat`
    ensures Accepted(out.0) && HasLat(loc) ==> loc.value.lon.Some? && out.1 == db + CacheEntries(reportId, loc, now)
    ensures !(Accepted(out.0) && HasLat(loc)) ==> out.1 == db
  {
    var visConf := VisionScore(boxConfidence);
    if visConf < VisionConfidenceMin then
      (Ok(Response(reportId, false, Rejected, ConfidenceTooLow(visConf))), db)
    else
      match DuplicateLookup(db, loc, now, distance)
      case KeyError(k) => (KeyError(k), db)
      case Ok(Some(originalId)) => (Ok(Response(reportId, true, AutoMerged, DuplicateOf(originalId))), db)
      case Ok(None) =>
        var decision := Ladder(visConf, agent.confidenceScore.GetOr(0.0), agent.riskScore.GetOr(0.0));
        var status := decision.0;
        var newDb := if status == AutoVerified || status == ManualReview then db + CacheEntries(reportId, loc, now) else db;
        (Ok(Response(reportId, true, status, decision.1)), newDb)
  }

  /** The engine and its in-memory report cache (`_mock_report_db`). */
  class VerificationEngine {
    var reportDb: seq<CachedReport>

    constructor ()
      ensures reportDb == []
    {
      reportDb := [];
    }

    /** `verify_submission`, proved against `Verify`. */
    method VerifySubmission(boxConfidence: Option<real>, agentResult: AgentReport, location: Option<Location>,
                            reportId: string, now: Instant, distance: DistanceFn)
      returns (r: Result<Response>)
      modifies this
      ensures (r, reportDb) == Verify(old(reportDb), boxConfidence, agentResult, location, reportId, now, distance)
    {
      var visConf := boxConfidence.GetOr(0.0);
      if visConf < VisionConfidenceMin {
        return Ok(Response(reportId, false, Rejected, ConfidenceTooLow(visConf)));
      }

      var duplicate := CheckDuplicate(location, now, distance);
      if duplicate.KeyError? {
        return KeyError(duplicate.key);
      }
      if duplicate.value.Some? {
        return Ok(Response(reportId, true, AutoMerged, DuplicateOf(duplicate.value.value)));
      }

      var agentConf := agentResult.confidenceScore.GetOr(0.0);
      var riskScore := agentResult.riskScore.GetOr(0.0);
      var status: Status;
      var reason: Reason;
      if riskScore >= CriticalRiskFlag {
        status, reason := ManualReview, HighRisk(riskScore);
      } else if visConf >= VisionConfidenceAuto && agentConf >= AgentConfidenceMin {
        status, reason := AutoVerified, HighConfidence;
      } else {
        status, reason := ManualReview, ModerateConfidence(visConf, agentConf);
      }

      if status == AutoVerified || status == ManualReview {
        CacheReport(reportId, location, now);
      }
      return Ok(Response(reportId, true, status, reason));
    }

    /** `_check_duplicate`: scans the cache in order and stops at the first duplicate. */
    method CheckDuplicate(loc: Option<Location>, now: Instant, distance: DistanceFn)
      returns (r: Result<Option<string>>)
      ensures r == DuplicateLookup(reportDb, loc, now, distance)
    {
      if loc.None? || loc.value.lat.None? {
        return Ok(None);
      }
      if loc.value.lon.None? {
        return KeyError("lon");
      }
      var lat, lon := loc.value.lat.value, loc.value.lon.value;
      var i := 0;
      while i < |reportDb|
        invariant 0 <= i <= |reportDb|
        invariant FirstDuplicate(reportDb[i..], lat, lon, now, distance) == FirstDuplicate(reportDb, lat, lon, now, distance)
      {
        var report := reportDb[i];
        assert reportDb[i..][0] == report && reportDb[i..][1..] == reportDb[i + 1..];
        if !WithinWindow(now, report.time) {
          i := i + 1;
          continue;
        }
        if distance(lat, lon, report.lat, report.lon) <= DuplicateDistanceMeters {
          return Ok(Some(report.id));
        }
        i := i + 1;
      }
      return Ok(None);
    }

    /** `_cache_report`: appends one entry when the location has a `lat`. */
    method CacheReport(reportId: string, loc: Option<Location>, time: Instant)
      requires loc.Some? && loc.value.lat.Some? ==> loc.value.lon.Some?
      modifies this
      ensures reportDb == old(reportDb) + CacheEntries(reportId, loc, time)
    {
      if loc.Some? && loc.value.lat.Some? {
        reportDb := reportDb + [CachedReport(reportId, loc.value.lat.value, loc.value.lon.value, time)];
      }
    }
  }
}
