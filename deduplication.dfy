/**
 * The duplicate detector: a report whose photo is within five bits of a
 * stored perceptual hash is suspicious; otherwise one of the same issue type
 * reported less than 15 m away in the last 24 hours makes it a duplicate.
 * The perceptual hash of a photo is given (the hashing is not modelled).
 */
module Deduplication {
  import opened Wrappers
  import Verification

  type Instant = Verification.Instant
  type DistanceFn = Verification.DistanceFn

  /** Hashes at most this many characters apart show the same photo. */
  const SimilarHashChars: nat := 5
  /** Reports closer than this (strictly) are the same site. */
  const NearbyMeters: real := 15.0
  /** Reports older than this many hours are not compared. */
  const WindowHours: real := 24.0

  /** `_hamming_distance`: a count, or infinity for hashes of different lengths. */
  datatype Distance = Finite(n: nat) | Infinite {
    predicate AtMost(k: nat) {
      Finite? && n <= k
    }
  }

  /** The number of positions at which two equally long strings differ. */
  function Mismatches(s1: string, s2: string): (n: nat)
    requires |s1| == |s2|
    ensures n <= |s1|
    ensures n == 0 <==> s1 == s2
  {
    if s1 == [] then 0
    else
      assert s1 == [s1[0]] + s1[1..] && s2 == [s2[0]] + s2[1..];
      (if s1[0] != s2[0] then 1 else 0) + Mismatches(s1[1..], s2[1..])
  }

  function HammingDistance(s1: string, s2: string): (d: Distance)
    ensures d.Infinite? <==> |s1| != |s2|
    ensures d.Finite? ==> d.n <= |s1| && (d.n == 0 <==> s1 == s2)
  {
    if |s1| != |s2| then Infinite else Finite(Mismatches(s1, s2))
  }

  lemma {:induction false} MismatchesSymmetric(a: string, b: string)
    requires |a| == |b|
    ensures Mismatches(a, b) == Mismatches(b, a)
  {
    if a != [] {
      MismatchesSymmetric(a[1..], b[1..]);
    }
  }

  lemma {:induction false} MismatchesTriangle(a: string, b: string, c: string)
    requires |a| == |b| == |c|
    ensures Mismatches(a, c) <= Mismatches(a, b) + Mismatches(b, c)
  {
    if a != [] {
      MismatchesTriangle(a[1..], b[1..], c[1..]);
    }
  }

  /** The Hamming distance is a metric: symmetric, and obeying the triangle inequality. */
  lemma HammingIsMetric(a: string, b: string, c: string)
    ensures HammingDistance(a, b) == HammingDistance(b, a)
    ensures |a| == |b| == |c| ==> HammingDistance(a, c).n <= HammingDistance(a, b).n + HammingDistance(b, c).n
  {
    if |a| == |b| {
      MismatchesSymmetric(a, b);
    }
    if |a| == |b| == |c| {
      MismatchesTriangle(a, b, c);
    }
  }

  predicate SimilarHash(a: string, b: string) {
    HammingDistance(a, b).AtMost(SimilarHashChars)
  }

  /** The report to check: each key may be missing; the photo is given by its hash. */
  datatype NewReport = NewReport(lat: Option<real>, lon: Option<real>, imageHash: Option<string>, issueType: Option<string>)

  datatype SpatialRecord = SpatialRecord(id: string, lat: real, lon: real, issueType: string, timestamp: Instant)

  /** One entry of the hash dictionary, kept in insertion order. */
  datatype HashEntry = HashEntry(hash: string, reportId: string)

  datatype DedupStatus = New | Duplicate | Suspicious

  datatype Reason =
    | IdenticalImage(reportId: string)          // "Image visually identical to report <id>"
    | NearbyReport(meters: real, at: Instant)   // "Similar issue reported <m>m away at <HH:MM>"
    | NoMatches                                 // "No matches found."

  /** The triple `check` returns: status, reason and the id of the matched report. */
  datatype CheckOutcome = CheckOutcome(status: DedupStatus, reason: Reason, mergedId: Option<string>)

  /** The age of a record in hours, as `total_seconds() / 3600`. */
  function Hours(now: Instant, time: Instant): real {
    ((now - time) as real / 1000000.0) / 3600.0
  }

  /** The detector's 24-hour window is the verifier's. */
  lemma WindowAgreesWithVerifier(now: Instant, time: Instant)
    ensures !(Hours(now, time) > WindowHours) <==> Verification.WithinWindow(now, time)
  {
    var micros := (now - time) as real;
    assert Hours(now, time) == micros / 3600000000.0;
    assert Verification.MicrosPerHour as real == 3600000000.0;
  }

  /** A stored record that makes the new report a duplicate. */
  predicate Nearby(rec: SpatialRecord, lat: real, lon: real, issue: string, now: Instant, distance: DistanceFn) {
    && rec.issueType == issue
    && !(Hours(now, rec.timestamp) > WindowHours)
    && distance(lat, lon, rec.lat, rec.lon) < NearbyMeters
  }

  /** The position of the first stored hash similar to `h`, from position `from` on. */
  function FirstSimilar(hashes: seq<HashEntry>, h: string, from: nat): (r: Option<nat>)
    requires from <= |hashes|
    ensures r.None? <==> forall i :: from <= i < |hashes| ==> !SimilarHash(h, hashes[i].hash)
    ensures r.Some? ==>
      && from <= r.value < |hashes| && SimilarHash(h, hashes[r.value].hash)
      && forall i :: from <= i < r.value ==> !SimilarHash(h, hashes[i].hash)
    decreases |hashes| - from
  {
    if from == |hashes| then None
    else if SimilarHash(h, hashes[from].hash) then Some(from)
    else FirstSimilar(hashes, h, from + 1)
  }

  /** The position of the first record that makes the report a duplicate, from position `from` on. */
  function FirstNearby(index: seq<SpatialRecord>, lat: real, lon: real, issue: string, now: Instant,
                       distance: DistanceFn, from: nat): (r: Option<nat>)
    requires from <= |index|
    ensures r.None? <==> forall i :: from <= i < |index| ==> !Nearby(index[i], lat, lon, issue, now, distance)
    ensures r.Some? ==>
      && from <= r.value < |index| && Nearby(index[r.value], lat, lon, issue, now, distance)
      && forall i :: from <= i < r.value ==> !Nearby(index[i], lat, lon, issue, now, distance)
    decreases |index| - from
  {
    if from == |index| then None
    else if Nearby(index[from], lat, lon, issue, now, distance) then Some(from)
    else FirstNearby(index, lat, lon, issue, now, distance, from + 1)
  }

  predicate HasSimilarImage(hashes: seq<HashEntry>, report: NewReport) {
    report.imageHash.Some? && exists i :: 0 <= i < |hashes| && SimilarHash(report.imageHash.value, hashes[i].hash)
  }

  /**
   * `check` as a function of the two indices: the photo first, then the
   * coordinates and issue type (a KeyError when one is missing), then the
   * spatial-temporal scan.
   */
  function CheckSpec(index: seq<SpatialRecord>, hashes: seq<HashEntry>, report: NewReport, now: Instant,
                     distance: DistanceFn): (r: Result<CheckOutcome>)
    // a similar photo makes the report suspicious, whatever else it says
    ensures HasSimilarImage(hashes, report) <==> r.Ok? && r.value.status == Suspicious
    ensures r.Ok? && r.value.status == Suspicious ==>
      exists i :: 0 <= i < |hashes| && SimilarHash(report.imageHash.value, hashes[i].hash)
        && (forall j :: 0 <= j < i ==> !SimilarHash(report.imageHash.value, hashes[j].hash))
        && r.value == CheckOutcome(Suspicious, IdenticalImage(hashes[i].reportId), Some(hashes[i].reportId))
    // otherwise a missing key raises, in the order lat, lon, issue_type
    ensures !HasSimilarImage(hashes, report) && report.lat.None? ==> r == KeyError("lat")
    ensures !HasSimilarImage(hashes, report) && report.lat.Some? && report.lon.None? ==> r == KeyError("lon")
    ensures !HasSimilarImage(hashes, report) && report.lat.Some? && report.lon.Some? && report.issueType.None? ==>
      r == KeyError("issue_type")
    // a KeyError only for a missing key, and only when no photo matched
    ensures r.KeyError? ==>
      !HasSimilarImage(hashes, report) && (report.lat.None? || report.lon.None? || report.issueType.None?)
    // a duplicate is the first same-type report within 24 hours and closer than 15 m
    ensures r.Ok? && r.value.status == Duplicate ==>
      exists i :: 0 <= i < |index|
        && Nearby(index[i], report.lat.value, report.lon.value, report.issueType.value, now, distance)
        && (forall j :: 0 <= j < i ==> !Nearby(index[j], report.lat.value, report.lon.value, report.issueType.value, now, distance))
        && r.value.mergedId == Some(index[i].id)
        && r.value.reason == NearbyReport(distance(report.lat.value, report.lon.value, index[i].lat, index[i].lon), index[i].timestamp)
    // a new report matches nothing
    ensures r.Ok? && r.value.status == New <==>
      && !HasSimilarImage(hashes, report)
      && report.lat.Some? && report.lon.Some? && report.issueType.Some?
      && forall i :: 0 <= i < |index| ==>
        !Nearby(index[i], report.lat.value, report.lon.value, report.issueType.value, now, distance)
    ensures r.Ok? && r.value.status == New ==> r.value == CheckOutcome(New, NoMatches, None)
  {
    var image := if report.imageHash.Some? then FirstSimilar(hashes, report.imageHash.value, 0) else None;
    if image.Some? then
      var id := hashes[image.value].reportId;
      Ok(CheckOutcome(Suspicious, IdenticalImage(id), Some(id)))
    else if report.lat.None? then KeyError("lat")
    else if report.lon.None? then KeyError("lon")
    else if report.issueType.None? then KeyError("issue_type")
    else
      var lat, lon := report.lat.value, report.lon.value;
      match FirstNearby(index, lat, lon, report.issueType.value, now, distance, 0)
      case Some(k) =>
        var rec := index[k];
        Ok(CheckOutcome(Duplicate, NearbyReport(distance(lat, lon, rec.lat, rec.lon), rec.timestamp), Some(rec.id)))
      case None => Ok(CheckOutcome(New, NoMatches, None))
  }

  /** The report id stored for a hash, if any. */
  function Lookup(hashes: seq<HashEntry>, h: string): Option<string> {
    if hashes == [] then None
    else if hashes[0].hash == h then Some(hashes[0].reportId)
    else Lookup(hashes[1..], h)
  }

  predicate DistinctHashes(hashes: seq<HashEntry>) {
    forall i, j :: 0 <= i < j < |hashes| ==> hashes[i].hash != hashes[j].hash
  }

  function IndexOf(hashes: seq<HashEntry>, h: string): (r: Option<nat>)
    ensures r.None? <==> forall i :: 0 <= i < |hashes| ==> hashes[i].hash != h
    ensures r.Some? ==>
      && r.value < |hashes| && hashes[r.value].hash == h
      && forall i :: 0 <= i < r.value ==> hashes[i].hash != h
  {
    if hashes == [] then None
    else if hashes[0].hash == h then Some(0)
    else match IndexOf(hashes[1..], h)
      case None => None
      case Some(k) => Some(k + 1)
  }

  lemma {:induction false} LookupAppend(hashes: seq<HashEntry>, e: HashEntry, k: string)
    requires forall i :: 0 <= i < |hashes| ==> hashes[i].hash != e.hash
    ensures Lookup(hashes + [e], k) == if k == e.hash then Some(e.reportId) else Lookup(hashes, k)
  {
    if hashes != [] {
      assert (hashes + [e])[1..] == hashes[1..] + [e];
      LookupAppend(hashes[1..], e, k);
    }
  }

  lemma {:induction false} LookupReplace(hashes: seq<HashEntry>, i: nat, e: HashEntry, k: string)
    requires i < |hashes| && hashes[i].hash == e.hash
    requires forall j :: 0 <= j < i ==> hashes[j].hash != e.hash
    ensures Lookup(hashes[i := e], k) == if k == e.hash then Some(e.reportId) else Lookup(hashes, k)
  {
    if i > 0 {
      assert hashes[i := e][1..] == hashes[1..][i - 1 := e];
      LookupReplace(hashes[1..], i - 1, e, k);
    }
  }

  lemma {:induction false} LookupFound(hashes: seq<HashEntry>, h: string)
    ensures Lookup(hashes, h).Some? <==> IndexOf(hashes, h).Some?
  {
    if hashes != [] && hashes[0].hash != h {
      LookupFound(hashes[1..], h);
    }
  }

  /**
   * `image_hashes[h] = id`: an existing key keeps its place and takes the
   * new id; a new key goes last.
   */
  function Put(hashes: seq<HashEntry>, h: string, id: string): (r: seq<HashEntry>)
    ensures DistinctHashes(hashes) ==> DistinctHashes(r)
    ensures |r| == if IndexOf(hashes, h).Some? then |hashes| else |hashes| + 1
    ensures forall i :: 0 <= i < |hashes| && hashes[i].hash != h ==> r[i] == hashes[i]
  {
    match IndexOf(hashes, h)
    case Some(i) => hashes[i := HashEntry(h, id)]
    case None => hashes + [HashEntry(h, id)]
  }

  /** After `Put`, the key reads back as the new id and every other key as before. */
  lemma PutLookup(hashes: seq<HashEntry>, h: string, id: string, k: string)
    ensures Lookup(Put(hashes, h, id), k) == if k == h then Some(id) else Lookup(hashes, k)
  {
    match IndexOf(hashes, h)
    case Some(i) => LookupReplace(hashes, i, HashEntry(h, id), k);
    case None => LookupAppend(hashes, HashEntry(h, id), k);
  }

  /**
   * `register_report` as a function of the two indices: a KeyError when a
   * coordinate or the issue type is missing (nothing changes); otherwise one
   * new record, stamped now, and the photo's hash pointing at this report.
   */
  function Register(index: seq<SpatialRecord>, hashes: seq<HashEntry>, reportId: string, data: NewReport, now: Instant)
    : (out: (Result<()>, seq<SpatialRecord>, seq<HashEntry>))
    ensures out.0.Ok? <==> data.lat.Some? && data.lon.Some? && data.issueType.Some?
    ensures data.lat.None? ==> out == (KeyError("lat"), index, hashes)
    ensures data.lat.Some? && data.lon.None? ==> out == (KeyError("lon"), index, hashes)
    ensures data.lat.Some? && data.lon.Some? && data.issueType.None? ==> out == (KeyError("issue_type"), index, hashes)
    ensures out.0.Ok? ==>
      && out.1 == index + [SpatialRecord(reportId, data.lat.value, data.lon.value, data.issueType.value, now)]
      && out.2 == if data.imageHash.Some? then Put(hashes, data.imageHash.value, reportId) else hashes
    ensures DistinctHashes(hashes) ==> DistinctHashes(out.2)
  {
    if data.lat.None? then (KeyError("lat"), index, hashes)
    else if data.lon.None? then (KeyError("lon"), index, hashes)
    else if data.issueType.None? then (KeyError("issue_type"), index, hashes)
    else
      var rec := SpatialRecord(reportId, data.lat.value, data.lon.value, data.issueType.value, now);
      (Ok(()), index + [rec], if data.imageHash.Some? then Put(hashes, data.imageHash.value, reportId) else hashes)
  }

  /** A registered photo, shown again, is flagged as suspicious. */
  lemma RegisteredImageIsSuspicious(index: seq<SpatialRecord>, hashes: seq<HashEntry>, reportId: string,
                                    data: NewReport, now: Instant, report: NewReport, later: Instant, distance: DistanceFn)
    requires Register(index, hashes, reportId, data, now).0.Ok? && data.imageHash.Some?
    requires report.imageHash == data.imageHash
    ensures var (_, index', hashes') := Register(index, hashes, reportId, data, now);
      CheckSpec(index', hashes', report, later, distance).Ok?
      && CheckSpec(index', hashes', report, later, distance).value.status == Suspicious
  {
    var (_, index', hashes') := Register(index, hashes, reportId, data, now);
    var h := data.imageHash.value;
    PutLookup(hashes, h, reportId, h);
    LookupFound(hashes', h);
    var i := IndexOf(hashes', h).value;
    assert SimilarHash(h, hashes'[i].hash);
  }

  /**
   * A registered report is found again by a check of the same site and issue
   * type within the day, provided the distance of a point to itself is
   * under 15 m.
   */
  lemma RegisteredSiteIsNotNew(index: seq<SpatialRecord>, hashes: seq<HashEntry>, reportId: string,
                               data: NewReport, now: Instant, later: Instant, distance: DistanceFn)
    requires Register(index, hashes, reportId, data, now).0.Ok?
    requires now <= later && Verification.WithinWindow(later, now)
    requires distance(data.lat.value, data.lon.value, data.lat.value, data.lon.value) < NearbyMeters
    ensures var (_, index', hashes') := Register(index, hashes, reportId, data, now);
      var r := CheckSpec(index', hashes', data, later, distance);
      r.Ok? && r.value.status != New
  {
    var (_, index', hashes') := Register(index, hashes, reportId, data, now);
    WindowAgreesWithVerifier(later, now);
    assert Nearby(index'[|index|], data.lat.value, data.lon.value, data.issueType.value, later, distance);
  }

  /** The in-memory indices of `DuplicateDetector`. */
  class DuplicateDetector {
    var spatialIndex: seq<SpatialRecord>
    var imageHashes: seq<HashEntry>

    /** The hash dictionary never holds a key twice. */
    ghost predicate Valid()
      reads this
    {
      DistinctHashes(imageHashes)
    }

    constructor ()
      ensures spatialIndex == [] && imageHashes == [] && Valid()
    {
      spatialIndex := [];
      imageHashes := [];
    }

    /** `check`: scans the hashes, then the spatial index, and changes nothing. */
    method Check(report: NewReport, now: Instant, distance: DistanceFn) returns (r: Result<CheckOutcome>)
      ensures r == CheckSpec(spatialIndex, imageHashes, report, now, distance)
    {
      if report.imageHash.Some? {
        var pHash := report.imageHash.value;
        var i := 0;
        while i < |imageHashes|
          invariant 0 <= i <= |imageHashes|
          invariant FirstSimilar(imageHashes, pHash, i) == FirstSimilar(imageHashes, pHash, 0)
        {
          if HammingDistance(pHash, imageHashes[i].hash).AtMost(SimilarHashChars) {
            var id := imageHashes[i].reportId;
            return Ok(CheckOutcome(Suspicious, IdenticalImage(id), Some(id)));
          }
          i := i + 1;
        }
      }
      if report.lat.None? {
        return KeyError("lat");
      }
      if report.lon.None? {
        return KeyError("lon");
      }
      if report.issueType.None? {
        return KeyError("issue_type");
      }
      var lat, lon, issue := report.lat.value, report.lon.value, report.issueType.value;
      var j := 0;
      while j < |spatialIndex|
        invariant 0 <= j <= |spatialIndex|
        invariant FirstNearby(spatialIndex, lat, lon, issue, now, distance, j)
          == FirstNearby(spatialIndex, lat, lon, issue, now, distance, 0)
      {
        var rec := spatialIndex[j];
        if rec.issueType != issue {
          j := j + 1;
          continue;
        }
        if Hours(now, rec.timestamp) > WindowHours {
          j := j + 1;
          continue;
        }
        var dist := distance(lat, lon, rec.lat, rec.lon);
        if dist < NearbyMeters {
          return Ok(CheckOutcome(Duplicate, NearbyReport(dist, rec.timestamp), Some(rec.id)));
        }
        j := j + 1;
      }
      return Ok(CheckOutcome(New, NoMatches, None));
    }

    /** `register_report`: indexes a verified report, stamped with the current time. */
    method RegisterReport(reportId: string, data: NewReport, now: Instant) returns (r: Result<()>)
      requires Valid()
      modifies this
      ensures (r, spatialIndex, imageHashes) == Register(old(spatialIndex), old(imageHashes), reportId, data, now)
      ensures Valid()
    {
      if data.lat.None? {
        return KeyError("lat");
      }
      if data.lon.None? {
        return KeyError("lon");
      }
      if data.issueType.None? {
        return KeyError("issue_type");
      }
      spatialIndex := spatialIndex + [SpatialRecord(reportId, data.lat.value, data.lon.value, data.issueType.value, now)];
      if data.imageHash.Some? {
        imageHashes := Put(imageHashes, data.imageHash.value, reportId);
      }
      return Ok(());
    }
  }
}
