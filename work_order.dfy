/**
 * The work-order drafting engine: a formal draft for a High or Critical
 * report, with an order id derived from the date and the report id, the
 * department responsible for the issue type, a plain-text rendering for the
 * email body and the structured fields for a PDF or a database row.
 */
module WorkOrders {
  import opened Wrappers
  import opened Text
  import opened Records

  /** A reading of the local clock, as `datetime.now()` returns it. */
  datatype DateTime = DateTime(year: int, month: int, day: int, hour: int, minute: int, second: int) {
    /** A clock reading after the year 1000, where `%Y` prints four digits on every platform. */
    predicate Valid() {
      && 1000 <= year <= 9999 && 1 <= month <= 12 && 1 <= day <= 31
      && 0 <= hour < 24 && 0 <= minute < 60 && 0 <= second < 60
    }
  }

  /** A zero-padded `strftime` field such as `%m` (width 2) or `%Y` (width 4). */
  function Field(n: nat, width: nat): (r: string)
    requires 1 <= width && n < Pow10(width)
    ensures |r| == width && AllDigits(r)
    ensures DecimalValue(r) == n
  {
    DecimalLength(n, width);
    DecimalRoundTrip(n);
    ZeroPadDigits(Decimal(n), width);
    ZeroPad(Decimal(n), width)
  }

  /** `strftime('%Y%m%d')`: eight digits that read back as the year, month and day. */
  function CompactDate(d: DateTime): (r: string)
    requires d.Valid()
    ensures |r| == 8 && AllDigits(r)
    ensures DecimalValue(r[..4]) == d.year && DecimalValue(r[4..6]) == d.month && DecimalValue(r[6..]) == d.day
  {
    var y, m, dd := Field(d.year, 4), Field(d.month, 2), Field(d.day, 2);
    assert (y + m + dd)[..4] == y && (y + m + dd)[4..6] == m && (y + m + dd)[6..] == dd;
    y + m + dd
  }

  /** Two fields with a separator between them. */
  function Join(a: string, sep: char, b: string): (r: string)
    ensures |r| == |a| + 1 + |b|
    ensures r[..|a|] == a && r[|a|] == sep && r[|a| + 1..] == b
  {
    var r := a + [sep] + b;
    assert r[..|a|] == a && r[|a| + 1..] == b;
    r
  }

  /** `strftime('%Y-%m-%d')`: the year, month and day again, separated by dashes. */
  function DayText(d: DateTime): (r: string)
    requires d.Valid()
    ensures |r| == 10 && r[4] == '-' && r[7] == '-'
    ensures AllDigits(r[..4]) && AllDigits(r[5..7]) && AllDigits(r[8..])
    ensures DecimalValue(r[..4]) == d.year && DecimalValue(r[5..7]) == d.month && DecimalValue(r[8..]) == d.day
  {
    var y, m, dd := Field(d.year, 4), Field(d.month, 2), Field(d.day, 2);
    var tail := Join(m, '-', dd);
    var r := Join(y, '-', tail);
    assert r[5..] == tail;
    assert r[5..7] == tail[..2];
    assert r[8..] == tail[3..];
    r
  }

  /** `strftime('%Y-%m-%d %H:%M:%S')`: the draft's date line, on the same day as its order id. */
  function Stamp(d: DateTime): (r: string)
    requires d.Valid()
    ensures |r| == 19 && r[10] == ' '
    ensures r[..10] == DayText(d)
  {
    Join(DayText(d), ' ', Join(Field(d.hour, 2), ':', Join(Field(d.minute, 2), ':', Field(d.second, 2))))
  }

  const GeneralMaintenance: string := "General Maintenance"

  /** The departments that own each issue type. */
  const DepartmentMap: map<string, string> := map[
    "pothole" := "Roads & Transport Department",
    "street_light" := "Electrical Engineering Division",
    "garbage" := "Sanitation & Waste Management"]

  /** The department for an issue type, looked up by its exact spelling. */
  function Department(issueType: Option<string>): (dept: string)
    ensures issueType.Some? && issueType.value in DepartmentMap ==> dept == DepartmentMap[issueType.value]
    ensures dept == GeneralMaintenance <==> !(issueType.Some? && issueType.value in DepartmentMap)
  {
    if issueType.Some? && issueType.value in DepartmentMap then DepartmentMap[issueType.value] else GeneralMaintenance
  }

  /** `WO-<YYYYMMDD>-<first six characters of the report id, upper-cased>`. */
  function WorkOrderId(reportId: string, now: DateTime): (id: string)
    requires now.Valid()
    ensures 12 <= |id| <= 18
  {
    Join("WO-" + CompactDate(now), '-', Upper(Take(reportId, 6)))
  }

  /** Reads an order id back into the date it was issued on and its report-id tag. */
  function ParseWorkOrderId(id: string): Option<(int, int, int, string)> {
    if 12 <= |id| <= 18 && id[..3] == "WO-" && AllDigits(id[3..11]) && id[11] == '-' then
      var digits := id[3..11];
      Some((DecimalValue(digits[..4]), DecimalValue(digits[4..6]), DecimalValue(digits[6..]), id[12..]))
    else None
  }

  /** An order id records the day it was drafted on and the report it belongs to. */
  lemma WorkOrderIdRoundTrip(reportId: string, now: DateTime)
    requires now.Valid()
    ensures ParseWorkOrderId(WorkOrderId(reportId, now)) == Some((now.year, now.month, now.day, Upper(Take(reportId, 6))))
  {
    var date, tag := CompactDate(now), Upper(Take(reportId, 6));
    var id := WorkOrderId(reportId, now);
    var head := "WO-" + date;
    assert id[..11] == head;
    assert id[..3] == head[..3] == "WO-";
    assert id[3..11] == head[3..] == date;
  }

  /** Drafts issued on different days never share an order id. */
  lemma DistinctDaysDistinctIds(r1: string, d1: DateTime, r2: string, d2: DateTime)
    requires d1.Valid() && d2.Valid()
    requires (d1.year, d1.month, d1.day) != (d2.year, d2.month, d2.day)
    ensures WorkOrderId(r1, d1) != WorkOrderId(r2, d2)
  {
    WorkOrderIdRoundTrip(r1, d1);
    WorkOrderIdRoundTrip(r2, d2);
  }

  datatype Header = Header(orderId: string, date: string, department: string, priorityFlag: bool)
  datatype TechnicalSpecs = TechnicalSpecs(issueType: string, riskScore: Option<real>, actionCode: Option<string>)
  datatype Budget = Budget(estimatedInr: Option<real>, contingencyFund: int)
  /** The structured data for the PDF and the database. */
  datatype PdfData = PdfData(header: Header, location: Location, technicalSpecs: TechnicalSpecs, budget: Budget)
  /** The dictionary `generate_draft` returns. */
  datatype WorkOrder = WorkOrder(workOrderId: string, textPreview: string, pdfData: PdfData)

  /** Python's `str()` of a float; its digits are not modelled. */
  type FloatRepr = real -> string

  /** An f-string field of an optional number: `None` when the key is missing. */
  function ShowNumber(v: Option<real>, repr: FloatRepr): string {
    if v.Some? then repr(v.value) else "None"
  }

  /** An f-string field of an optional text: `None` when the key is missing. */
  function ShowText(v: Option<string>): string {
    if v.Some? then v.value else "None"
  }

  const Rule: string := "------------------------------------------------------------"
  const Disclaimer: string :=
    "NOTICE: This is an automatically generated draft Work Order based on "
    + "Civic-Eye AI assessment. Estimates are algorithmic. "
    + "Site engineer approval required before tendering."

  /** The opening lines of the plain-text draft, up to the order id. */
  const PreviewHead: string := "MUNICIPAL CORPORATION - WORK ORDER DRAFT\n" + Rule + "\nOrder ID:       "

  /** The rest of the plain-text draft, after the order id. */
  function PreviewBody(timestamp: string, dept: string, priority: string, location: Location,
                       issueTitle: string, decision: AgentReport, repr: FloatRepr): string
  {
    "\nDate:           " + timestamp
    + "\nDepartment:     " + dept
    + "\nSubject:        URGENT REPAIR - " + Upper(priority) + " PRIORITY\n"
    + "\n1. SITE LOCATION"
    + "\n   Coordinates: " + ShowNumber(location.lat, repr) + ", " + ShowNumber(location.lon, repr)
    + "\n   Approx Addr: " + location.address.GetOr("N/A") + "\n"
    + "\n2. ISSUE ASSESSMENT"
    + "\n   Type:        " + issueTitle
    + "\n   Severity:    " + ShowText(decision.severity)
    + "\n   Risk Score:  " + ShowNumber(decision.riskScore, repr) + "/100\n"
    + "\n3. ACTION PLAN"
    + "\n   Recommendation: " + ShowText(decision.recommendedAction) + "\n"
    + "\n4. LOGISTICS ESTIMATES"
    + "\n   Est. Cost:   Rs. " + ShowNumber(decision.estimatedCost, repr)
    + "\n   Est. Time:   " + ShowNumber(decision.repairTimeDays, repr) + " Days\n"
    + "\n" + Rule + "\n" + Disclaimer + "\n" + Rule + "\n"
  }

  /** The contingency fund: `int(cost * 0.10)`, with a missing cost read as 0. */
  function Contingency(estimatedCost: Option<real>): (c: int)
    ensures estimatedCost.None? ==> c == 0
    ensures estimatedCost.Some? && estimatedCost.value >= 0.0 ==>
      0 <= c && c as real <= estimatedCost.value / 10.0 < c as real + 1.0
    ensures estimatedCost.Some? && estimatedCost.value < 0.0 ==>
      c <= 0 && c as real - 1.0 < estimatedCost.value / 10.0 <= c as real
  {
    Trunc(estimatedCost.GetOr(0.0) * 0.10)
  }

  predicate UrgentPriority(priority: Option<string>) {
    priority == Some("High") || priority == Some("Critical")
  }

  lemma PrefixOfConcat(a: string, b: string)
    ensures StartsWith(a + b, a)
  {
    assert (a + b)[..|a|] == a;
  }

  /** The draft `generate_draft` builds once the priority gate is passed. */
  function Draft(reportId: string, location: Location, decision: AgentReport, priority: string,
                 now: DateTime, repr: FloatRepr): (w: WorkOrder)
    requires now.Valid()
    // the id carries the day and the report, and the header and the text repeat it
    ensures ParseWorkOrderId(w.workOrderId) == Some((now.year, now.month, now.day, Upper(Take(reportId, 6))))
    ensures w.pdfData.header.orderId == w.workOrderId
    ensures StartsWith(w.textPreview, PreviewHead + w.workOrderId)
    ensures w.pdfData.header.date == Stamp(now)
    // the issue is the reported one in title case, "Maintenance" when none is given
    ensures w.pdfData.technicalSpecs.issueType == Title(decision.issueType.GetOr("maintenance"))
    ensures Lower(w.pdfData.technicalSpecs.issueType) == Lower(decision.issueType.GetOr("maintenance"))
    ensures |w.pdfData.technicalSpecs.issueType| == |decision.issueType.GetOr("maintenance")|
  {
    var issueTitle := Title(decision.issueType.GetOr("maintenance"));
    var dept := Department(decision.issueType);
    var id := WorkOrderId(reportId, now);
    var text := PreviewHead + id + PreviewBody(Stamp(now), dept, priority, location, issueTitle, decision, repr);
    WorkOrderIdRoundTrip(reportId, now);
    LowerOfTitle(decision.issueType.GetOr("maintenance"));
    PrefixOfConcat(PreviewHead + id, PreviewBody(Stamp(now), dept, priority, location, issueTitle, decision, repr));
    WorkOrder(id, text, PdfData(
      Header(id, Stamp(now), dept, priority == "Critical"),
      location,
      TechnicalSpecs(issueTitle, decision.riskScore, decision.recommendedAction),
      Budget(decision.estimatedCost, Contingency(decision.estimatedCost))))
  }

  /**
   * `generate_draft`: nothing for a routine report; otherwise the draft,
   * dated by one reading of the clock.
   */
  function GenerateDraft(reportId: string, location: Location, decision: AgentReport, now: DateTime, repr: FloatRepr)
    : (r: Option<WorkOrder>)
    requires now.Valid()
    // only High and Critical reports are drafted
    ensures r.Some? <==> UrgentPriority(decision.priority)
    ensures r.Some? ==> r.value == Draft(reportId, location, decision, decision.priority.value, now, repr)
    // the department owns the issue type, and only Critical raises the flag
    ensures r.Some? ==> r.value.pdfData.header.department == Department(decision.issueType)
    ensures r.Some? ==> (r.value.pdfData.header.priorityFlag <==> decision.priority == Some("Critical"))
    // the site and the figures are passed through unchanged
    ensures r.Some? ==>
      && r.value.pdfData.location == location
      && r.value.pdfData.technicalSpecs.riskScore == decision.riskScore
      && r.value.pdfData.technicalSpecs.actionCode == decision.recommendedAction
      && r.value.pdfData.budget.estimatedInr == decision.estimatedCost
      && r.value.pdfData.budget.contingencyFund == Contingency(decision.estimatedCost)
  {
    if UrgentPriority(decision.priority) then Some(Draft(reportId, location, decision, decision.priority.value, now, repr))
    else None
  }

  /** The emailed text names the order it belongs to. */
  lemma PreviewNamesOrder(reportId: string, location: Location, decision: AgentReport, now: DateTime, repr: FloatRepr)
    requires now.Valid() && UrgentPriority(decision.priority)
    ensures var w := GenerateDraft(reportId, location, decision, now, repr).value;
      Contains(w.textPreview, w.workOrderId)
  {
    var w := GenerateDraft(reportId, location, decision, now, repr).value;
    assert w.textPreview[|PreviewHead|..|PreviewHead| + |w.workOrderId|] == w.workOrderId;
    assert OccursAt(w.textPreview, w.workOrderId, |PreviewHead|);
    ContainsIff(w.textPreview, w.workOrderId);
  }
}
