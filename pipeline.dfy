/**
 * The single-page client: it holds the selected photo and the three
 * selections, and runs the five backend calls in order (analyze, verify,
 * reward, work order, email), storing each response as it arrives. The
 * backend is a parameter: one function per endpoint, from the request the
 * client builds to the response body or a failed request.
 */
module Pipeline {
  import opened Wrappers
  import opened Text
  import opened Records
  import Verification
  import Rewards
  import WorkOrders
  import Communication

  const FailureMessage: string := "Pipeline failed. Check backend logs."
  const DemoUser: string := "demo_user_001"
  /** The confidence sent when the analysis gives none. */
  const FallbackConfidence: real := 0.85
  /** The fixed site sent for verification. */
  const DemoSite: Location := Location(Some(12.9716), Some(77.5946), None)
  /** The fixed site, with its address, sent for a work order. */
  const DemoAddressedSite: Location := Location(Some(12.9716), Some(77.5946), Some("MG Road, Bangalore"))

  /** The pipeline's progress, as the `stage` state variable holds it. */
  datatype Stage = Idle | Analyzing | Verifying | Processing | Complete

  /** A file chosen in the file input, by name. */
  type FileRef = string

  datatype AnalyzeRequest = AnalyzeRequest(image: FileRef, roadType: string, trafficLevel: string, issueType: string)
  datatype VerifyRequest = VerifyRequest(visionConfidence: real, agentResult: AgentReport, location: Location)
  datatype RewardRequest = RewardRequest(reportId: string, reportData: AgentReport, userId: string)
  datatype WorkOrderRequest = WorkOrderRequest(reportId: string, location: Location, agentDecision: AgentReport)
  datatype EmailRequest = EmailRequest(workOrderData: WorkOrders.WorkOrder)

  /** A request to one of the five endpoints. */
  datatype Request =
    | Analyze(analyze: AnalyzeRequest)
    | Verify(verify: VerifyRequest)
    | Reward(reward: RewardRequest)
    | Draft(draft: WorkOrderRequest)
    | Email(email: EmailRequest)
  {
    /** The position of the endpoint in the pipeline. */
    function Step(): nat {
      match this
      case Analyze(_) => 0
      case Verify(_) => 1
      case Reward(_) => 2
      case Draft(_) => 3
      case Email(_) => 4
    }
  }

  /** An HTTP exchange: the response body, or the error the client raises (network failure, error status). */
  datatype Reply<+T> = Success(data: T) | Failure

  /** What each endpoint answers to a request. */
  datatype Backend = Backend(
    analyze: AnalyzeRequest -> Reply<AgentReport>,
    verify: VerifyRequest -> Reply<Verification.Response>,
    reward: RewardRequest -> Reply<Rewards.RewardResult>,
    workOrder: WorkOrderRequest -> Reply<Option<WorkOrders.WorkOrder>>,
    email: EmailRequest -> Reply<Communication.Reply>)

  /** A request sent, and the stage the page showed while it was in flight. */
  datatype Call = Call(stage: Stage, request: Request)

  /** The component's state variables. */
  datatype Ui = Ui(
    selectedFile: Option<FileRef>,
    previewUrl: Option<string>,
    roadType: string,
    trafficLevel: string,
    issueType: string,
    stage: Stage,
    analysis: Option<AgentReport>,
    verification: Option<Verification.Response>,
    reward: Option<Rewards.RewardResult>,
    workOrder: Option<WorkOrders.WorkOrder>,
    emailStatus: Option<Communication.Reply>,
    error: Option<string>)

  /** The run button is disabled without a photo and while a run is in progress. */
  predicate RunDisabled(ui: Ui) {
    ui.selectedFile.None? || (ui.stage != Idle && ui.stage != Complete)
  }

  /** `getRiskColor`: the style classes for a risk score. */
  function RiskColor(score: real): (style: string)
    ensures style == "text-red-600 bg-red-100 border-red-200" <==> score >= 80.0
    ensures style == "text-amber-600 bg-amber-100 border-amber-200" <==> 40.0 <= score < 80.0
    ensures style == "text-green-600 bg-green-100 border-green-200" <==> score < 40.0
  {
    if score >= 80.0 then "text-red-600 bg-red-100 border-red-200"
    else if score >= 40.0 then "text-amber-600 bg-amber-100 border-amber-200"
    else "text-green-600 bg-green-100 border-green-200"
  }

  function Severity(style: string): nat {
    if style == "text-red-600 bg-red-100 border-red-200" then 2
    else if style == "text-amber-600 bg-amber-100 border-amber-200" then 1
    else 0
  }

  /** A higher risk score is never shown in a milder colour. */
  lemma RiskColorMonotone(lower: real, higher: real)
    requires lower <= higher
    ensures Severity(RiskColor(lower)) <= Severity(RiskColor(higher))
  {
  }

  /** `resetPipeline`: every result slot and the error cleared, back to idle; the inputs stay. */
  function Reset(ui: Ui): (r: Ui)
    ensures r.stage == Idle
    ensures !RunDisabled(r) <==> ui.selectedFile.Some?
    ensures r.analysis.None? && r.verification.None? && r.reward.None? && r.workOrder.None?
    ensures r.emailStatus.None? && r.error.None?
    ensures SameInputs(r, ui)
  {
    ui.(stage := Idle, analysis := None, verification := None, reward := None, workOrder := None,
        emailStatus := None, error := None)
  }

  predicate SameInputs(a: Ui, b: Ui) {
    && a.selectedFile == b.selectedFile && a.previewUrl == b.previewUrl
    && a.roadType == b.roadType && a.trafficLevel == b.trafficLevel && a.issueType == b.issueType
  }

  /** `handleFileChange`: a chosen file replaces the photo and its preview and resets the pipeline. */
  function ChooseFile(ui: Ui, file: Option<FileRef>, objectUrl: string): (r: Ui)
    ensures file.None? ==> r == ui
    ensures file.Some? ==> r == Reset(ui.(selectedFile := file, previewUrl := Some(objectUrl)))
    ensures file.Some? ==> !RunDisabled(r)
  {
    if file.Some? then Reset(ui.(selectedFile := file, previewUrl := Some(objectUrl))) else ui
  }

  /** `vision_confidence || 0.85`: a missing or zero confidence is replaced. */
  function Fallback(visionConfidence: Option<real>): (c: real)
    ensures visionConfidence.Some? && visionConfidence.value != 0.0 ==> c == visionConfidence.value
    ensures visionConfidence.None? || visionConfidence == Some(0.0) ==> c == FallbackConfidence
  {
    if visionConfidence.Some? && visionConfidence.value != 0.0 then visionConfidence.value else FallbackConfidence
  }

  /** A failed request: the message shown, back to idle, the results so far kept. */
  function Failed(ui: Ui): Ui {
    ui.(error := Some(FailureMessage), stage := Idle)
  }

  /** The stage shown while the request of pipeline step `k` is in flight. */
  function StageOf(k: nat): Stage {
    if k == 0 then Analyzing else if k == 1 then Verifying else Processing
  }

  /** The calls are the pipeline's steps from `first` on, in order, each under its own stage. */
  predicate InOrder(calls: seq<Call>, first: nat) {
    forall i :: 0 <= i < |calls| ==> calls[i].request.Step() == first + i && calls[i].stage == StageOf(first + i)
  }

  /** A run ends idle with the failure message, or complete with the error it started with. */
  predicate Settled(out: Ui, error: Option<string>) {
    && (out.stage == Idle || out.stage == Complete)
    && (out.stage == Idle ==> out.error == Some(FailureMessage))
    && (out.stage == Complete ==> out.error == error)
  }

  /** The backend answered the request with a failure (a network error or an error status). */
  predicate Refused(backend: Backend, r: Request) {
    match r
    case Analyze(q) => backend.analyze(q).Failure?
    case Verify(q) => backend.verify(q).Failure?
    case Reward(q) => backend.reward(q).Failure?
    case Draft(q) => backend.workOrder(q).Failure?
    case Email(q) => backend.email(q).Failure?
  }

  /**
   * The answer sends the run on to the next step: any analysis, a verified
   * report, a reward for a High or Critical report, a returned draft.
   */
  predicate Continues(backend: Backend, r: Request) {
    match r
    case Analyze(q) => backend.analyze(q).Success?
    case Verify(q) => backend.verify(q).Success? && backend.verify(q).data.isVerified
    case Reward(q) => backend.reward(q).Success? && WorkOrders.UrgentPriority(q.reportData.priority)
    case Draft(q) => backend.workOrder(q).Success? && backend.workOrder(q).data.Some?
    case Email(_) => false
  }

  /** The slot of the request's step holds the backend's answer to it. */
  predicate Stored(ui: Ui, backend: Backend, r: Request) {
    match r
    case Analyze(q) => backend.analyze(q).Success? && ui.analysis == Some(backend.analyze(q).data)
    case Verify(q) => backend.verify(q).Success? && ui.verification == Some(backend.verify(q).data)
    case Reward(q) => backend.reward(q).Success? && ui.reward == Some(backend.reward(q).data)
    case Draft(q) => backend.workOrder(q).Success? && ui.workOrder == backend.workOrder(q).data
    case Email(q) => backend.email(q).Success? && ui.emailStatus == Some(backend.email(q).data)
  }

  /** Two states agree on the result slot of pipeline step `k`. */
  predicate SameSlot(a: Ui, b: Ui, k: nat) {
    if k == 0 then a.analysis == b.analysis
    else if k == 1 then a.verification == b.verification
    else if k == 2 then a.reward == b.reward
    else if k == 3 then a.workOrder == b.workOrder
    else a.emailStatus == b.emailStatus
  }

  /**
   * How the backend's answers drive a run from step `first` on: each call but
   * the last was answered so that the run went on, and the last was refused
   * or closed its gate; the page ends idle exactly when the last call was
   * refused; every answer received is in its slot, and the slot of a refused
   * call keeps what it held before.
   */
  predicate Driven(before: Ui, after: Ui, calls: seq<Call>, backend: Backend, first: nat) {
    && |calls| >= 1
    && (forall i :: 0 <= i < |calls| ==> (i < |calls| - 1 <==> Continues(backend, calls[i].request)))
    && (after.stage == Idle <==> Refused(backend, calls[|calls| - 1].request))
    && (forall i :: 0 <= i < |calls| && !Refused(backend, calls[i].request) ==> Stored(after, backend, calls[i].request))
    && (Refused(backend, calls[|calls| - 1].request) ==> SameSlot(after, before, first + |calls| - 1))
  }

  /** The report sent for a reward: the analysis with the selected issue type and the verification status. */
  function RewardData(a: AgentReport, issueType: string, v: Verification.Response): AgentReport {
    a.(issueType := Some(Lower(issueType)), verificationStatus := Some(v.status.Name()))
  }

  /** Steps 4 and 5: the work order, then the email for it when one was drafted. */
  function DraftStep(ui: Ui, a: AgentReport, v: Verification.Response, backend: Backend): (out: (Ui, seq<Call>))
    requires ui.stage == Processing
    ensures SameInputs(out.0, ui) && Settled(out.0, ui.error)
    ensures 1 <= |out.1| <= 2 && InOrder(out.1, 3)
    ensures Driven(ui, out.0, out.1, backend, 3)
    ensures out.1[0].request == Draft(WorkOrderRequest(v.reportId, DemoAddressedSite, a.(issueType := Some(Lower(ui.issueType)))))
    ensures out.0.analysis == ui.analysis && out.0.verification == ui.verification && out.0.reward == ui.reward
    ensures |out.1| < 2 ==> out.0.emailStatus == ui.emailStatus
    ensures |out.1| == 2 ==> out.0.workOrder.Some? && out.1[1].request == Email(EmailRequest(out.0.workOrder.value))
  {
    var req := WorkOrderRequest(v.reportId, DemoAddressedSite, a.(issueType := Some(Lower(ui.issueType))));
    var call := Call(ui.stage, Draft(req));
    match backend.workOrder(req)
    case Failure => (Failed(ui), [call])
    case Success(w) =>
      var ui' := ui.(workOrder := w);
      if w.None? then (ui'.(stage := Complete), [call])
      else
        var emailReq := EmailRequest(w.value);
        var emailCall := Call(ui.stage, Email(emailReq));
        match backend.email(emailReq)
        case Failure => (Failed(ui'), [call, emailCall])
        case Success(e) => (ui'.(emailStatus := Some(e), stage := Complete), [call, emailCall])
  }

  /** Step 3: the reward, then the work order for a High or Critical report. */
  function RewardStep(ui: Ui, a: AgentReport, v: Verification.Response, backend: Backend): (out: (Ui, seq<Call>))
    requires ui.stage == Processing
    ensures SameInputs(out.0, ui) && Settled(out.0, ui.error)
    ensures 1 <= |out.1| <= 3 && InOrder(out.1, 2)
    ensures Driven(ui, out.0, out.1, backend, 2)
    ensures out.1[0].request == Reward(RewardRequest(v.reportId, RewardData(a, ui.issueType, v), DemoUser))
    ensures out.0.analysis == ui.analysis && out.0.verification == ui.verification
    ensures |out.1| < 2 ==> out.0.workOrder == ui.workOrder
    ensures |out.1| < 3 ==> out.0.emailStatus == ui.emailStatus
    ensures |out.1| >= 2 ==> out.0.reward.Some? && WorkOrders.UrgentPriority(a.priority)
    ensures |out.1| == 3 ==> out.0.workOrder.Some? && out.1[2].request == Email(EmailRequest(out.0.workOrder.value))
  {
    var req := RewardRequest(v.reportId, RewardData(a, ui.issueType, v), DemoUser);
    var call := Call(ui.stage, Reward(req));
    match backend.reward(req)
    case Failure => (Failed(ui), [call])
    case Success(r) =>
      var ui' := ui.(reward := Some(r));
      if !WorkOrders.UrgentPriority(a.priority) then (ui'.(stage := Complete), [call])
      else
        var rest := DraftStep(ui', a, v, backend);
        (rest.0, [call] + rest.1)
  }

  /** Step 2: verification, then the rest for a verified report. */
  function VerifyStep(ui: Ui, a: AgentReport, backend: Backend): (out: (Ui, seq<Call>))
    requires ui.stage == Verifying
    ensures SameInputs(out.0, ui) && Settled(out.0, ui.error)
    ensures 1 <= |out.1| <= 4 && InOrder(out.1, 1)
    ensures Driven(ui, out.0, out.1, backend, 1)
    ensures out.1[0].request == Verify(VerifyRequest(Fallback(a.visionConfidence), a, DemoSite))
    ensures out.0.analysis == ui.analysis
    ensures |out.1| < 2 ==> out.0.reward == ui.reward
    ensures |out.1| < 3 ==> out.0.workOrder == ui.workOrder
    ensures |out.1| < 4 ==> out.0.emailStatus == ui.emailStatus
    ensures |out.1| >= 2 ==> out.0.verification.Some? && out.0.verification.value.isVerified
    ensures |out.1| >= 2 ==>
      out.1[1].request == Reward(RewardRequest(out.0.verification.value.reportId, RewardData(a, ui.issueType, out.0.verification.value), DemoUser))
    ensures |out.1| >= 3 ==> out.0.reward.Some? && WorkOrders.UrgentPriority(a.priority)
    ensures |out.1| >= 3 ==>
      out.1[2].request == Draft(WorkOrderRequest(out.0.verification.value.reportId, DemoAddressedSite, a.(issueType := Some(Lower(ui.issueType)))))
    ensures |out.1| == 4 ==> out.0.workOrder.Some? && out.1[3].request == Email(EmailRequest(out.0.workOrder.value))
  {
    var req := VerifyRequest(Fallback(a.visionConfidence), a, DemoSite);
    var call := Call(ui.stage, Verify(req));
    match backend.verify(req)
    case Failure => (Failed(ui), [call])
    case Success(v) =>
      var ui' := ui.(verification := Some(v));
      if !v.isVerified then (ui'.(stage := Complete), [call])
      else
        var rest := RewardStep(ui'.(stage := Processing), a, v, backend);
        (rest.0, [call] + rest.1)
  }

  /** Step 1: the analysis of the photo, then the rest. */
  function AnalyzeStep(ui: Ui, backend: Backend): (out: (Ui, seq<Call>))
    requires ui.selectedFile.Some? && ui.stage == Analyzing
    ensures SameInputs(out.0, ui) && Settled(out.0, ui.error)
    ensures 1 <= |out.1| <= 5 && InOrder(out.1, 0)
    ensures Driven(ui, out.0, out.1, backend, 0)
    ensures out.1[0].request == Analyze(AnalyzeRequest(ui.selectedFile.value, ui.roadType, ui.trafficLevel, Lower(ui.issueType)))
    ensures |out.1| < 2 ==> out.0.verification == ui.verification
    ensures |out.1| < 3 ==> out.0.reward == ui.reward
    ensures |out.1| < 4 ==> out.0.workOrder == ui.workOrder
    ensures |out.1| < 5 ==> out.0.emailStatus == ui.emailStatus
    ensures |out.1| >= 2 ==>
      && out.0.analysis.Some?
      && out.1[1].request == Verify(VerifyRequest(Fallback(out.0.analysis.value.visionConfidence), out.0.analysis.value, DemoSite))
    ensures |out.1| >= 3 ==> out.0.verification.Some? && out.0.verification.value.isVerified
    ensures |out.1| >= 3 ==>
      out.1[2].request == Reward(RewardRequest(out.0.verification.value.reportId,
                                               RewardData(out.0.analysis.value, ui.issueType, out.0.verification.value), DemoUser))
    ensures |out.1| >= 4 ==> out.0.reward.Some? && WorkOrders.UrgentPriority(out.0.analysis.value.priority)
    ensures |out.1| >= 4 ==>
      out.1[3].request == Draft(WorkOrderRequest(out.0.verification.value.reportId, DemoAddressedSite,
                                                 out.0.analysis.value.(issueType := Some(Lower(ui.issueType)))))
    ensures |out.1| == 5 ==> out.0.workOrder.Some? && out.1[4].request == Email(EmailRequest(out.0.workOrder.value))
  {
    var req := AnalyzeRequest(ui.selectedFile.value, ui.roadType, ui.trafficLevel, Lower(ui.issueType));
    var call := Call(ui.stage, Analyze(req));
    match backend.analyze(req)
    case Failure => (Failed(ui), [call])
    case Success(a) =>
      var rest := VerifyStep(ui.(analysis := Some(a), stage := Verifying), a, backend);
      (rest.0, [call] + rest.1)
  }

  /**
   * `runFullPipeline` as a function of the state before the click: the state
   * after the last response, and the requests sent. Nothing happens without
   * a photo; a run starts by clearing the error only.
   */
  function Run(ui: Ui, backend: Backend): (out: (Ui, seq<Call>))
    ensures ui.selectedFile.None? ==> out == (ui, [])
    ensures ui.selectedFile.Some? ==>
      // the run settles, enabling the button again, and shows the message exactly when it failed
      && SameInputs(out.0, ui) && Settled(out.0, None) && !RunDisabled(out.0)
      // the requests follow the pipeline's order, each sent while the button is disabled
      && 1 <= |out.1| <= 5 && InOrder(out.1, 0)
      // the photo is sent with the selected road type, traffic level and lower-cased issue type
      && out.1[0].request == Analyze(AnalyzeRequest(ui.selectedFile.value, ui.roadType, ui.trafficLevel, Lower(ui.issueType)))
      // the backend's answers decide where the run stops, how it ends and what it stores
      && Driven(ui, out.0, out.1, backend, 0)
      && (forall i :: 0 <= i < |out.1| ==> RunDisabled(out.0.(stage := out.1[i].stage)))
      // verification is asked with the analysis and its confidence, or 0.85 in its place
      && (|out.1| >= 2 ==>
           && out.0.analysis.Some?
           && out.1[1].request == Verify(VerifyRequest(Fallback(out.0.analysis.value.visionConfidence), out.0.analysis.value, DemoSite)))
      // each later step only for a verified, then an urgent report, then a drafted order
      && (|out.1| >= 3 ==> out.0.verification.Some? && out.0.verification.value.isVerified)
      && (|out.1| >= 4 ==> out.0.reward.Some? && WorkOrders.UrgentPriority(out.0.analysis.value.priority))
      // the reward and the work order are asked for the verified report, with the selected issue type
      && (|out.1| >= 3 ==>
           out.1[2].request == Reward(RewardRequest(out.0.verification.value.reportId,
                                                    RewardData(out.0.analysis.value, ui.issueType, out.0.verification.value), DemoUser)))
      && (|out.1| >= 4 ==>
           out.1[3].request == Draft(WorkOrderRequest(out.0.verification.value.reportId, DemoAddressedSite,
                                                      out.0.analysis.value.(issueType := Some(Lower(ui.issueType))))))
      && (|out.1| == 5 ==> out.0.workOrder.Some? && out.1[4].request == Email(EmailRequest(out.0.workOrder.value)))
      // the slots of the steps not reached keep what the previous run left there
      && (|out.1| < 2 ==> out.0.verification == ui.verification)
      && (|out.1| < 3 ==> out.0.reward == ui.reward)
      && (|out.1| < 4 ==> out.0.workOrder == ui.workOrder)
      && (|out.1| < 5 ==> out.0.emailStatus == ui.emailStatus)
  {
    if ui.selectedFile.None? then (ui, [])
    else AnalyzeStep(ui.(stage := Analyzing, error := None), backend)
  }

  /**
   * A report the verifier does not confirm ends the run after the verify
   * call: the page is complete, shows the verification, and no reward is
   * asked for.
   */
  lemma UnverifiedRunStops(ui: Ui, backend: Backend, a: AgentReport, v: Verification.Response)
    requires ui.selectedFile.Some?
    requires backend.analyze(AnalyzeRequest(ui.selectedFile.value, ui.roadType, ui.trafficLevel, Lower(ui.issueType))) == Success(a)
    requires backend.verify(VerifyRequest(Fallback(a.visionConfidence), a, DemoSite)) == Success(v) && !v.isVerified
    ensures var out := Run(ui, backend);
      && |out.1| == 2 && out.0.stage == Complete && out.0.error.None?
      && out.0.analysis == Some(a) && out.0.verification == Some(v) && out.0.reward == ui.reward
  {
  }

  /**
   * A verified report whose reward is granted and whose analysis is High or
   * Critical gets the work-order request, for the verified report at the
   * demo address with the selected issue type.
   */
  lemma UrgentRewardedGetsWorkOrder(ui: Ui, backend: Backend, a: AgentReport, v: Verification.Response, r: Rewards.RewardResult)
    requires ui.selectedFile.Some?
    requires backend.analyze(AnalyzeRequest(ui.selectedFile.value, ui.roadType, ui.trafficLevel, Lower(ui.issueType))) == Success(a)
    requires backend.verify(VerifyRequest(Fallback(a.visionConfidence), a, DemoSite)) == Success(v) && v.isVerified
    requires backend.reward(RewardRequest(v.reportId, RewardData(a, ui.issueType, v), DemoUser)) == Success(r)
    requires WorkOrders.UrgentPriority(a.priority)
    ensures var out := Run(ui, backend);
      && |out.1| >= 4 && out.0.reward == Some(r)
      && out.1[3].request == Draft(WorkOrderRequest(v.reportId, DemoAddressedSite, a.(issueType := Some(Lower(ui.issueType)))))
  {
  }

  /** A refused analysis ends the run at once: idle, with the failure message, nothing else asked. */
  lemma RefusedAnalysisStopsIdle(ui: Ui, backend: Backend)
    requires ui.selectedFile.Some?
    requires backend.analyze(AnalyzeRequest(ui.selectedFile.value, ui.roadType, ui.trafficLevel, Lower(ui.issueType))).Failure?
    ensures var out := Run(ui, backend);
      && |out.1| == 1 && out.0.stage == Idle && out.0.error == Some(FailureMessage)
      && out.0.analysis == ui.analysis && out.0.verification == ui.verification
  {
  }

  /** What the page shows fits together: each result belongs with the ones before it. */
  predicate Coherent(ui: Ui) {
    && (ui.reward.Some? ==> ui.verification.Some? && ui.verification.value.isVerified)
    && (ui.workOrder.Some? ==> ui.reward.Some? && ui.analysis.Some? && WorkOrders.UrgentPriority(ui.analysis.value.priority))
    && (ui.emailStatus.Some? ==> ui.workOrder.Some?)
  }

  /**
   * A run that starts by clearing every result slot, as `resetPipeline`
   * does; only the results of this run can then be shown.
   */
  function RunFresh(ui: Ui, backend: Backend): (out: (Ui, seq<Call>))
    ensures ui.selectedFile.None? ==> out == (ui, [])
    ensures ui.selectedFile.Some? ==> Coherent(out.0) && SameInputs(out.0, ui) && Settled(out.0, None)
    ensures ui.selectedFile.Some? ==> Driven(Reset(ui), out.0, out.1, backend, 0)
    // it is the code's run started from the page `resetPipeline` leaves
    ensures ui.selectedFile.Some? ==> out == Run(Reset(ui), backend)
  {
    if ui.selectedFile.None? then (ui, [])
    else AnalyzeStep(Reset(ui).(stage := Analyzing), backend)
  }

  /**
   * A re-run after a completed run whose new report is not verified keeps
   * the previous report's reward, work order and email on the page, beside
   * the new verification.
   */
  lemma StaleResultsSurvive(ui: Ui, backend: Backend, a: AgentReport, v: Verification.Response)
    requires !RunDisabled(ui) && Coherent(ui)
    requires ui.reward.Some? && ui.workOrder.Some?
    requires backend.analyze(AnalyzeRequest(ui.selectedFile.value, ui.roadType, ui.trafficLevel, Lower(ui.issueType))) == Success(a)
    requires backend.verify(VerifyRequest(Fallback(a.visionConfidence), a, DemoSite)) == Success(v) && !v.isVerified
    ensures var u := Run(ui, backend).0;
      u.stage == Complete && u.verification == Some(v) && u.reward == ui.reward && u.workOrder == ui.workOrder
      && !Coherent(u)
  {
  }

  /**
   * Re-running the same photo after a change of road type or traffic that
   * makes the analysis Low: the new report is verified and rewarded, but the
   * previous report's work order and email stay on the page beside it.
   */
  lemma StaleOrderSurvivesLowRerun(ui: Ui, backend: Backend, a: AgentReport, v: Verification.Response, r: Rewards.RewardResult)
    requires !RunDisabled(ui) && Coherent(ui)
    requires ui.workOrder.Some? && ui.emailStatus.Some?
    requires backend.analyze(AnalyzeRequest(ui.selectedFile.value, ui.roadType, ui.trafficLevel, Lower(ui.issueType))) == Success(a)
    requires !WorkOrders.UrgentPriority(a.priority)
    requires backend.verify(VerifyRequest(Fallback(a.visionConfidence), a, DemoSite)) == Success(v) && v.isVerified
    requires backend.reward(RewardRequest(v.reportId, RewardData(a, ui.issueType, v), DemoUser)) == Success(r)
    ensures var u := Run(ui, backend).0;
      && u.stage == Complete && u.analysis == Some(a) && u.reward == Some(r)
      && u.workOrder == ui.workOrder && u.emailStatus == ui.emailStatus
      && !Coherent(u)
  {
  }

  /** `vision_confidence ?? 0.85`: only a missing confidence is replaced. */
  function NullishFallback(visionConfidence: Option<real>): (c: real)
    ensures visionConfidence.Some? ==> c == visionConfidence.value
    ensures visionConfidence.None? ==> c == FallbackConfidence
  {
    visionConfidence.GetOr(FallbackConfidence)
  }

  /** A photo with no detection (confidence 0.0) is sent as 0.85 and passes the verifier's vision gate. */
  lemma ZeroConfidencePassesGate(db: seq<Verification.CachedReport>, agent: AgentReport, reportId: string,
                                 now: Verification.Instant, distance: Verification.DistanceFn)
    ensures var out := Verification.Verify(db, Some(Fallback(Some(0.0))), agent, Some(DemoSite), reportId, now, distance);
      !(out.0.Ok? && out.0.value.status == Verification.Rejected)
    ensures var out := Verification.Verify(db, Some(0.0), agent, Some(DemoSite), reportId, now, distance);
      out.0.Ok? && out.0.value.status == Verification.Rejected
  {
  }

  /** With the nullish fallback the verifier rejects exactly the photos the analysis scored below 0.40. */
  lemma NullishKeepsVisionGate(db: seq<Verification.CachedReport>, confidence: real, agent: AgentReport, reportId: string,
                               now: Verification.Instant, distance: Verification.DistanceFn)
    ensures var out := Verification.Verify(db, Some(NullishFallback(Some(confidence))), agent, Some(DemoSite), reportId, now, distance);
      out.0.Ok? && out.0.value.status == Verification.Rejected <==> confidence < Verification.VisionConfidenceMin
  {
  }

  /** The issue types offered by the selection box. */
  const IssueChoices: seq<string> := ["Pothole", "Street Light", "Garbage"]

  /** "Street Light" lower-cased is not the backend's key "street_light": no department and the default points. */
  lemma StreetLightMissesKey()
    ensures Lower("Street Light") == "street light"
    ensures WorkOrders.Department(Some(Lower("Street Light"))) == WorkOrders.GeneralMaintenance
    ensures Rewards.TypeBase(Lower("Street Light")) == 10 < Rewards.TypeBase("street_light")
  {
    assert Lower("Street Light") == "street light";
  }

  /** The backend key of a selection: lower case with spaces as underscores. */
  function BackendKey(choice: string): (key: string)
    ensures |key| == |choice|
    ensures forall i :: 0 <= i < |choice| ==> key[i] == if choice[i] == ' ' then '_' else LowerChar(choice[i])
  {
    seq(|choice|, i requires 0 <= i < |choice| => if choice[i] == ' ' then '_' else LowerChar(choice[i]))
  }

  /** Every selection maps to a key the work-order and reward tables know. */
  lemma ChoicesHaveKeys(choice: string)
    requires choice in IssueChoices
    ensures BackendKey(choice) in WorkOrders.DepartmentMap
    ensures WorkOrders.Department(Some(BackendKey(choice))) != WorkOrders.GeneralMaintenance
  {
    if choice == "Pothole" {
      assert BackendKey(choice) == "pothole";
    } else if choice == "Street Light" {
      assert BackendKey(choice) == "street_light";
    } else {
      assert BackendKey(choice) == "garbage";
    }
  }

  /** The page's state variables, updated by the handlers. */
  class App {
    var selectedFile: Option<FileRef>
    var previewUrl: Option<string>
    var roadType: string
    var trafficLevel: string
    var issueType: string
    var stage: Stage
    var analysis: Option<AgentReport>
    var verification: Option<Verification.Response>
    var reward: Option<Rewards.RewardResult>
    var workOrder: Option<WorkOrders.WorkOrder>
    var emailStatus: Option<Communication.Reply>
    var error: Option<string>

    function State(): Ui
      reads this
    {
      Ui(selectedFile, previewUrl, roadType, trafficLevel, issueType, stage,
         analysis, verification, reward, workOrder, emailStatus, error)
    }

    /** The initial state: no photo, a main road with medium traffic, a pothole, idle. */
    constructor ()
      ensures State() == Ui(None, None, "MainRoad", "Medium", "Pothole", Idle, None, None, None, None, None, None)
      ensures RunDisabled(State())
    {
      selectedFile, previewUrl := None, None;
      roadType, trafficLevel, issueType := "MainRoad", "Medium", "Pothole";
      stage := Idle;
      analysis, verification, reward, workOrder, emailStatus, error := None, None, None, None, None, None;
    }

    method ResetPipeline()
      modifies this
      ensures State() == Reset(old(State()))
    {
      analysis := None;
      verification := None;
      reward := None;
      workOrder := None;
      emailStatus := None;
      stage := Idle;
      error := None;
    }

    /** `handleFileChange`, given the first chosen file (if any) and the object URL made for it. */
    method HandleFileChange(file: Option<FileRef>, objectUrl: string)
      modifies this
      ensures State() == ChooseFile(old(State()), file, objectUrl)
    {
      if file.Some? {
        selectedFile := file;
        previewUrl := Some(objectUrl);
        ResetPipeline();
      }
    }

    /** `runFullPipeline`: returns the requests it sent, in order, with the stage shown during each. */
    method RunFullPipeline(backend: Backend) returns (calls: seq<Call>)
      modifies this
      ensures (State(), calls) == Run(old(State()), backend)
    {
      if selectedFile.None? {
        return [];
      }
      stage := Analyzing;
      error := None;
      calls := AnalyzeAndRest(backend);
    }

    /** Step 1 of the run: the analysis request, then the rest. */
    method AnalyzeAndRest(backend: Backend) returns (calls: seq<Call>)
      requires selectedFile.Some? && stage == Analyzing
      modifies this
      ensures (State(), calls) == AnalyzeStep(old(State()), backend)
    {
      var req := AnalyzeRequest(selectedFile.value, roadType, trafficLevel, Lower(issueType));
      var call := Call(stage, Analyze(req));
      var res := backend.analyze(req);
      if res.Failure? {
        error, stage := Some(FailureMessage), Idle;
        return [call];
      }
      analysis := Some(res.data);
      stage := Verifying;
      var rest := VerifyAndRest(res.data, backend);
      calls := [call] + rest;
    }

    /** Step 2: the verification request, then the rest for a verified report. */
    method VerifyAndRest(a: AgentReport, backend: Backend) returns (calls: seq<Call>)
      requires stage == Verifying
      modifies this
      ensures (State(), calls) == VerifyStep(old(State()), a, backend)
    {
      var req := VerifyRequest(Fallback(a.visionConfidence), a, DemoSite);
      var call := Call(stage, Verify(req));
      var res := backend.verify(req);
      if res.Failure? {
        error, stage := Some(FailureMessage), Idle;
        return [call];
      }
      var v := res.data;
      verification := Some(v);
      if !v.isVerified {
        stage := Complete;
        return [call];
      }
      stage := Processing;
      var rest := RewardAndRest(a, v, backend);
      calls := [call] + rest;
    }

    /** Step 3: the reward request, then the work order for a High or Critical report. */
    method RewardAndRest(a: AgentReport, v: Verification.Response, backend: Backend) returns (calls: seq<Call>)
      requires stage == Processing
      modifies this
      ensures (State(), calls) == RewardStep(old(State()), a, v, backend)
    {
      var req := RewardRequest(v.reportId, RewardData(a, issueType, v), DemoUser);
      var call := Call(stage, Reward(req));
      var res := backend.reward(req);
      if res.Failure? {
        error, stage := Some(FailureMessage), Idle;
        return [call];
      }
      reward := Some(res.data);
      if !WorkOrders.UrgentPriority(a.priority) {
        stage := Complete;
        return [call];
      }
      var rest := DraftAndEmail(a, v, backend);
      calls := [call] + rest;
    }

    /** Steps 4 and 5: the work-order request, then the email when a draft came back. */
    method DraftAndEmail(a: AgentReport, v: Verification.Response, backend: Backend) returns (calls: seq<Call>)
      requires stage == Processing
      modifies this
      ensures (State(), calls) == DraftStep(old(State()), a, v, backend)
    {
      var req := WorkOrderRequest(v.reportId, DemoAddressedSite, a.(issueType := Some(Lower(issueType))));
      var call := Call(stage, Draft(req));
      var res := backend.workOrder(req);
      if res.Failure? {
        error, stage := Some(FailureMessage), Idle;
        return [call];
      }
      workOrder := res.data;
      if res.data.None? {
        stage := Complete;
        return [call];
      }
      var emailReq := EmailRequest(res.data.value);
      var emailCall := Call(stage, Email(emailReq));
      var emailRes := backend.email(emailReq);
      if emailRes.Failure? {
        error, stage := Some(FailureMessage), Idle;
        return [call, emailCall];
      }
      emailStatus := Some(emailRes.data);
      stage := Complete;
      calls := [call, emailCall];
    }
  }
}
