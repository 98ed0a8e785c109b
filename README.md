# Civic-Eye AI: a Dafny model of the report pipeline and its services

Civic-Eye AI takes a photo of a damaged piece of civic infrastructure (a pothole, a broken
street light, a garbage dump) and runs it through a fixed sequence of backend services:
analysis, verification, reward, work-order drafting and email dispatch. This project models
the following parts and proves properties about them:

- **The single-page client** (`Pipeline`, from `frontend/src/App.jsx`).
  - The `App` class holds the component's state variables.
  - `RunFullPipeline` sends the five requests in order. It stores each response and stops at
    the first failed request.
  - `ResetPipeline`, `HandleFileChange`, the run button's disabled rule and `getRiskColor`
    are modelled too.
  - The backend is a parameter: one function per endpoint, from request to response or
    failure.
- **The verification engine** (`Verification`, from `agent/verification.py`).
  - The vision gate, the duplicate check against the cache of accepted reports, and the
    status ladder.
  - The cache is a sequence that `VerifySubmission` appends to.
  - The response dictionary (`_build_response`) is the `Response` datatype.
- **The reward system** (`Rewards`, from `agent/rewards.py`).
  - Points, the trust score kept within [0, 100], and the transaction log that refuses a
    second reward for the same report.
- **The work-order drafter** (`WorkOrders`, from `agent/work_order.py`).
  - The priority gate, the order id `WO-<YYYYMMDD>-<REPORT>`, the department lookup, the
    plain-text draft and its structured data.
- **The email dispatcher** (`Communication`, from `agent/communication.py`).
  - Routing by issue type, simulated sending under the default password, and the SMTP
    server's verdict otherwise.
- **The duplicate detector** (`Deduplication`, from `agent/deduplication.py`).
  - Perceptual-hash similarity by Hamming distance, and the same-type, same-site,
    same-day scan.
  - Registration of a verified report.
- **The prototype's rule-based agent** (`LegacyAgent`, from
  `CivicEyeAI/CivicEyeAI/app.py`): `agent_decision`.

Shared pieces:

- `Wrappers`: `Option` and `Result`. A Python `KeyError` is the `KeyError(key)` variant.
- `Text`: ASCII case mapping, `str.title()`, `in` on strings, and decimal rendering.
- `Records`: the JSON records and Python's `int()` on a float.

Each stateful object is a class. Each of its methods is proved equal to a function of the
state before the call, for example `Verify`, `Award`, `CheckSpec`, `Register` and `Run`.
The contracts of those functions state the code's promises in terms of their inputs: which
request is sent, which answer is stored, when a step is reached and how each case ends. A
few further promises are separate lemmas.

Some behaviours of the code worth knowing before reading the model:

- A failed request returns the page to idle with a message. There is no separate "failed"
  stage.
- The email is sent only when the work-order call returns a draft.
- The confidence fallback is `||`, not `??` (see Findings).
- A new run clears only the error, not the previous results (see Findings).
- The site sent is the fixed demo site. No geolocation, document download or sharing takes
  place in the code modelled.

## Model

| member | source | states |
|---|---|---|
| Verification.Ladder | CivicEyeAI/CivicEyeAI/agent/verification.py:60-73 | a risk score of at least 85 always goes to manual review; auto-verified exactly when risk < 85, vision confidence >= 0.75 and agent confidence >= 0.60; manual review otherwise |
| Verification.FirstDuplicate | CivicEyeAI/CivicEyeAI/agent/verification.py:104-115 | no duplicate is reported exactly when no cached report is both inside the 24-hour window and within 15 m |
| Verification.FirstDuplicateIsFirst | CivicEyeAI/CivicEyeAI/agent/verification.py:104-115 | a reported duplicate is the first cached report, in list order, inside the window and the radius |
| Verification.DuplicateLookup | CivicEyeAI/CivicEyeAI/agent/verification.py:94-115 | no duplicate without a location or a `lat`; a KeyError exactly when `lat` is present and `lon` missing; with both coordinates, the first cached report within the window and radius (none exactly when no entry is one) |
| Verification.CacheEntries | CivicEyeAI/CivicEyeAI/agent/verification.py:117-124 | one entry with the id, coordinates and time when the location has a `lat`, none otherwise |
| Verification.Verify | CivicEyeAI/CivicEyeAI/agent/verification.py:23-79 | rejected exactly when vision confidence < 0.40 (cache unchanged); KeyError exactly past that gate with `lat` but no `lon`; merged exactly for a duplicate, naming it, cache unchanged; never auto-verified at risk >= 85; auto-verified iff every gate passes; verified iff not rejected; the cache grows by one entry only for accepted non-duplicate reports with a `lat` |
| Verification.VerificationEngine.constructor | CivicEyeAI/CivicEyeAI/agent/verification.py:18-21 | the report cache starts empty |
| Verification.VerificationEngine.VerifySubmission | CivicEyeAI/CivicEyeAI/agent/verification.py:23-79 | the response and the new cache are those of `Verify` on the old cache |
| Verification.VerificationEngine.CheckDuplicate | CivicEyeAI/CivicEyeAI/agent/verification.py:94-115 | the loop's answer is `DuplicateLookup` of the cache |
| Verification.VerificationEngine.CacheReport | CivicEyeAI/CivicEyeAI/agent/verification.py:117-124 | the cache becomes the old cache plus `CacheEntries` |
| Rewards.PriorityMultiplier | CivicEyeAI/CivicEyeAI/agent/rewards.py:23-28 | the multiplier lies in [1.0, 3.0] |
| Rewards.TypeBase | CivicEyeAI/CivicEyeAI/agent/rewards.py:34-38 | the type base lies in [10, 20] |
| Rewards.CalculatePoints | CivicEyeAI/CivicEyeAI/agent/rewards.py:12-48 | KeyError on a missing `issue_type`, then on a missing `priority`; otherwise points; never negative for a non-negative risk; 20..120 points for risk in [0, 100], 2..12 for a repeated report |
| Rewards.PointsMonotoneInRisk | CivicEyeAI/CivicEyeAI/agent/rewards.py:40-48 | a higher risk score never earns fewer points |
| Rewards.ConfirmationNeverExceedsFirst | CivicEyeAI/CivicEyeAI/agent/rewards.py:45-48 | a repeated report never earns more than the first one |
| Records.Trunc | CivicEyeAI/CivicEyeAI/agent/rewards.py:48 | `int()` truncates toward zero: the result is within 1 of the value, on the zero side |
| Records.TruncMonotone | CivicEyeAI/CivicEyeAI/agent/rewards.py:48 | truncation preserves order |
| Rewards.TrustDelta | CivicEyeAI/CivicEyeAI/agent/rewards.py:71-80 | positive exactly for auto/manual verified, +3 exactly when also Critical, negative exactly for rejected |
| Rewards.ClampTrust | CivicEyeAI/CivicEyeAI/agent/rewards.py:82 | the result lies in [0, 100] and equals the input when it already does |
| Rewards.WithUser | CivicEyeAI/CivicEyeAI/agent/rewards.py:57-58 | a new user is added with trust 50.0 and 0 points; an existing one is left alone |
| Rewards.Award | CivicEyeAI/CivicEyeAI/agent/rewards.py:50-101 | the user is registered in every outcome and no other user changes; a rewarded report is skipped with the log unchanged; a KeyError leaves the log unchanged; a success appends exactly one transaction for this report and user, adds its points to the user's balance, keeps trust in [0, 100]; a KeyError from the points calculation is passed on; otherwise the points are the calculated ones (0 for a rejected report) and the trust moves by the status's delta, clamped to [0, 100], as the logged transaction records |
| Rewards.AwardKeepsValid | CivicEyeAI/CivicEyeAI/agent/rewards.py:50-101 | every outcome keeps trust scores in [0, 100], every transaction's user known, and each balance equal to the sum of that user's logged points |
| Rewards.NoDoubleReward | CivicEyeAI/CivicEyeAI/agent/rewards.py:62-64 | after a successful reward, any later call for the same report is skipped and leaves the log as it is |
| Rewards.RewardSystem.constructor | CivicEyeAI/CivicEyeAI/agent/rewards.py:6-9 | empty users and log, a valid ledger |
| Rewards.RewardSystem.ProcessReward | CivicEyeAI/CivicEyeAI/agent/rewards.py:50-101 | the result and the new users and log are those of `Award`; the ledger stays valid |
| Rewards.RewardSystem.IsAlreadyRewarded | CivicEyeAI/CivicEyeAI/agent/rewards.py:103-107 | true exactly when some logged transaction has the report id |
| WorkOrders.Field | CivicEyeAI/CivicEyeAI/agent/work_order.py:33-37 | a zero-padded field has exactly the width, only digits, and reads back as the number |
| WorkOrders.CompactDate | CivicEyeAI/CivicEyeAI/agent/work_order.py:37 | `%Y%m%d` is eight digits whose slices read back as the year, month and day |
| WorkOrders.DayText | CivicEyeAI/CivicEyeAI/agent/work_order.py:33 | `%Y-%m-%d` has dashes at 4 and 7 and its fields read back as the year, month and day |
| WorkOrders.Stamp | CivicEyeAI/CivicEyeAI/agent/work_order.py:33 | the 19-character timestamp starts with the day text and a space |
| WorkOrders.Department | CivicEyeAI/CivicEyeAI/agent/work_order.py:35 | a known exact key gives its department; "General Maintenance" exactly otherwise |
| WorkOrders.WorkOrderId | CivicEyeAI/CivicEyeAI/agent/work_order.py:37 | the id is 12 to 18 characters long |
| WorkOrders.WorkOrderIdRoundTrip | CivicEyeAI/CivicEyeAI/agent/work_order.py:37 | the id parses back to the drafting day and the upper-cased first six characters of the report id |
| WorkOrders.DistinctDaysDistinctIds | CivicEyeAI/CivicEyeAI/agent/work_order.py:37 | drafts from different days never share an id |
| WorkOrders.Contingency | CivicEyeAI/CivicEyeAI/agent/work_order.py:84 | 0 for a missing cost; otherwise a tenth of the cost truncated toward zero |
| WorkOrders.Draft | CivicEyeAI/CivicEyeAI/agent/work_order.py:33-92 | the id parses back to the day and report; the header repeats it; the text starts with the heading and the id; the date is the timestamp; the issue type is `str.title()` of the reported one, or of "maintenance" when none is given |
| WorkOrders.GenerateDraft | CivicEyeAI/CivicEyeAI/agent/work_order.py:16-92 | a draft exactly for High or Critical; its department owns the issue type; the priority flag exactly for Critical; site, risk, action, cost passed through; contingency as above |
| WorkOrders.PreviewNamesOrder | CivicEyeAI/CivicEyeAI/agent/work_order.py:40-43 | the emailed text contains the order id |
| Text.TitleAt | CivicEyeAI/CivicEyeAI/agent/work_order.py:34 | `title()` upper-cases exactly the characters that do not follow a letter and lower-cases the rest |
| Text.LowerOfTitle | CivicEyeAI/CivicEyeAI/agent/work_order.py:34 | lower-casing a title-cased text gives the lower-cased original |
| Text.ContainsIff | CivicEyeAI/CivicEyeAI/agent/communication.py:50-53 | `sub in s` holds exactly when `sub` occurs at some position of `s` |
| Communication.ConfigFromEnv | CivicEyeAI/CivicEyeAI/agent/communication.py:16-19 | each missing variable takes its default ("smtp.gmail.com", "alert@civic-eye.ai", "mock_password"); each set variable is used as given |
| Communication.IssueKey | CivicEyeAI/CivicEyeAI/agent/communication.py:47-53 | "pothole" exactly when the text contains it; "street_light" exactly for "light" without "pothole"; "garbage" exactly for "garbage" without either; always a known contact key |
| Communication.Recipient | CivicEyeAI/CivicEyeAI/agent/communication.py:46-55 | a non-empty override wins; otherwise the contact of the lower-cased issue type's key, "pothole" when none is given |
| Communication.DispatchWorkOrder | CivicEyeAI/CivicEyeAI/agent/communication.py:29-91 | "Invalid work order data" without an order id; KeyError without a text; a simulated reply naming the recipient under the default password, with nothing sent; otherwise the server gets the draft text from the sender to the routed recipient, under the subject naming the order; the reply is "failed" exactly when the server raises, carrying its error, and "sent" otherwise |
| Communication.SubjectNamesOrder | CivicEyeAI/CivicEyeAI/agent/communication.py:59 | the subject contains the order id |
| Communication.KeyRoutesToItself | CivicEyeAI/CivicEyeAI/agent/communication.py:47-53 | each department key routes to itself |
| Communication.DraftRoutesToDepartment | CivicEyeAI/CivicEyeAI/agent/communication.py:46-55 | a draft whose issue type lower-cases to a department key reaches that department's contact |
| Deduplication.Mismatches | CivicEyeAI/CivicEyeAI/agent/deduplication.py:100 | the count of differing positions is at most the length, and 0 exactly for equal strings |
| Deduplication.HammingDistance | CivicEyeAI/CivicEyeAI/agent/deduplication.py:97-100 | infinite exactly for hashes of different lengths; otherwise at most the length, 0 exactly for equal hashes |
| Deduplication.HammingIsMetric | CivicEyeAI/CivicEyeAI/agent/deduplication.py:97-100 | the distance is symmetric and obeys the triangle inequality |
| Deduplication.WindowAgreesWithVerifier | CivicEyeAI/CivicEyeAI/agent/deduplication.py:56-58 | the detector's 24-hour window is the verifier's |
| Deduplication.FirstSimilar | CivicEyeAI/CivicEyeAI/agent/deduplication.py:35-37 | none exactly when no stored hash is within 5; else the first such position |
| Deduplication.FirstNearby | CivicEyeAI/CivicEyeAI/agent/deduplication.py:50-63 | none exactly when no record has the same type, the window and a distance under 15 m; else the first such position |
| Deduplication.CheckSpec | CivicEyeAI/CivicEyeAI/agent/deduplication.py:13-66 | suspicious exactly when a stored hash is within 5, naming the first such report; otherwise a KeyError on lat, lon, issue_type in that order, raised only when one of them is missing; a duplicate names the first same-type record within the window and under 15 m, with its distance and time; new exactly when nothing matches |
| Deduplication.Put | CivicEyeAI/CivicEyeAI/agent/deduplication.py:83 | keys stay distinct; an existing key keeps its place, a new one goes last; other entries are unchanged |
| Deduplication.PutLookup | CivicEyeAI/CivicEyeAI/agent/deduplication.py:83 | after the store, the hash reads back as the new id and every other hash as before |
| Deduplication.Register | CivicEyeAI/CivicEyeAI/agent/deduplication.py:68-83 | succeeds exactly when lat, lon and issue_type are all present; otherwise a KeyError on the first missing one in that order, nothing changed; on success one record stamped now is appended and the photo's hash points at the report; keys stay distinct |
| Deduplication.RegisteredImageIsSuspicious | CivicEyeAI/CivicEyeAI/agent/deduplication.py:30-37 | a registered photo, shown again, is flagged suspicious |
| Deduplication.RegisteredSiteIsNotNew | CivicEyeAI/CivicEyeAI/agent/deduplication.py:50-63 | a registered report is found again at the same site within the day |
| Deduplication.DuplicateDetector.constructor | CivicEyeAI/CivicEyeAI/agent/deduplication.py:7-11 | both indices start empty |
| Deduplication.DuplicateDetector.Check | CivicEyeAI/CivicEyeAI/agent/deduplication.py:13-66 | the two scans' answer is `CheckSpec` of the indices |
| Deduplication.DuplicateDetector.RegisterReport | CivicEyeAI/CivicEyeAI/agent/deduplication.py:68-83 | the result and new indices are those of `Register`; hash keys stay distinct |
| LegacyAgent.PriorityFor | CivicEyeAI/CivicEyeAI/CivicEyeAI/CivicEyeAI/app.py:42-47 | Low exactly for at most 2 detections, High exactly above 5, Medium otherwise |
| LegacyAgent.PriorityMonotone | CivicEyeAI/CivicEyeAI/CivicEyeAI/CivicEyeAI/app.py:42-47 | more detections never lower the priority |
| LegacyAgent.AgentDecision | CivicEyeAI/CivicEyeAI/CivicEyeAI/CivicEyeAI/app.py:32-55 | a KeyError naming the issue exactly when it has no base cost; otherwise the cost text reads back as base cost times detections, with the priority and the fixed action |
| LegacyAgent.CostTextIsUnique | CivicEyeAI/CivicEyeAI/CivicEyeAI/CivicEyeAI/app.py:40 | the only text that reads back as a cost is the rupee sign followed by `str` of that cost, so the read-back pins the exact text |
| Text.CanonicalIsDecimal | CivicEyeAI/CivicEyeAI/CivicEyeAI/CivicEyeAI/app.py:40 | digits with no leading zero (or "0") are exactly what `str` prints for their value |
| LegacyAgent.ChoicesAreCosted | CivicEyeAI/CivicEyeAI/CivicEyeAI/CivicEyeAI/app.py:21-24 | every offered issue type has a cost |
| LegacyAgent.CostMonotone | CivicEyeAI/CivicEyeAI/CivicEyeAI/CivicEyeAI/app.py:40 | the cost grows with the detections |
| Pipeline.RiskColor | CivicEyeAI/CivicEyeAI/frontend/src/App.jsx:113-117 | red exactly for >= 80, amber exactly for [40, 80), green exactly below 40 |
| Pipeline.RiskColorMonotone | CivicEyeAI/CivicEyeAI/frontend/src/App.jsx:113-117 | a higher score is never shown in a milder colour |
| Pipeline.Reset | CivicEyeAI/CivicEyeAI/frontend/src/App.jsx:31-39 | every result and the error cleared, the stage idle, inputs kept; the button is enabled exactly when a photo is selected |
| Pipeline.ChooseFile | CivicEyeAI/CivicEyeAI/frontend/src/App.jsx:22-29 | no file changes nothing; a file replaces photo and preview and resets; the button is then enabled |
| Pipeline.Fallback | CivicEyeAI/CivicEyeAI/frontend/src/App.jsx:63 | a non-zero confidence is sent as is; a missing or zero one as 0.85 |
| Pipeline.AnalyzeStep | CivicEyeAI/CivicEyeAI/frontend/src/App.jsx:47-67 | from analysis on: the request carries the photo, the road type, the traffic level and the lower-cased issue type; verification, reward, work order and email are asked with the analysis, the verified report's id, the selected issue type and the returned draft; `Driven`: each call but the last was answered and passed its gate, the last was refused or closed its gate, the page ends idle with the message exactly when the last call was refused and complete otherwise, each answer received is stored in its slot, a refused call's slot and the slots of steps not reached keep their values |
| Pipeline.VerifyStep | CivicEyeAI/CivicEyeAI/frontend/src/App.jsx:60-82 | from verification on: the request carries the analysis, its confidence with the fallback and the demo site; the reward and work-order requests that follow carry the verified report's id, the analysis with the selected issue type and, for the reward, the status; `Driven`: a refused call ends idle, an unverified answer ends complete after this one call, a verified one is followed by the reward request; the answer is stored |
| Pipeline.RewardStep | CivicEyeAI/CivicEyeAI/frontend/src/App.jsx:72-91 | from reward on: the request carries the report id, the analysis with the lower-cased issue type and the status, and the demo user; `Driven`: a refused call ends idle; a reward is stored and followed by the work-order request exactly when the priority is High or Critical, else the run is complete |
| Pipeline.DraftStep | CivicEyeAI/CivicEyeAI/frontend/src/App.jsx:84-100 | the work-order request for the report at the demo address; `Driven`: a refused call ends idle; the returned draft is stored and followed by the email request for it exactly when one came back; the email reply is stored, a refused email ends idle |
| Pipeline.Run | CivicEyeAI/CivicEyeAI/frontend/src/App.jsx:41-110 | no photo, no request; otherwise requests in pipeline order, each while the button is disabled: the photo with the selected road type, traffic level and lower-cased issue type; the analysis with its confidence or 0.85; the reward for the verified report's id, with the analysis, the selected issue type, the status and the demo user; the work order for that id at the demo address; the email of the returned draft; `Driven`: the run goes on exactly while each answer arrives and passes its gate (any analysis, a verified report, a High or Critical priority, a returned draft), ends idle with the failure message exactly when the last call was refused and complete otherwise, re-enabling the button; each answer received is stored in its slot; the slots of steps not reached keep the previous run's values |
| Pipeline.UnverifiedRunStops | CivicEyeAI/CivicEyeAI/frontend/src/App.jsx:60-103 | an analysed report the verifier does not verify ends the run complete after two requests, showing the analysis and the verification, no reward asked |
| Pipeline.RefusedAnalysisStopsIdle | CivicEyeAI/CivicEyeAI/frontend/src/App.jsx:54-109 | a refused analysis ends the run idle with the failure message after one request, the result slots untouched |
| Pipeline.UrgentRewardedGetsWorkOrder | CivicEyeAI/CivicEyeAI/frontend/src/App.jsx:69-91 | a verified report whose reward is granted and whose analysis is High or Critical gets the work-order request for its id, at the demo address, with the selected issue type |
| Pipeline.App.constructor | CivicEyeAI/CivicEyeAI/frontend/src/App.jsx:7-20 | no photo, MainRoad, Medium, Pothole, idle, no results; the button disabled |
| Pipeline.App.ResetPipeline | CivicEyeAI/CivicEyeAI/frontend/src/App.jsx:31-39 | the new state is `Reset` of the old |
| Pipeline.App.HandleFileChange | CivicEyeAI/CivicEyeAI/frontend/src/App.jsx:22-29 | the new state is `ChooseFile` of the old |
| Pipeline.App.RunFullPipeline | CivicEyeAI/CivicEyeAI/frontend/src/App.jsx:41-110 | the new state and the requests sent are `Run` of the old state |
| Pipeline.App.AnalyzeAndRest | CivicEyeAI/CivicEyeAI/frontend/src/App.jsx:47-67 | the new state and the requests are `AnalyzeStep` of the old state |
| Pipeline.App.VerifyAndRest | CivicEyeAI/CivicEyeAI/frontend/src/App.jsx:60-82 | the new state and the requests are `VerifyStep` of the old state |
| Pipeline.App.RewardAndRest | CivicEyeAI/CivicEyeAI/frontend/src/App.jsx:72-91 | the new state and the requests are `RewardStep` of the old state |
| Pipeline.App.DraftAndEmail | CivicEyeAI/CivicEyeAI/frontend/src/App.jsx:84-100 | the new state and the requests are `DraftStep` of the old state |
| Pipeline.StaleResultsSurvive | CivicEyeAI/CivicEyeAI/frontend/src/App.jsx:41-45 | a re-run whose report is not verified ends complete beside the previous run's reward and work order, so the page no longer fits together |
| Pipeline.StaleOrderSurvivesLowRerun | CivicEyeAI/CivicEyeAI/frontend/src/App.jsx:41-100 | re-running with a Low analysis that is verified and rewarded ends complete with the new reward beside the previous run's work order and email, so the page no longer fits together |
| Pipeline.RunFresh | CivicEyeAI/CivicEyeAI/frontend/src/App.jsx:41-45 | a run that starts from `Reset` is `Run` of the reset page, so it sends the same requests and is driven by the answers as `Run` is, and it always ends with a page that fits together |
| Pipeline.ZeroConfidencePassesGate | CivicEyeAI/CivicEyeAI/frontend/src/App.jsx:63 | a photo scored 0.0 is sent as 0.85 and escapes the rejection it would get as 0.0 |
| Pipeline.NullishFallback | CivicEyeAI/CivicEyeAI/frontend/src/App.jsx:63 | only a missing confidence is replaced by 0.85 |
| Pipeline.NullishKeepsVisionGate | CivicEyeAI/CivicEyeAI/frontend/src/App.jsx:63 | with the nullish fallback, a report is rejected exactly when its confidence is below 0.40 |
| Pipeline.StreetLightMissesKey | CivicEyeAI/CivicEyeAI/frontend/src/App.jsx:77 | "Street Light" lower-cases to "street light": no department and 10 base points instead of 15 |
| Pipeline.BackendKey | CivicEyeAI/CivicEyeAI/frontend/src/App.jsx:77 | each character lower-cased, spaces as underscores |
| Pipeline.ChoicesHaveKeys | CivicEyeAI/CivicEyeAI/frontend/src/App.jsx:165-169 | every offered issue type maps to a key with a department |

## Left out

- The image analysis (`/analyze`, the vision model and `brain.py`): the analysis record is an input to the pipeline.
- The perceptual hash computation: a photo is given by its hash string.
- The haversine distance: it is a parameter of type `DistanceFn`.
- The clock, `uuid4()` and `URL.createObjectURL`: they are parameters.
- Python's `str()` of a float and the `:.2f`/`:.1f` formatting of messages:
  - numbers in the draft text come from a `FloatRepr` parameter;
  - the verification and duplicate reasons are kept as data (`Reason`), not text.
- The response timestamp of `_build_response`, and the `tx_id` and timestamp format of a reward transaction.
- Logging, the audit print of `_log_dispatch`, and the SMTP port. The SMTP exchange itself is a parameter `Smtp`.
- The unused `reports` dictionary of `RewardSystem`.
- The Streamlit page and the selection boxes' change handlers. The selections are fields of `App` that the model leaves as they are.
- The backend's state across runs: each endpoint is a fixed function of its request.
- A response body that the client would read with an unexpected shape.
- Pipeline.Run: a run is one atomic step. The photo input (App.jsx:148) and the three selects (App.jsx:165-182) stay enabled while requests are pending. Choosing a new photo mid-run calls `resetPipeline`, which sets the stage to idle and re-enables the button. Interleaved handlers and overlapping runs that mix their `set*` calls are therefore not modelled; `App.RunFullPipeline` inherits this.
- Python exceptions other than the `KeyError`s modelled: type errors on values of the wrong type, and `None` for a present key.
- WorkOrders.GenerateDraft: both `datetime.now()` calls read one clock value. A draft made across midnight could date its text and its id differently.
- WorkOrders.DateTime.Valid: only years 1000 to 9999 are modelled. There `%Y` prints four digits.
- Text: case mapping and `title()` cover ASCII letters only.
- WorkOrders.PreviewBody: the exact layout of the text is modelled, but only its opening lines and the order id are proved about.

## Findings

| source | as written | input that shows it | evidently intended | confidence | as-written member | corrected member |
|---|---|---|---|---|---|---|
| CivicEyeAI/CivicEyeAI/frontend/src/App.jsx:63 | `vision_confidence \|\| 0.85` replaces any falsy confidence, including a real 0.0 | a photo with no detection: `/analyze` reports `vision_confidence` 0.0, the client sends 0.85, and the verifier does not reject it | replace only a missing value (`?? 0.85`), so the 0.40 gate still rejects it | not executed | Pipeline.ZeroConfidencePassesGate | Pipeline.NullishKeepsVisionGate |
| CivicEyeAI/CivicEyeAI/frontend/src/App.jsx:41-45 | a run clears only the error, and the button is enabled again at "complete" | run a High report (work order and email shown), change the road type or traffic level so the same photo's analysis comes back Low, and run again: the page shows the new reward beside the old work order and email | start each run from cleared result slots, as `resetPipeline` does | not executed | Pipeline.StaleOrderSurvivesLowRerun | Pipeline.RunFresh |
| CivicEyeAI/CivicEyeAI/frontend/src/App.jsx:77 | the issue type is sent as `issueType.toLowerCase()` | the option "Street Light" becomes "street light", which the reward table and the department map (keyed "street_light") do not know: 10 base points instead of 15 and "General Maintenance" | send the backend key, with the space as an underscore | not executed | Pipeline.StreetLightMissesKey | Pipeline.BackendKey |
