/**
 * The JSON records the services exchange, and Python's `int()` on a float.
 * Dictionary keys that may be absent are `Option` fields.
 */
module Records {
  import opened Wrappers

  /** A location dictionary: `{"lat", "lon", "address"}`, each key possibly absent. */
  datatype Location = Location(lat: Option<real>, lon: Option<real>, address: Option<string>)

  /**
   * The agent's decision record as it travels between the services: the
   * analysis result, later extended with `issue_type` and
   * `verification_status` by the client. Only the keys the modelled code
   * reads are kept.
   */
  datatype AgentReport = AgentReport(
    issueType: Option<string>,
    priority: Option<string>,
    riskScore: Option<real>,
    confidenceScore: Option<real>,
    visionConfidence: Option<real>,
    estimatedCost: Option<real>,
    recommendedAction: Option<string>,
    severity: Option<string>,
    repairTimeDays: Option<real>,
    verificationStatus: Option<string>,
    isUnique: Option<bool>)

  /** Python's `int(x)` on a float: truncation toward zero. */
  function Trunc(x: real): (n: int)
    ensures 0.0 <= x ==> 0 <= n && n as real <= x < n as real + 1.0
    ensures x < 0.0 ==> n <= 0 && n as real - 1.0 < x <= n as real
  {
    if x >= 0.0 then x.Floor else -((-x).Floor)
  }

  /** Truncation never reverses the order of two values. */
  lemma TruncMonotone(x: real, y: real)
    requires x <= y
    ensures Trunc(x) <= Trunc(y)
  {
    if x < 0.0 && 0.0 <= y {
    } else if 0.0 <= x {
      assert Trunc(x) as real <= x <= y < Trunc(y) as real + 1.0;
    } else {
      assert Trunc(x) as real - 1.0 < x <= y <= Trunc(y) as real;
    }
  }
}
