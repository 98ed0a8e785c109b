/**
 * The reward system: points for a verified report, a per-user trust score
 * kept within [0, 100], and a transaction log that refuses a second reward
 * for the same report.
 */
module Rewards {
  import opened Wrappers
  import opened Records

  const BasePoints: int := 10
  const InitialTrust: real := 50.0
  const MinTrust: real := 0.0
  const MaxTrust: real := 100.0

  /** `priority_mult.get(priority, 1.0)`. */
  function PriorityMultiplier(priority: string): (m: real)
    ensures 1.0 <= m <= 3.0
  {
    if priority == "Critical" then 3.0
    else if priority == "High" then 2.0
    else if priority == "Medium" then 1.5
    else 1.0
  }

  /** `type_base.get(issue_type, 10)`. */
  function TypeBase(issueType: string): (b: int)
    ensures 10 <= b <= 20
  {
    if issueType == "pothole" then 20
    else if issueType == "street_light" then 15
    else 10
  }

  /** The points before `int()`: a tenth of the full amount for a report that is not unique. */
  function RawPoints(issueType: string, priority: string, riskScore: real, isUnique: bool): real {
    var full := TypeBase(issueType) as real * PriorityMultiplier(priority) + BasePoints as real + riskScore * 0.5;
    if isUnique then full else full * 0.1
  }

  /**
   * `calculate_points`: a KeyError when `issue_type` or `priority` is absent
   * (in that order); otherwise the raw points truncated toward zero.
   */
  function CalculatePoints(d: AgentReport): (r: Result<int>)
    ensures d.issueType.None? ==> r == KeyError("issue_type")
    ensures d.issueType.Some? && d.priority.None? ==> r == KeyError("priority")
    ensures d.issueType.Some? && d.priority.Some? ==> r.Ok?
    // never negative for a non-negative risk score
    ensures r.Ok? && d.riskScore.GetOr(0.0) >= 0.0 ==> r.value >= 0
    // a risk score in [0, 100] gives 20..120 points, or 2..12 for a repeated report
    ensures r.Ok? && 0.0 <= d.riskScore.GetOr(0.0) <= 100.0 ==>
      if d.isUnique.GetOr(true) then 20 <= r.value <= 120 else 2 <= r.value <= 12
  {
    if d.issueType.None? then KeyError("issue_type")
    else if d.priority.None? then KeyError("priority")
    else Ok(Trunc(RawPoints(d.issueType.value, d.priority.value, d.riskScore.GetOr(0.0), d.isUnique.GetOr(true))))
  }

  /** A higher risk score never earns fewer points. */
  lemma PointsMonotoneInRisk(d: AgentReport, higherRisk: real)
    requires d.issueType.Some? && d.priority.Some?
    requires d.riskScore.GetOr(0.0) <= higherRisk
    ensures CalculatePoints(d).value <= CalculatePoints(d.(riskScore := Some(higherRisk))).value
  {
    var issue, priority, unique := d.issueType.value, d.priority.value, d.isUnique.GetOr(true);
    TruncMonotone(RawPoints(issue, priority, d.riskScore.GetOr(0.0), unique), RawPoints(issue, priority, higherRisk, unique));
  }

  /** A repeated report never earns more than the first report of the same issue. */
  lemma ConfirmationNeverExceedsFirst(d: AgentReport)
    requires d.issueType.Some? && d.priority.Some? && d.riskScore.GetOr(0.0) >= 0.0
    ensures CalculatePoints(d.(isUnique := Some(false))).value <= CalculatePoints(d.(isUnique := Some(true))).value
  {
    var issue, priority, risk := d.issueType.value, d.priority.value, d.riskScore.GetOr(0.0);
    TruncMonotone(RawPoints(issue, priority, risk, false), RawPoints(issue, priority, risk, true));
  }

  datatype User = User(trustScore: real, totalPoints: int)

  /** One logged reward (`tx_id` is derived from the timestamp and not kept). */
  datatype Transaction = Transaction(userId: string, reportId: string, points: int, trustDelta: real, timestamp: real)

  /** The dictionary `process_reward` returns. */
  datatype RewardResult =
    | Skipped
    | Success(pointsAwarded: int, newTrustScore: real, newTotalBalance: int)

  /** The effect of the verification status on trust: +2 (+3 for Critical), -5 on rejection, else 0. */
  function TrustDelta(verificationStatus: string, priority: Option<string>): (delta: real)
    ensures delta in {-5.0, 0.0, 2.0, 3.0}
    ensures delta > 0.0 <==> verificationStatus in {"auto_verified", "manual_verified"}
    ensures delta == 3.0 <==> verificationStatus in {"auto_verified", "manual_verified"} && priority == Some("Critical")
    ensures delta < 0.0 <==> verificationStatus == "rejected"
  {
    if verificationStatus == "auto_verified" || verificationStatus == "manual_verified" then
      if priority == Some("Critical") then 3.0 else 2.0
    else if verificationStatus == "rejected" then -5.0
    else 0.0
  }

  /** `max(0, min(100, x))`. */
  function ClampTrust(x: real): (t: real)
    ensures MinTrust <= t <= MaxTrust
    ensures MinTrust <= x <= MaxTrust ==> t == x
  {
    if x > MaxTrust then MaxTrust else if x < MinTrust then MinTrust else x
  }

  predicate AlreadyRewarded(log: seq<Transaction>, reportId: string) {
    exists i :: 0 <= i < |log| && log[i].reportId == reportId
  }

  /** The users table and the transaction log. */
  datatype Ledger = Ledger(users: map<string, User>, rewards: seq<Transaction>)

  /** The sum of the points logged for `userId`. */
  function PointsLogged(log: seq<Transaction>, userId: string): int {
    if log == [] then 0
    else PointsLogged(log[..|log| - 1], userId) + (if log[|log| - 1].userId == userId then log[|log| - 1].points else 0)
  }

  /**
   * What the ledger keeps true: trust scores lie in [0, 100], every logged
   * transaction belongs to a known user, and each user's balance is the sum
   * of the points logged for them.
   */
  ghost predicate Valid(l: Ledger) {
    && (forall u :: u in l.users ==> MinTrust <= l.users[u].trustScore <= MaxTrust)
    && (forall i :: 0 <= i < |l.rewards| ==> l.rewards[i].userId in l.users)
    && (forall u :: u in l.users ==> l.users[u].totalPoints == PointsLogged(l.rewards, u))
  }

  /** Step 1 of `process_reward`: a new user starts neutral (trust 50.0, 0 points). */
  function WithUser(users: map<string, User>, userId: string): (r: map<string, User>)
    ensures userId in r && r.Keys == users.Keys + {userId}
    ensures userId in users ==> r == users
    ensures userId !in users ==> r == users[userId := User(InitialTrust, 0)]
  {
    if userId in users then users else users[userId := User(InitialTrust, 0)]
  }

  /**
   * `process_reward` as a function of the ledger before the call: the result
   * (or the KeyError raised by `calculate_points`) and the ledger after it.
   */
  function Award(l: Ledger, userId: string, reportId: string, d: AgentReport, now: real)
    : (out: (Result<RewardResult>, Ledger))
    // the user is registered even when nothing is awarded
    ensures userId in out.1.users && out.1.users.Keys == l.users.Keys + {userId}
    // no other user changes
    ensures forall u :: u in l.users && u != userId ==> out.1.users[u] == l.users[u]
    // a report already in the log is skipped and changes nothing else
    ensures AlreadyRewarded(l.rewards, reportId) ==> out == (Ok(Skipped), Ledger(WithUser(l.users, userId), l.rewards))
    // a failed points calculation leaves the log alone
    ensures out.0.KeyError? ==> out.1 == Ledger(WithUser(l.users, userId), l.rewards)
    ensures out.0.Ok? && out.0.value.Skipped? ==> AlreadyRewarded(l.rewards, reportId)
    // a success appends exactly one transaction and books its points on the user
    ensures out.0.Ok? && out.0.value.Success? ==>
      var r := out.0.value;
      var before := WithUser(l.users, userId)[userId];
      && !AlreadyRewarded(l.rewards, reportId)
      && |out.1.rewards| == |l.rewards| + 1 && out.1.rewards[..|l.rewards|] == l.rewards
      && out.1.rewards[|l.rewards|].reportId == reportId && out.1.rewards[|l.rewards|].userId == userId
      && out.1.rewards[|l.rewards|].points == r.pointsAwarded
      && out.1.users[userId].totalPoints == before.totalPoints + r.pointsAwarded
      && r.newTrustScore == out.1.users[userId].trustScore
      && r.newTotalBalance == out.1.users[userId].totalPoints
      && MinTrust <= r.newTrustScore <= MaxTrust
    // a report not yet rewarded is rewarded, unless its points cannot be calculated
    ensures !AlreadyRewarded(l.rewards, reportId) && CalculatePoints(d).KeyError? ==>
      out.0 == KeyError(CalculatePoints(d).key)
    ensures !AlreadyRewarded(l.rewards, reportId) && CalculatePoints(d).Ok? ==>
      var status := d.verificationStatus.GetOr("manual_review");
      var before := WithUser(l.users, userId)[userId];
      && out.0.Ok? && out.0.value.Success?
      // the calculated points, none for a rejected report
      && out.0.value.pointsAwarded == (if status == "rejected" then 0 else CalculatePoints(d).value)
      // trust moves by the status's delta, clamped to [0, 100]
      && out.0.value.newTrustScore == ClampTrust(before.trustScore + TrustDelta(status, d.priority))
      && out.1.rewards[|l.rewards|].trustDelta == TrustDelta(status, d.priority)
  {
    var users := WithUser(l.users, userId);
    if AlreadyRewarded(l.rewards, reportId) then (Ok(Skipped), Ledger(users, l.rewards))
    else match CalculatePoints(d)
      case KeyError(k) => (KeyError(k), Ledger(users, l.rewards))
      case Ok(calculated) =>
        var status := d.verificationStatus.GetOr("manual_review");
        var delta := TrustDelta(status, d.priority);
        var points := if status == "rejected" then 0 else calculated;
        var user := users[userId];
        var updated := User(ClampTrust(user.trustScore + delta), user.totalPoints + points);
        var tx := Transaction(userId, reportId, points, delta, now);
        (Ok(Success(points, updated.trustScore, updated.totalPoints)), Ledger(users[userId := updated], l.rewards + [tx]))
  }

  /** Appending a transaction adds its points to its own user's sum only. */
  lemma PointsLoggedAppend(log: seq<Transaction>, tx: Transaction, userId: string)
    ensures PointsLogged(log + [tx], userId) == PointsLogged(log, userId) + (if tx.userId == userId then tx.points else 0)
  {
    assert (log + [tx])[..|log|] == log;
  }

  /** A user with no logged transaction has a sum of zero. */
  lemma {:induction false} PointsLoggedAbsent(log: seq<Transaction>, userId: string)
    requires forall i :: 0 <= i < |log| ==> log[i].userId != userId
    ensures PointsLogged(log, userId) == 0
  {
    if log != [] {
      PointsLoggedAbsent(log[..|log| - 1], userId);
    }
  }

  /** `process_reward` keeps the ledger valid, whatever the call's outcome. */
  lemma AwardKeepsValid(l: Ledger, userId: string, reportId: string, d: AgentReport, now: real)
    requires Valid(l)
    ensures Valid(Award(l, userId, reportId, d, now).1)
  {
    var out := Award(l, userId, reportId, d, now);
    if userId !in l.users {
      PointsLoggedAbsent(l.rewards, userId);
    }
    if out.1.rewards != l.rewards {
      var tx := out.1.rewards[|l.rewards|];
      assert out.1.rewards == l.rewards + [tx];
      forall u | u in out.1.users
        ensures out.1.users[u].totalPoints == PointsLogged(out.1.rewards, u)
      {
        PointsLoggedAppend(l.rewards, tx, u);
      }
    }
  }

  /** Once a report has been rewarded, any later call for it is skipped and leaves the log as it is. */
  lemma NoDoubleReward(l: Ledger, userId: string, reportId: string, d: AgentReport, now: real,
                       laterUser: string, laterData: AgentReport, later: real)
    requires Award(l, userId, reportId, d, now).0 .Ok?
    requires Award(l, userId, reportId, d, now).0 .value.Success?
    ensures var after := Award(l, userId, reportId, d, now).1;
      Award(after, laterUser, reportId, laterData, later) ==
        (Ok(Skipped), Ledger(WithUser(after.users, laterUser), after.rewards))
  {
    var after := Award(l, userId, reportId, d, now).1;
    assert after.rewards[|l.rewards|].reportId == reportId;
    assert AlreadyRewarded(after.rewards, reportId);
  }

  /** The engine with its users table and transaction log. */
  class RewardSystem {
    var users: map<string, User>
    var rewards: seq<Transaction>

    constructor ()
      ensures users == map[] && rewards == []
      ensures Valid(Ledger(users, rewards))
    {
      users := map[];
      rewards := [];
    }

    /** `process_reward`, proved against `Award`; it keeps the ledger valid. */
    method ProcessReward(userId: string, reportId: string, reportData: AgentReport, now: real)
      returns (r: Result<RewardResult>)
      requires Valid(Ledger(users, rewards))
      modifies this
      ensures (r, Ledger(users, rewards)) == Award(Ledger(old(users), old(rewards)), userId, reportId, reportData, now)
      ensures Valid(Ledger(users, rewards))
    {
      ghost var before := Ledger(users, rewards);
      if userId !in users {
        users := users[userId := User(InitialTrust, 0)];
      }
      var user := users[userId];

      var rewarded := IsAlreadyRewarded(reportId);
      if rewarded {
        AwardKeepsValid(before, userId, reportId, reportData, now);
        return Ok(Skipped);
      }

      var calculated := CalculatePoints(reportData);
      if calculated.KeyError? {
        AwardKeepsValid(before, userId, reportId, reportData, now);
        return KeyError(calculated.key);
      }
      var points := calculated.value;

      var verificationStatus := reportData.verificationStatus.GetOr("manual_review");
      var trustDelta: real := 0.0;
      if verificationStatus == "auto_verified" || verificationStatus == "manual_verified" {
        trustDelta := 2.0;
        if reportData.priority == Some("Critical") {
          trustDelta := trustDelta + 1.0;
        }
      } else if verificationStatus == "rejected" {
        trustDelta := -5.0;
        points := 0;
      }

      user := User(ClampTrust(user.trustScore + trustDelta), user.totalPoints + points);
      users := users[userId := user];

      rewards := rewards + [Transaction(userId, reportId, points, trustDelta, now)];

      AwardKeepsValid(before, userId, reportId, reportData, now);
      return Ok(Success(points, user.trustScore, user.totalPoints));
    }

    /** `_is_already_rewarded`: a scan of the log for the report id. */
    method IsAlreadyRewarded(reportId: string) returns (found: bool)
      ensures found <==> AlreadyRewarded(rewards, reportId)
    {
      var i := 0;
      while i < |rewards|
        invariant 0 <= i <= |rewards|
        invariant forall j :: 0 <= j < i ==> rewards[j].reportId != reportId
      {
        if rewards[i].reportId == reportId {
          return true;
        }
        i := i + 1;
      }
      return false;
    }
  }
}
