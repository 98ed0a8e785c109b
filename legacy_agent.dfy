/**
 * The rule-based agent of the earlier Streamlit prototype: a repair cost
 * proportional to the number of detections, and a priority by how many
 * there are.
 */
module LegacyAgent {
  import opened Wrappers
  import opened Text

  /** The rupee sign that prefixes a cost. */
  const Rupee: char := '\U{20B9}'

  const AutoAction: string := "Auto Work Order Generated"

  /** The cost of one detection for each issue type the prototype offers. */
  const BaseCost: map<string, nat> := map["Pothole" := 1500, "Garbage" := 800, "Streetlight" := 2000]

  /** The issue types offered in the prototype's selection box. */
  const Choices: seq<string> := ["Pothole", "Garbage", "Streetlight"]

  /** The dictionary `agent_decision` returns. */
  datatype Decision = Decision(issueType: string, detections: nat, estimatedCost: string, priority: string, action: string)

  /** Low for at most 2 detections, Medium up to 5, High above. */
  function PriorityFor(detections: nat): (p: string)
    ensures p in {"Low", "Medium", "High"}
    ensures p == "Low" <==> detections <= 2
    ensures p == "High" <==> detections > 5
  {
    if detections <= 2 then "Low" else if detections <= 5 then "Medium" else "High"
  }

  function Rank(priority: string): nat {
    if priority == "High" then 2 else if priority == "Medium" then 1 else 0
  }

  /** More detections never lower the priority. */
  lemma PriorityMonotone(fewer: nat, more: nat)
    requires fewer <= more
    ensures Rank(PriorityFor(fewer)) <= Rank(PriorityFor(more))
  {
  }

  /** `"₹<cost>"`. */
  function CostText(cost: nat): string {
    [Rupee] + Decimal(cost)
  }

  /** Reads a cost text back as a number of rupees; the digits must be in the form `str` prints. */
  function ParseCost(s: string): Option<nat> {
    if |s| >= 2 && s[0] == Rupee && Canonical(s[1..]) then Some(DecimalValue(s[1..])) else None
  }

  /** The only text that reads back as a cost is the one `agent_decision` prints for it. */
  lemma CostTextIsUnique(s: string, cost: nat)
    requires ParseCost(s) == Some(cost)
    ensures s == CostText(cost)
  {
    CanonicalIsDecimal(s[1..]);
    assert s == [s[0]] + s[1..];
  }

  /**
   * `agent_decision`: a KeyError (keyed by the issue type) for an issue
   * type without a base cost; otherwise the decision.
   */
  function AgentDecision(issue: string, detections: nat): (r: Result<Decision>)
    ensures r.KeyError? <==> issue !in BaseCost
    ensures r.KeyError? ==> r.key == issue
    ensures r.Ok? ==>
      && r.value.issueType == issue && r.value.detections == detections
      && ParseCost(r.value.estimatedCost) == Some(BaseCost[issue] * detections)
      && r.value.priority == PriorityFor(detections)
      && r.value.action == AutoAction
  {
    if issue !in BaseCost then KeyError(issue)
    else
      var cost := BaseCost[issue] * detections;
      DecimalRoundTrip(cost);
      assert CostText(cost)[1..] == Decimal(cost);
      Ok(Decision(issue, detections, CostText(cost), PriorityFor(detections), AutoAction))
  }

  /** Every issue type the prototype offers has a cost, so the agent never raises for it. */
  lemma ChoicesAreCosted(issue: string, detections: nat)
    requires issue in Choices
    ensures AgentDecision(issue, detections).Ok?
  {
  }

  /** The cost grows with the number of detections. */
  lemma CostMonotone(issue: string, fewer: nat, more: nat)
    requires issue in BaseCost && fewer <= more
    ensures ParseCost(AgentDecision(issue, fewer).value.estimatedCost).value
      <= ParseCost(AgentDecision(issue, more).value.estimatedCost).value
  {
    assert BaseCost[issue] * fewer <= BaseCost[issue] * more by {
      var b := BaseCost[issue];
      assert b * more == b * fewer + b * (more - fewer);
    }
  }
}
