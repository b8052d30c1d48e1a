// The PPE agent's decision ladder: the required protective items whose compliance
// flag is false are listed as violations, and their number together with the
// compliance rate chooses an alert level, an action, a priority and whether to deny
// site access. A comparison or a numeric format that Python rejects raises inside
// `apply_logic`, which catches it and answers WARNING / INVESTIGATE / 3.

module PpeLogic {
  import opened PyValues

  datatype PpeThresholds = PpeThresholds(
    criticalComplianceRate: real, warningComplianceRate: real, requiredItems: seq<string>)

  const DefaultItems: seq<string> := ["helmet", "vest", "gloves"]

  /** `PPELogic.__init__`; `items` is the configured required_items list, if any. */
  function NewPpeLogic(config: Settings, items: Option<seq<string>>): PpeThresholds
  {
    PpeThresholds(
      Setting(config, "critical_compliance_rate", 50.0),
      Setting(config, "warning_compliance_rate", 75.0),
      if items.Some? then items.value else DefaultItems)
  }

  /** The compliance rate below which the level is at least CAUTION, fixed in the code. */
  const OptimalComplianceRate := 90.0

  /** The position of an item in the order the checks run. */
  function ItemRank(item: string): int
  {
    if item == "helmet" then 0 else if item == "vest" then 1 else 2
  }

  /** The violations list of `apply_logic`: each required item whose flag is falsy,
      checked in the order helmet, vest, gloves. */
  function Violations(required: seq<string>, helmet: Value, vest: Value, gloves: Value): (v: seq<string>)
    ensures |v| <= 3
  {
    (if "helmet" in required && !Truthy(helmet) then ["helmet"] else [])
    + (if "vest" in required && !Truthy(vest) then ["vest"] else [])
    + (if "gloves" in required && !Truthy(gloves) then ["gloves"] else [])
  }

  datatype Decision = Decision(alertLevel: string, action: string, priority: int, accessDenied: bool)

  /** `_determine_alert`, or None where it raises: every branch's text formats the
      compliance rate with `.1f`, so a non-numeric rate always raises. */
  function DetermineAlert(t: PpeThresholds, rate: Value, violationsCount: int): (r: Option<Decision>)
    ensures r.None? <==> !IsNumber(rate)
    ensures r.Some? ==>
      r.value in {Decision("CRITICAL", "DENY_ACCESS", 1, true), Decision("WARNING", "WARN_WORKER", 2, false),
                  Decision("CAUTION", "MONITOR", 3, false), Decision("NORMAL", "ALLOW_ACCESS", 4, false)}
    ensures r.Some? && violationsCount >= 2 ==> r.value.accessDenied
    ensures r.Some? && violationsCount == 1 ==> r.value.priority <= 2
  {
    match AsReal(rate)
    case None => None
    case Some(r) =>
      if violationsCount >= 2 || r < t.criticalComplianceRate then
        Some(Decision("CRITICAL", "DENY_ACCESS", 1, true))
      else if violationsCount >= 1 || r < t.warningComplianceRate then
        Some(Decision("WARNING", "WARN_WORKER", 2, false))
      else if r < OptimalComplianceRate then Some(Decision("CAUTION", "MONITOR", 3, false))
      else Some(Decision("NORMAL", "ALLOW_ACCESS", 4, false))
  }

  /** The output of `apply_logic`; the free-text recommended_action is not modelled. */
  datatype PpeOutput = PpeOutput(
    alertLevel: string, action: string, priority: int, accessDenied: bool,
    violations: seq<string>, violationsCount: int, complianceRate: Value, overallCompliance: Value)

  /** `PPELogic.apply_logic`: violations_count is the length of the list, the rate is
      echoed on both paths, and the fallback reports no violations and no overall
      compliance. */
  function ApplyLogic(t: PpeThresholds, prediction: Dict): (out: PpeOutput)
    ensures out.violationsCount == |out.violations|
    ensures out.complianceRate == Get(prediction, "compliance_rate", Num(0.0))
    ensures out.accessDenied <==> out.alertLevel == "CRITICAL"
    ensures out.action != "INVESTIGATE" ==>
      out.violations == Violations(t.requiredItems, Get(prediction, "helmet_compliant", Bool(false)),
                                   Get(prediction, "vest_compliant", Bool(false)),
                                   Get(prediction, "gloves_compliant", Bool(false)))
      && out.overallCompliance == Get(prediction, "overall_compliance", Bool(false))
  {
    var rate := Get(prediction, "compliance_rate", Num(0.0));
    var overall := Get(prediction, "overall_compliance", Bool(false));
    var violations := Violations(t.requiredItems, Get(prediction, "helmet_compliant", Bool(false)),
                                 Get(prediction, "vest_compliant", Bool(false)),
                                 Get(prediction, "gloves_compliant", Bool(false)));
    match DetermineAlert(t, rate, |violations|)
    case Some(d) =>
      PpeOutput(d.alertLevel, d.action, d.priority, d.accessDenied, violations, |violations|, rate, overall)
    case None => PpeOutput("WARNING", "INVESTIGATE", 3, false, [], 0, rate, Bool(false))
  }

  // ---------------------------------------------------------------- properties

  lemma DefaultThresholds()
    ensures NewPpeLogic(map[], None) == PpeThresholds(50.0, 75.0, ["helmet", "vest", "gloves"])
  {
  }

  /** An item is listed exactly when it is one of the three, is required and its flag
      is falsy; each at most once, in the order helmet, vest, gloves. */
  lemma ViolationsExactly(required: seq<string>, helmet: Value, vest: Value, gloves: Value)
    ensures var v := Violations(required, helmet, vest, gloves);
      ("helmet" in v <==> "helmet" in required && !Truthy(helmet))
      && ("vest" in v <==> "vest" in required && !Truthy(vest))
      && ("gloves" in v <==> "gloves" in required && !Truthy(gloves))
      && (forall x :: x in v ==> x == "helmet" || x == "vest" || x == "gloves")
      && (forall i, j :: 0 <= i < j < |v| ==> ItemRank(v[i]) < ItemRank(v[j]))
  {
  }

  /** An item that is not required never appears, whatever its flag. */
  lemma UnrequiredNeverViolated(required: seq<string>, helmet: Value, vest: Value, gloves: Value, item: string)
    requires item !in required
    ensures item !in Violations(required, helmet, vest, gloves)
  {
  }

  /** On a numeric rate, each level is chosen exactly under its condition, in order,
      with its priority; access is denied in the CRITICAL branch and nowhere else. */
  lemma Ladder(t: PpeThresholds, r: real, count: int)
    ensures var d := DetermineAlert(t, Num(r), count);
      var critical := count >= 2 || r < t.criticalComplianceRate;
      var warning := count >= 1 || r < t.warningComplianceRate;
      d.Some?
      && (d.value == Decision("CRITICAL", "DENY_ACCESS", 1, true) <==> critical)
      && (d.value == Decision("WARNING", "WARN_WORKER", 2, false) <==> !critical && warning)
      && (d.value == Decision("CAUTION", "MONITOR", 3, false) <==> !critical && !warning && r < 90.0)
      && (d.value == Decision("NORMAL", "ALLOW_ACCESS", 4, false) <==> !critical && !warning && r >= 90.0)
  {
  }

  /** A lower rate, or more violations, never gives a less urgent priority. */
  lemma WorseComplianceMoreUrgent(t: PpeThresholds, r1: real, r2: real, c1: int, c2: int)
    requires r1 <= r2 && c2 <= c1
    ensures DetermineAlert(t, Num(r1), c1).value.priority <= DetermineAlert(t, Num(r2), c2).value.priority
  {
  }

  /** An empty prediction reads as rate 0 with every flag false: under the defaults
      all three items are violations, and the level is CRITICAL with access denied. */
  lemma EmptyPrediction()
    ensures var out := ApplyLogic(NewPpeLogic(map[], None), map[]);
      out.alertLevel == "CRITICAL" && out.action == "DENY_ACCESS" && out.priority == 1
      && out.accessDenied && out.violations == ["helmet", "vest", "gloves"] && out.violationsCount == 3
  {
  }

  /** A non-numeric rate falls back with no violations, whatever the flags. */
  lemma Fallback(t: PpeThresholds, prediction: Dict)
    requires !IsNumber(Get(prediction, "compliance_rate", Num(0.0)))
    ensures var out := ApplyLogic(t, prediction);
      out.alertLevel == "WARNING" && out.action == "INVESTIGATE" && out.priority == 3
      && !out.accessDenied && out.violations == [] && out.overallCompliance == Bool(false)
  {
  }
}
