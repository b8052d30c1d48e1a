// The energy agent's decision ladder: the efficiency score, and the anomaly score
// when the anomaly flag is set, choose an alert level, an action, a priority and
// a list of optimisation recommendations. A comparison or a numeric format that
// Python rejects raises inside `apply_logic`, which catches it and answers
// WARNING / INVESTIGATE / 3.

module EnergyLogic {
  import opened PyValues

  datatype EnergyThresholds = EnergyThresholds(
    criticalEfficiency: real, warningEfficiency: real, anomalyThreshold: real)

  /** `EnergyLogic.__init__` */
  function NewEnergyLogic(config: Settings): EnergyThresholds
  {
    EnergyThresholds(
      Setting(config, "critical_efficiency", 40.0),
      Setting(config, "warning_efficiency", 60.0),
      Setting(config, "anomaly_threshold", 0.7))
  }

  /** The anomaly score above which a flagged anomaly is critical, fixed in the code. */
  const CriticalAnomalyScore := 0.8
  /** The efficiency below which the level is at least CAUTION, fixed in the code. */
  const OptimalEfficiency := 80.0

  const CriticalRecommendations := [
    "Immediate load reduction required", "Check for equipment malfunctions",
    "Review production schedule", "Consider peak shaving strategies"]
  const WarningRecommendations := [
    "Review energy consumption patterns", "Optimize production scheduling",
    "Check equipment efficiency", "Consider load balancing"]
  const CautionRecommendations := ["Monitor consumption trends", "Review operational schedules"]

  /** The percentage deviation from the baseline that the CRITICAL and WARNING texts
      report; 0 when the baseline is not positive, so it never divides by zero. */
  function Deviation(consumption: real, baseline: real): (d: real)
    ensures baseline > 0.0 ==> d * baseline == (consumption - baseline) * 100.0
    ensures baseline <= 0.0 ==> d == 0.0
  {
    if baseline > 0.0 then (consumption - baseline) / baseline * 100.0 else 0.0
  }

  datatype Decision = Decision(
    alertLevel: string, action: string, priority: int, optimizations: seq<string>)

  /** `efficiency < limit or (is_anomaly and anomaly_score > bound)`, None where the
      score comparison raises; the score is compared only when the efficiency test
      fails and the flag is truthy. */
  function LowOrAnomalous(e: real, limit: real, isAnomaly: Value, score: Value, bound: real): Option<bool>
  {
    if e < limit then Some(true)
    else if !Truthy(isAnomaly) then Some(false)
    else match AsReal(score)
      case None => None
      case Some(s) => Some(s > bound)
  }

  /** The CRITICAL and WARNING branches compare the baseline with 0, subtract it from
      the consumption and format both: they raise unless both are numbers. */
  predicate ReportsDeviation(consumption: Value, baseline: Value)
  {
    IsNumber(consumption) && IsNumber(baseline)
  }

  /** `_determine_alert`, or None where it raises. */
  function DetermineAlert(t: EnergyThresholds, efficiency: Value, score: Value, isAnomaly: Value,
                          consumption: Value, baseline: Value): (r: Option<Decision>)
    ensures r.Some? ==>
      (r.value.alertLevel, r.value.action, r.value.priority) in
        {("CRITICAL", "IMMEDIATE_OPTIMIZATION", 1), ("WARNING", "OPTIMIZE_CONSUMPTION", 2),
         ("CAUTION", "MONITOR", 3), ("NORMAL", "MAINTAIN", 4)}
    ensures r.Some? ==> |r.value.optimizations| == [4, 4, 2, 0][r.value.priority - 1]
    ensures AsReal(efficiency).None? ==> r.None?
    ensures r.Some? && r.value.priority <= 2 ==> IsNumber(consumption) && IsNumber(baseline)
    ensures AsReal(efficiency).Some? && IsNumber(score) && IsNumber(consumption) && IsNumber(baseline) ==> r.Some?
  {
    match AsReal(efficiency)
    case None => None
    case Some(e) =>
      match LowOrAnomalous(e, t.criticalEfficiency, isAnomaly, score, CriticalAnomalyScore)
      case None => None
      case Some(critical) =>
        if critical then
          if ReportsDeviation(consumption, baseline)
          then Some(Decision("CRITICAL", "IMMEDIATE_OPTIMIZATION", 1, CriticalRecommendations))
          else None
        else
          match LowOrAnomalous(e, t.warningEfficiency, isAnomaly, score, t.anomalyThreshold)
          case None => None
          case Some(warning) =>
            if warning then
              if ReportsDeviation(consumption, baseline)
              then Some(Decision("WARNING", "OPTIMIZE_CONSUMPTION", 2, WarningRecommendations))
              else None
            else if e < OptimalEfficiency then
              Some(Decision("CAUTION", "MONITOR", 3, CautionRecommendations))
            else if IsNumber(consumption) then
              Some(Decision("NORMAL", "MAINTAIN", 4, []))
            else None
  }

  /** The output of `apply_logic`; the free-text recommended_action is not modelled. */
  datatype EnergyOutput = EnergyOutput(
    alertLevel: string, action: string, priority: int, optimizations: seq<string>,
    consumption: Value, efficiency: Value, anomalyScore: Value, isAnomaly: Value)

  /** `EnergyLogic.apply_logic`. The fallback echoes the three numbers with 0.0 as
      their default, not the defaults the ladder read, and reports no anomaly. */
  function ApplyLogic(t: EnergyThresholds, prediction: Dict): (out: EnergyOutput)
    ensures out.anomalyScore == Get(prediction, "anomaly_score", Num(0.0))
    ensures out.action != "INVESTIGATE" ==>
      out.efficiency == Get(prediction, "efficiency_score", Num(50.0))
      && out.consumption == Get(prediction, "consumption_kwh", Num(100.0))
      && out.isAnomaly == Get(prediction, "is_anomaly", Bool(false))
    ensures out.action == "INVESTIGATE" ==>
      out.alertLevel == "WARNING" && out.priority == 3 && out.optimizations == []
      && out.efficiency == Get(prediction, "efficiency_score", Num(0.0))
      && out.consumption == Get(prediction, "consumption_kwh", Num(0.0))
      && out.isAnomaly == Bool(false)
  {
    var efficiency := Get(prediction, "efficiency_score", Num(50.0));
    var score := Get(prediction, "anomaly_score", Num(0.0));
    var isAnomaly := Get(prediction, "is_anomaly", Bool(false));
    var consumption := Get(prediction, "consumption_kwh", Num(100.0));
    var baseline := Get(prediction, "baseline_consumption", Num(100.0));
    match DetermineAlert(t, efficiency, score, isAnomaly, consumption, baseline)
    case Some(d) =>
      EnergyOutput(d.alertLevel, d.action, d.priority, d.optimizations,
                   consumption, efficiency, score, isAnomaly)
    case None =>
      EnergyOutput("WARNING", "INVESTIGATE", 3, [],
                   Get(prediction, "consumption_kwh", Num(0.0)),
                   Get(prediction, "efficiency_score", Num(0.0)), score, Bool(false))
  }

  // ---------------------------------------------------------------- properties

  lemma DefaultThresholds()
    ensures NewEnergyLogic(map[]) == EnergyThresholds(40.0, 60.0, 0.7)
  {
  }

  /** On numbers, each level is chosen exactly under its condition, in order; the
      priority and the number of recommendations go with the level. */
  lemma Ladder(t: EnergyThresholds, e: real, s: real, flagged: bool, c: real, b: real)
    ensures var d := DetermineAlert(t, Num(e), Num(s), Bool(flagged), Num(c), Num(b));
      var critical := e < t.criticalEfficiency || (flagged && s > 0.8);
      var warning := e < t.warningEfficiency || (flagged && s > t.anomalyThreshold);
      d.Some?
      && (d.value.alertLevel == "CRITICAL" <==> critical)
      && (d.value.alertLevel == "WARNING" <==> !critical && warning)
      && (d.value.alertLevel == "CAUTION" <==> !critical && !warning && e < 80.0)
      && (d.value.alertLevel == "NORMAL" <==> !critical && !warning && e >= 80.0)
      && (d.value.alertLevel == "CRITICAL" ==> d.value.priority == 1 && |d.value.optimizations| == 4)
      && (d.value.alertLevel == "WARNING" ==> d.value.priority == 2 && |d.value.optimizations| == 4)
      && (d.value.alertLevel == "CAUTION" ==> d.value.priority == 3 && |d.value.optimizations| == 2)
      && (d.value.alertLevel == "NORMAL" ==> d.value.priority == 4 && d.value.optimizations == [])
  {
  }

  /** Without the anomaly flag the anomaly score is never looked at: any two scores,
      numbers or not, give the same decision. */
  lemma ScoreIgnoredWithoutFlag(t: EnergyThresholds, e: Value, s1: Value, s2: Value, isAnomaly: Value,
                                c: Value, b: Value)
    requires !Truthy(isAnomaly)
    ensures DetermineAlert(t, e, s1, isAnomaly, c, b) == DetermineAlert(t, e, s2, isAnomaly, c, b)
  {
    if AsReal(e).Some? {
      var x := AsReal(e).value;
      assert LowOrAnomalous(x, t.criticalEfficiency, isAnomaly, s1, CriticalAnomalyScore)
          == LowOrAnomalous(x, t.criticalEfficiency, isAnomaly, s2, CriticalAnomalyScore);
      assert LowOrAnomalous(x, t.warningEfficiency, isAnomaly, s1, t.anomalyThreshold)
          == LowOrAnomalous(x, t.warningEfficiency, isAnomaly, s2, t.anomalyThreshold);
    }
  }

  /** A lower efficiency never gives a less urgent priority, whatever the thresholds. */
  lemma LowerEfficiencyMoreUrgent(t: EnergyThresholds, e1: real, e2: real, s: real, flagged: bool, c: real, b: real)
    requires e1 <= e2
    ensures DetermineAlert(t, Num(e1), Num(s), Bool(flagged), Num(c), Num(b)).value.priority
         <= DetermineAlert(t, Num(e2), Num(s), Bool(flagged), Num(c), Num(b)).value.priority
  {
  }

  /** An empty prediction reads as efficiency 50 with no anomaly: WARNING under the
      default thresholds, and under any that put 50 between them. */
  lemma EmptyPrediction(t: EnergyThresholds)
    requires t.criticalEfficiency <= 50.0 < t.warningEfficiency
    ensures var out := ApplyLogic(t, map[]);
      out.alertLevel == "WARNING" && out.action == "OPTIMIZE_CONSUMPTION" && out.priority == 2
      && out.optimizations == WarningRecommendations
      && out.efficiency == Num(50.0) && out.consumption == Num(100.0) && out.isAnomaly == Bool(false)
  {
  }

  /** A non-numeric efficiency always raises and falls back. */
  lemma Fallback(t: EnergyThresholds, prediction: Dict)
    requires !IsNumber(Get(prediction, "efficiency_score", Num(50.0)))
    ensures ApplyLogic(t, prediction).action == "INVESTIGATE"
  {
  }
}
