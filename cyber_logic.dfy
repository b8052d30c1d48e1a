// The cyber agent's decision ladder: the model's threat label and its count of
// consecutive anomalies choose an alert level, an action and a priority. The
// anomaly score only appears in the recommendation text; the two configured score
// thresholds are read but never consulted.

module CyberLogic {
  import opened PyValues

  datatype CyberThresholds = CyberThresholds(
    consecutiveThreshold: real, criticalAnomalyScore: real, highAnomalyScore: real)

  /** `CyberLogic.__init__` */
  function NewCyberLogic(config: Settings): CyberThresholds
  {
    CyberThresholds(
      Setting(config, "consecutive_threshold", 5.0),
      Setting(config, "critical_anomaly_score", 0.9),
      Setting(config, "high_anomaly_score", 0.7))
  }

  datatype Decision = Decision(alertLevel: string, action: string, priority: int)

  /** `threat_level == name`: Python's equality, exact and case-sensitive, and false
      for a value that is not a string. */
  predicate IsLabel(threat: Value, name: string)
  {
    threat == Str(name)
  }

  /** `_determine_alert`, or None where it raises: the consecutive count is compared
      (unless the label is already CRITICAL) and every text but the NORMAL one formats
      the anomaly score with `.2f`. */
  function DetermineAlert(t: CyberThresholds, threat: Value, score: Value, consecutive: Value,
                          isAnomaly: Value): (r: Option<Decision>)
    ensures r.Some? ==> r.value in {Decision("CRITICAL", "IMMEDIATE_RESPONSE", 1), Decision("WARNING", "INVESTIGATE", 2),
                                    Decision("CAUTION", "MONITOR", 3), Decision("NORMAL", "MONITOR", 4)}
    ensures !IsLabel(threat, "CRITICAL") && AsReal(consecutive).None? ==> r.None?
    ensures IsNumber(score) && (IsLabel(threat, "CRITICAL") || AsReal(consecutive).Some?) ==> r.Some?
    ensures r.Some? && !IsNumber(score) ==> r.value.alertLevel == "NORMAL"
  {
    var critical :=
      if IsLabel(threat, "CRITICAL") then Some(true)
      else match AsReal(consecutive)
        case None => None
        case Some(n) => Some(n >= t.consecutiveThreshold);
    match critical
    case None => None
    case Some(isCritical) =>
      if isCritical then
        if IsNumber(score) then Some(Decision("CRITICAL", "IMMEDIATE_RESPONSE", 1)) else None
      else if IsLabel(threat, "HIGH") then
        if IsNumber(score) then Some(Decision("WARNING", "INVESTIGATE", 2)) else None
      else if IsLabel(threat, "MEDIUM") || Truthy(isAnomaly) then
        if IsNumber(score) then Some(Decision("CAUTION", "MONITOR", 3)) else None
      else Some(Decision("NORMAL", "MONITOR", 4))
  }

  /** The output of `apply_logic`; the free-text recommended_action is not modelled. */
  datatype CyberOutput = CyberOutput(
    alertLevel: string, action: string, priority: int,
    threatLevel: Value, anomalyScore: Value, consecutiveAnomalies: Value, isAnomaly: Value)

  /** `CyberLogic.apply_logic`: the four inputs are echoed; the fallback reports fixed
      values (LOW, 0.0, 0, False) instead of the inputs. */
  function ApplyLogic(t: CyberThresholds, prediction: Dict): (out: CyberOutput)
    ensures out.action != "INVESTIGATE" || out.alertLevel != "WARNING" ==>
      out.threatLevel == Get(prediction, "threat_level", Str("LOW"))
      && out.anomalyScore == Get(prediction, "anomaly_score", Num(0.0))
      && out.consecutiveAnomalies == Get(prediction, "consecutive_anomalies", Int(0))
      && out.isAnomaly == Get(prediction, "is_anomaly", Bool(false))
    ensures 1 <= out.priority <= 4
  {
    var score := Get(prediction, "anomaly_score", Num(0.0));
    var isAnomaly := Get(prediction, "is_anomaly", Bool(false));
    var threat := Get(prediction, "threat_level", Str("LOW"));
    var consecutive := Get(prediction, "consecutive_anomalies", Int(0));
    match DetermineAlert(t, threat, score, consecutive, isAnomaly)
    case Some(d) => CyberOutput(d.alertLevel, d.action, d.priority, threat, score, consecutive, isAnomaly)
    case None => CyberOutput("WARNING", "INVESTIGATE", 3, Str("LOW"), Num(0.0), Int(0), Bool(false))
  }

  // ---------------------------------------------------------------- properties

  lemma DefaultThresholds()
    ensures NewCyberLogic(map[]) == CyberThresholds(5.0, 0.9, 0.7)
  {
  }

  /** On a string label and numbers, each level is chosen exactly under its
      condition, in order, with its priority. */
  lemma Ladder(t: CyberThresholds, name: string, score: real, n: int, flagged: bool)
    ensures var d := DetermineAlert(t, Str(name), Num(score), Int(n), Bool(flagged));
      var critical := name == "CRITICAL" || n as real >= t.consecutiveThreshold;
      d.Some?
      && (d.value == Decision("CRITICAL", "IMMEDIATE_RESPONSE", 1) <==> critical)
      && (d.value == Decision("WARNING", "INVESTIGATE", 2) <==> !critical && name == "HIGH")
      && (d.value == Decision("CAUTION", "MONITOR", 3) <==>
            !critical && name != "HIGH" && (name == "MEDIUM" || flagged))
      && (d.value == Decision("NORMAL", "MONITOR", 4) <==>
            !critical && name != "HIGH" && name != "MEDIUM" && !flagged)
  {
  }

  /** Labels match exactly: lower-case "high" or "critical" is not recognised, so
      below the consecutive threshold it is at most CAUTION. */
  lemma LabelsCaseSensitive(t: CyberThresholds, score: real, n: int, flagged: bool)
    requires (n as real) < t.consecutiveThreshold
    ensures DetermineAlert(t, Str("high"), Num(score), Int(n), Bool(flagged)).value.priority >= 3
    ensures DetermineAlert(t, Str("critical"), Num(score), Int(n), Bool(flagged)).value.priority >= 3
  {
  }

  /** The decision never depends on the anomaly score's value, nor on the two
      configured score thresholds. */
  lemma ScoreNeverDecides(t: CyberThresholds, threat: Value, s1: real, s2: real, consecutive: Value,
                          isAnomaly: Value, critical: real, high: real)
    ensures DetermineAlert(t, threat, Num(s1), consecutive, isAnomaly)
         == DetermineAlert(t.(criticalAnomalyScore := critical, highAnomalyScore := high),
                           threat, Num(s2), consecutive, isAnomaly)
  {
  }

  /** More consecutive anomalies never give a less urgent priority. */
  lemma MoreAnomaliesMoreUrgent(t: CyberThresholds, name: string, score: real, n1: int, n2: int, flagged: bool)
    requires n1 <= n2
    ensures DetermineAlert(t, Str(name), Num(score), Int(n2), Bool(flagged)).value.priority
         <= DetermineAlert(t, Str(name), Num(score), Int(n1), Bool(flagged)).value.priority
  {
  }

  /** An empty prediction reads as name LOW, no consecutive anomalies and no flag:
      NORMAL whenever the consecutive threshold is positive, as the default 5 is. */
  lemma EmptyPrediction(t: CyberThresholds)
    requires t.consecutiveThreshold > 0.0
    ensures var out := ApplyLogic(t, map[]);
      out.alertLevel == "NORMAL" && out.action == "MONITOR" && out.priority == 4
      && out.threatLevel == Str("LOW") && out.consecutiveAnomalies == Int(0)
  {
  }

  /** A non-numeric count below a non-CRITICAL name raises and falls back. */
  lemma Fallback(t: CyberThresholds, prediction: Dict)
    requires Get(prediction, "threat_level", Str("LOW")) != Str("CRITICAL")
    requires !IsNumber(Get(prediction, "consecutive_anomalies", Int(0)))
    ensures ApplyLogic(t, prediction) ==
      CyberOutput("WARNING", "INVESTIGATE", 3, Str("LOW"), Num(0.0), Int(0), Bool(false))
  {
  }
}
