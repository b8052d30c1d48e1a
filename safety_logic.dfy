// The workplace-hazard agent's decision ladder: the hazard score and the overall
// safety score choose an alert level, an action, a priority and whether to
// evacuate. A comparison or a numeric format that Python rejects raises inside
// `apply_logic`, which catches it and answers WARNING / INVESTIGATE / 3.

module SafetyLogic {
  import opened PyValues

  datatype HazardThresholds = HazardThresholds(
    criticalHazardScore: real, warningHazardScore: real, evacuationThreshold: real,
    safetyScoreThreshold: real)

  /** `HazardLogic.__init__` */
  function NewHazardLogic(config: Settings): HazardThresholds
  {
    HazardThresholds(
      Setting(config, "critical_hazard_score", 0.8),
      Setting(config, "warning_hazard_score", 0.5),
      Setting(config, "evacuation_threshold", 0.9),
      Setting(config, "safety_score_threshold", 40.0))
  }

  /** The hazard score above which the level is at least CAUTION, fixed in the code. */
  const CautionHazardScore := 0.2

  datatype Decision = Decision(alertLevel: string, action: string, priority: int, evacuationRequired: bool)

  /** `_determine_alert`, or None where it raises. Every branch's text formats the
      safety score with `.1f`, so a non-numeric one always raises, as does a
      non-numeric hazard score in the first comparison. */
  function DetermineAlert(t: HazardThresholds, hazard: Value, safety: Value): (r: Option<Decision>)
    ensures r.None? <==> !IsNumber(hazard) || !IsNumber(safety)
    ensures r.Some? ==>
      r.value in {Decision("EMERGENCY", "EVACUATE", 1, true), Decision("CRITICAL", "IMMEDIATE_RESPONSE", 1, false),
                  Decision("WARNING", "INVESTIGATE", 2, false), Decision("CAUTION", "MONITOR", 3, false),
                  Decision("NORMAL", "MONITOR", 4, false)}
  {
    match AsReal(hazard)
    case None => None
    case Some(h) =>
      match AsReal(safety)
      case None => None
      case Some(s) =>
        if h >= t.evacuationThreshold then Some(Decision("EMERGENCY", "EVACUATE", 1, true))
        else if h >= t.criticalHazardScore || s < t.safetyScoreThreshold then
          Some(Decision("CRITICAL", "IMMEDIATE_RESPONSE", 1, false))
        else if h >= t.warningHazardScore then Some(Decision("WARNING", "INVESTIGATE", 2, false))
        else if h > CautionHazardScore then Some(Decision("CAUTION", "MONITOR", 3, false))
        else Some(Decision("NORMAL", "MONITOR", 4, false))
  }

  /** The output of `apply_logic`; the free-text recommended_action is not modelled. */
  datatype HazardOutput = HazardOutput(
    alertLevel: string, action: string, priority: int, evacuationRequired: bool,
    hazardScore: Value, hazardType: Value, safetyScore: Value)

  /** `HazardLogic.apply_logic`: the three inputs are echoed on both paths. */
  function ApplyLogic(t: HazardThresholds, prediction: Dict): (out: HazardOutput)
    ensures out.hazardScore == Get(prediction, "hazard_score", Num(0.0))
    ensures out.hazardType == Get(prediction, "hazard_type", Str("NONE"))
    ensures out.safetyScore == Get(prediction, "safety_score", Num(100.0))
    ensures out.evacuationRequired <==> out.alertLevel == "EMERGENCY"
  {
    var hazard := Get(prediction, "hazard_score", Num(0.0));
    var hazardType := Get(prediction, "hazard_type", Str("NONE"));
    var safety := Get(prediction, "safety_score", Num(100.0));
    match DetermineAlert(t, hazard, safety)
    case Some(d) =>
      HazardOutput(d.alertLevel, d.action, d.priority, d.evacuationRequired, hazard, hazardType, safety)
    case None => HazardOutput("WARNING", "INVESTIGATE", 3, false, hazard, hazardType, safety)
  }

  // ---------------------------------------------------------------- properties

  lemma DefaultThresholds()
    ensures NewHazardLogic(map[]) == HazardThresholds(0.8, 0.5, 0.9, 40.0)
  {
  }

  /** On numbers, each level is chosen exactly under its condition, in order, with its
      priority; evacuation is required in the EMERGENCY branch and nowhere else. */
  lemma Ladder(t: HazardThresholds, h: real, s: real)
    ensures var d := DetermineAlert(t, Num(h), Num(s));
      var critical := h >= t.criticalHazardScore || s < t.safetyScoreThreshold;
      d.Some?
      && (d.value == Decision("EMERGENCY", "EVACUATE", 1, true) <==> h >= t.evacuationThreshold)
      && (d.value == Decision("CRITICAL", "IMMEDIATE_RESPONSE", 1, false) <==>
            h < t.evacuationThreshold && critical)
      && (d.value == Decision("WARNING", "INVESTIGATE", 2, false) <==>
            h < t.evacuationThreshold && !critical && h >= t.warningHazardScore)
      && (d.value == Decision("CAUTION", "MONITOR", 3, false) <==>
            h < t.evacuationThreshold && !critical && h < t.warningHazardScore && h > 0.2)
      && (d.value == Decision("NORMAL", "MONITOR", 4, false) <==>
            h < t.evacuationThreshold && !critical && h < t.warningHazardScore && h <= 0.2)
  {
  }

  /** A higher hazard score, or a lower safety score, never gives a less urgent
      priority. */
  lemma WorseScoresMoreUrgent(t: HazardThresholds, h1: real, h2: real, s1: real, s2: real)
    requires h1 <= h2 && s2 <= s1
    ensures DetermineAlert(t, Num(h2), Num(s2)).value.priority <= DetermineAlert(t, Num(h1), Num(s1)).value.priority
  {
  }

  /** An empty prediction reads as hazard 0, safety 100: NORMAL under the defaults
      and any thresholds above those readings. */
  lemma EmptyPrediction(t: HazardThresholds)
    requires t.evacuationThreshold > 0.0 && t.criticalHazardScore > 0.0 && t.warningHazardScore > 0.0
    requires t.safetyScoreThreshold <= 100.0
    ensures var out := ApplyLogic(t, map[]);
      out.alertLevel == "NORMAL" && out.priority == 4 && !out.evacuationRequired
      && out.hazardType == Str("NONE") && out.safetyScore == Num(100.0)
  {
  }

  /** A non-numeric score falls back to WARNING / INVESTIGATE / 3, without evacuation. */
  lemma Fallback(t: HazardThresholds, prediction: Dict)
    requires !IsNumber(Get(prediction, "safety_score", Num(100.0)))
    ensures var out := ApplyLogic(t, prediction);
      out.alertLevel == "WARNING" && out.action == "INVESTIGATE" && out.priority == 3
      && !out.evacuationRequired
  {
  }
}
