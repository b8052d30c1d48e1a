// The predictive-maintenance agent's decision ladder: the failure probability
// and the remaining useful life (RUL) are compared against four thresholds to
// choose an alert level, an action and a priority. A comparison or a numeric
// format that Python rejects raises inside `apply_logic`, which catches it and
// answers WARNING / INVESTIGATE / 3.

module MaintLogic {
  import opened PyValues

  datatype PmThresholds = PmThresholds(
    criticalRul: real, warningRul: real, cautionRul: real, criticalFailureProb: real)

  /** `PMLogic.__init__`: each threshold is read from the configuration, with its default. */
  function NewPmLogic(config: Settings): PmThresholds
  {
    PmThresholds(
      Setting(config, "critical_rul", 24.0),
      Setting(config, "warning_rul", 72.0),
      Setting(config, "caution_rul", 168.0),
      Setting(config, "critical_failure_prob", 0.8))
  }

  datatype Decision = Decision(alertLevel: string, action: string, priority: int)

  /** The priority that goes with each alert level of this ladder. */
  function PriorityOf(level: string): int
  {
    if level == "EMERGENCY" || level == "CRITICAL" then 1
    else if level == "WARNING" then 2
    else if level == "CAUTION" then 3
    else 4
  }

  /** `_determine_alert`, or None where it raises: comparing a value that is not a
      number raises TypeError, and formatting one with `.1f` in the chosen branch's
      text raises too. The EMERGENCY text formats the probability and the RUL; every
      other text formats the RUL and the health score. */
  function DetermineAlert(t: PmThresholds, rul: Value, failureProb: Value, health: Value): (r: Option<Decision>)
    ensures r.None? <==>
      !IsNumber(failureProb) || !IsNumber(rul)
      || (!IsNumber(health) && AsReal(failureProb).value < t.criticalFailureProb)
    ensures r.Some? ==>
      r.value in {Decision("EMERGENCY", "EMERGENCY_SHUTDOWN", 1), Decision("CRITICAL", "IMMEDIATE_MAINTENANCE", 1),
                  Decision("WARNING", "SCHEDULE_72H", 2), Decision("CAUTION", "PLAN_1WEEK", 3),
                  Decision("NORMAL", "MONITOR", 4)}
  {
    match AsReal(failureProb)
    case None => None
    case Some(fp) =>
      if fp >= t.criticalFailureProb then
        if IsNumber(rul) then Some(Decision("EMERGENCY", "EMERGENCY_SHUTDOWN", 1)) else None
      else
        match AsReal(rul)
        case None => None
        case Some(r) =>
          if !IsNumber(health) then None
          else if r < t.criticalRul then Some(Decision("CRITICAL", "IMMEDIATE_MAINTENANCE", 1))
          else if r < t.warningRul then Some(Decision("WARNING", "SCHEDULE_72H", 2))
          else if r < t.cautionRul then Some(Decision("CAUTION", "PLAN_1WEEK", 3))
          else Some(Decision("NORMAL", "MONITOR", 4))
  }

  /** The output of `apply_logic`; the free-text recommended_action is not modelled. */
  datatype PmOutput = PmOutput(
    alertLevel: string, action: string, priority: int,
    rulHours: Value, healthScore: Value, failureProbability: Value)

  /** `PMLogic.apply_logic`: missing fields default to 0.0, the three inputs are echoed
      unchanged on both paths, and a raising ladder gives the fallback decision. */
  function ApplyLogic(t: PmThresholds, prediction: Dict): (out: PmOutput)
    ensures out.rulHours == Get(prediction, "rul_hours", Num(0.0))
    ensures out.healthScore == Get(prediction, "health_score", Num(0.0))
    ensures out.failureProbability == Get(prediction, "failure_probability", Num(0.0))
    ensures out.priority == PriorityOf(out.alertLevel) || out.action == "INVESTIGATE"
  {
    var rul := Get(prediction, "rul_hours", Num(0.0));
    var fp := Get(prediction, "failure_probability", Num(0.0));
    var health := Get(prediction, "health_score", Num(0.0));
    match DetermineAlert(t, rul, fp, health)
    case Some(d) => PmOutput(d.alertLevel, d.action, d.priority, rul, health, fp)
    case None => PmOutput("WARNING", "INVESTIGATE", 3, rul, health, fp)
  }

  // ---------------------------------------------------------------- properties

  /** The configured thresholds of an empty configuration. */
  lemma DefaultThresholds()
    ensures NewPmLogic(map[]) == PmThresholds(24.0, 72.0, 168.0, 0.8)
  {
  }

  /** On numbers, each level is chosen exactly under its condition: the probability
      check comes first, whatever the RUL; then the RUL bands, in order. The
      conditions are mutually exclusive and cover every input, and the priority is
      the level's. */
  lemma Ladder(t: PmThresholds, rul: real, fp: real, health: real)
    ensures var d := DetermineAlert(t, Num(rul), Num(fp), Num(health));
      d.Some?
      && (d.value.alertLevel == "EMERGENCY" <==> fp >= t.criticalFailureProb)
      && (d.value.alertLevel == "CRITICAL" <==> fp < t.criticalFailureProb && rul < t.criticalRul)
      && (d.value.alertLevel == "WARNING" <==>
            fp < t.criticalFailureProb && t.criticalRul <= rul < t.warningRul)
      && (d.value.alertLevel == "CAUTION" <==>
            fp < t.criticalFailureProb && t.criticalRul <= rul && t.warningRul <= rul < t.cautionRul)
      && (d.value.alertLevel == "NORMAL" <==>
            fp < t.criticalFailureProb && t.criticalRul <= rul && t.warningRul <= rul && t.cautionRul <= rul)
      && d.value.priority == PriorityOf(d.value.alertLevel)
      && 1 <= d.value.priority <= 4
  {
  }

  /** A shorter RUL never gives a less urgent priority, whatever the thresholds: each
      band's test is closed downwards. */
  lemma ShorterRulMoreUrgent(t: PmThresholds, r1: real, r2: real, fp: real, health: real)
    requires r1 <= r2
    ensures DetermineAlert(t, Num(r1), Num(fp), Num(health)).value.priority
         <= DetermineAlert(t, Num(r2), Num(fp), Num(health)).value.priority
  {
  }

  /** A probability at the threshold is an emergency even with a non-numeric health
      score, since the EMERGENCY text does not format it. */
  lemma EmergencyIgnoresHealth(t: PmThresholds, rul: real, fp: real, health: Value)
    requires fp >= t.criticalFailureProb
    ensures DetermineAlert(t, Num(rul), Num(fp), health) == Some(Decision("EMERGENCY", "EMERGENCY_SHUTDOWN", 1))
  {
  }

  /** A prediction whose fields are missing reads as RUL 0, probability 0: CRITICAL
      under any positive thresholds, and so under the defaults. */
  lemma EmptyPrediction(t: PmThresholds)
    requires t.criticalFailureProb > 0.0 && t.criticalRul > 0.0
    ensures var out := ApplyLogic(t, map[]);
      out.alertLevel == "CRITICAL" && out.action == "IMMEDIATE_MAINTENANCE" && out.priority == 1
      && out.rulHours == Num(0.0) && out.healthScore == Num(0.0) && out.failureProbability == Num(0.0)
  {
  }

  /** A raising ladder gives WARNING / INVESTIGATE / 3 with the inputs still echoed. */
  lemma Fallback(t: PmThresholds, prediction: Dict)
    requires !IsNumber(Get(prediction, "failure_probability", Num(0.0)))
    ensures var out := ApplyLogic(t, prediction);
      out.alertLevel == "WARNING" && out.action == "INVESTIGATE" && out.priority == 3
      && out.failureProbability == Get(prediction, "failure_probability", Num(0.0))
  {
  }
}
