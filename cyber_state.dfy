// The cyber agent's state: the shared state manager plus the last alert level, the
// list of blocked addresses and a count of threats with the time of the last one.

module CyberAgentState {
  import opened PyValues
  import SM = StateManagement

  datatype CyberCustom = CyberCustom(lastAlertLevel: Value, blockedIps: seq<Value>, threatCount: nat,
                                     lastThreatTime: Option<string>)

  const InitialCustom := CyberCustom(Str("NORMAL"), [], 0, None)

  /** `alert_level in ['WARNING', 'CRITICAL']` */
  predicate IsThreat(level: Value)
  {
    level == Str("WARNING") || level == Str("CRITICAL")
  }

  function Status(level: Value): string
  {
    if level == Str("CRITICAL") then "critical"
    else if level == Str("WARNING") then "warning"
    else "active"
  }

  function AlertLevel(logicOutput: Dict): Value
  {
    Get(logicOutput, "alert_level", Str("NORMAL"))
  }

  /** The custom state after `update` at time `now`. */
  function Updated(c: CyberCustom, logicOutput: Dict, now: string): CyberCustom
  {
    var level := AlertLevel(logicOutput);
    if IsThreat(level) then c.(lastAlertLevel := level, threatCount := c.threatCount + 1, lastThreatTime := Some(now))
    else c.(lastAlertLevel := level)
  }

  class CyberState {
    const manager: SM.StateManager
    var lastAlertLevel: Value
    var blockedIps: seq<Value>
    var threatCount: nat
    var lastThreatTime: Option<string>

    function Custom(): CyberCustom
      reads this
    {
      CyberCustom(lastAlertLevel, blockedIps, threatCount, lastThreatTime)
    }

    predicate Valid()
      reads this, manager
    {
      manager.Valid()
    }

    constructor (agentId: string, bufferSize: nat, checkpointInterval: int, now: int)
      ensures fresh(manager) && manager.bufferSize == bufferSize
      ensures manager.State() == SM.Initial(agentId, now) && Custom() == InitialCustom && Valid()
    {
      manager := new SM.StateManager(agentId, bufferSize, checkpointInterval, now);
      lastAlertLevel := Str("NORMAL");
      blockedIps := [];
      threatCount := 0;
      lastThreatTime := None;
    }

    /** `update`: the manager records the merged prediction; a warning or critical
        alert counts as a threat; the alert level sets the status. */
    method Update(prediction: Dict, logicOutput: Dict, success: bool, now: string)
      requires Valid()
      modifies this, manager
      ensures Custom() == Updated(old(Custom()), logicOutput, now) && Valid()
      ensures manager.State()
           == SM.Updated(old(manager.State()), Obj(SM.Combined(prediction, logicOutput, now)), success,
                         manager.bufferSize).(status := Status(AlertLevel(logicOutput)))
    {
      manager.Update(Obj(SM.Combined(prediction, logicOutput, now)), success);
      var level := Get(logicOutput, "alert_level", Str("NORMAL"));
      lastAlertLevel := level;
      if level == Str("WARNING") || level == Str("CRITICAL") {
        threatCount := threatCount + 1;
        lastThreatTime := Some(now);
      }
      if level == Str("CRITICAL") {
        manager.status := "critical";
      } else if level == Str("WARNING") {
        manager.status := "warning";
      } else {
        manager.status := "active";
      }
    }

    /** `reset`: the manager's reset, then the initial cyber state. */
    method Reset(now: int)
      requires Valid()
      modifies this, manager
      ensures manager.State() == SM.Reset(old(manager.State()), now)
      ensures Custom() == InitialCustom && Valid()
    {
      manager.ResetState(now);
      lastAlertLevel := Str("NORMAL");
      blockedIps := [];
      threatCount := 0;
      lastThreatTime := None;
    }
  }

  // ---------------------------------------------------------------- properties

  /** The threat count grows by one, and the threat time is stamped, exactly for a
      WARNING or CRITICAL alert; the level is remembered; the blocked list is never
      touched. */
  lemma UpdateEffects(c: CyberCustom, logicOutput: Dict, now: string)
    ensures var t := Updated(c, logicOutput, now);
      (t.threatCount == c.threatCount + 1 <==> IsThreat(AlertLevel(logicOutput)))
      && (!IsThreat(AlertLevel(logicOutput)) ==> t.threatCount == c.threatCount && t.lastThreatTime == c.lastThreatTime)
      && (IsThreat(AlertLevel(logicOutput)) ==> t.lastThreatTime == Some(now))
      && t.lastAlertLevel == AlertLevel(logicOutput)
      && t.blockedIps == c.blockedIps
  {
  }

  /** Without an alert level the logic is taken as NORMAL: no threat, status active. */
  lemma MissingLevel(c: CyberCustom, logicOutput: Dict, now: string)
    requires "alert_level" !in logicOutput
    ensures Updated(c, logicOutput, now) == c.(lastAlertLevel := Str("NORMAL"))
    ensures Status(AlertLevel(logicOutput)) == "active"
  {
  }

  /** The status names the alert level for CRITICAL and WARNING; any other level,
      including CAUTION, is "active". */
  lemma StatusCases(level: Value)
    ensures Status(level) == "critical" <==> level == Str("CRITICAL")
    ensures Status(level) == "warning" <==> level == Str("WARNING")
    ensures Status(level) == "active" <==> !IsThreat(level)
    ensures Status(Str("CAUTION")) == "active"
  {
  }

  function UpdatedAll(c: CyberCustom, outputs: seq<Dict>, now: string): CyberCustom
  {
    if outputs == [] then c else Updated(UpdatedAll(c, outputs[..|outputs| - 1], now), outputs[|outputs| - 1], now)
  }

  function Threats(outputs: seq<Dict>): nat
  {
    if outputs == [] then 0
    else Threats(outputs[..|outputs| - 1]) + (if IsThreat(AlertLevel(outputs[|outputs| - 1])) then 1 else 0)
  }

  /** Over any run of updates, the threat count grows by the number of warning or
      critical alerts among them and the blocked list stays as it was. */
  lemma {:induction false} ThreatCountIsThreats(c: CyberCustom, outputs: seq<Dict>, now: string)
    ensures UpdatedAll(c, outputs, now).threatCount == c.threatCount + Threats(outputs)
    ensures UpdatedAll(c, outputs, now).blockedIps == c.blockedIps
  {
    if outputs != [] {
      ThreatCountIsThreats(c, outputs[..|outputs| - 1], now);
      UpdateEffects(UpdatedAll(c, outputs[..|outputs| - 1], now), outputs[|outputs| - 1], now);
    }
  }
}
