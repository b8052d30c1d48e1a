// The hazard agent's state: the shared state manager plus the last alert level, the
// hazard types seen at warning level or above (each once), zone status, and a count
// of evacuations with the time of the last one.

module HazardAgentState {
  import opened PyValues
  import SM = StateManagement

  datatype HazardCustom = HazardCustom(lastAlertLevel: Value, activeHazards: seq<Value>, zoneStatus: Dict,
                                       evacuationCount: nat, lastEvacuationTime: Option<string>)

  const InitialCustom := HazardCustom(Str("NORMAL"), [], map[], 0, None)

  function AlertLevel(logicOutput: Dict): Value
  {
    Get(logicOutput, "alert_level", Str("NORMAL"))
  }

  /** `alert_level in ['WARNING', 'CRITICAL', 'EMERGENCY']` */
  predicate IsHazard(level: Value)
  {
    level == Str("WARNING") || level == Str("CRITICAL") || level == Str("EMERGENCY")
  }

  function HazardType(logicOutput: Dict): Value
  {
    Get(logicOutput, "hazard_type", Str("UNKNOWN"))
  }

  predicate Evacuates(logicOutput: Dict)
  {
    Truthy(Get(logicOutput, "evacuation_required", Bool(false)))
  }

  function Status(level: Value): string
  {
    if level == Str("EMERGENCY") then "emergency"
    else if level == Str("CRITICAL") then "critical"
    else if level == Str("WARNING") then "warning"
    else "active"
  }

  /** `if h not in hazards: hazards.append(h)` */
  function AddedOnce(hazards: seq<Value>, h: Value): seq<Value>
  {
    if h in hazards then hazards else hazards + [h]
  }

  /** The custom state after `update` at time `now`. */
  function Updated(c: HazardCustom, logicOutput: Dict, now: string): HazardCustom
  {
    var level := AlertLevel(logicOutput);
    var hazards := if IsHazard(level) then AddedOnce(c.activeHazards, HazardType(logicOutput)) else c.activeHazards;
    var evacuated := Evacuates(logicOutput);
    c.(lastAlertLevel := level, activeHazards := hazards,
       evacuationCount := if evacuated then c.evacuationCount + 1 else c.evacuationCount,
       lastEvacuationTime := if evacuated then Some(now) else c.lastEvacuationTime)
  }

  predicate NoDuplicates(hazards: seq<Value>)
  {
    forall i, j :: 0 <= i < j < |hazards| ==> hazards[i] != hazards[j]
  }

  class HazardState {
    const manager: SM.StateManager
    var lastAlertLevel: Value
    var activeHazards: seq<Value>
    var zoneStatus: Dict
    var evacuationCount: nat
    var lastEvacuationTime: Option<string>

    function Custom(): HazardCustom
      reads this
    {
      HazardCustom(lastAlertLevel, activeHazards, zoneStatus, evacuationCount, lastEvacuationTime)
    }

    /** The manager's history is bounded and no hazard type is listed twice. */
    predicate Valid()
      reads this, manager
    {
      manager.Valid() && NoDuplicates(activeHazards)
    }

    constructor (agentId: string, bufferSize: nat, checkpointInterval: int, now: int)
      ensures fresh(manager) && manager.bufferSize == bufferSize
      ensures manager.State() == SM.Initial(agentId, now) && Custom() == InitialCustom && Valid()
    {
      manager := new SM.StateManager(agentId, bufferSize, checkpointInterval, now);
      lastAlertLevel := Str("NORMAL");
      activeHazards := [];
      zoneStatus := map[];
      evacuationCount := 0;
      lastEvacuationTime := None;
    }

    /** `update`: the manager records the merged prediction; a warning, critical or
        emergency alert lists its hazard type if it is new; an evacuation is counted;
        the alert level sets the status. */
    method Update(prediction: Dict, logicOutput: Dict, success: bool, now: string)
      requires Valid()
      modifies this, manager
      ensures Custom() == Updated(old(Custom()), logicOutput, now) && Valid()
      ensures manager.State()
           == SM.Updated(old(manager.State()), Obj(SM.Combined(prediction, logicOutput, now)), success,
                         manager.bufferSize).(status := Status(AlertLevel(logicOutput)))
    {
      ghost var next := SM.Updated(manager.State(), Obj(SM.Combined(prediction, logicOutput, now)), success,
                                   manager.bufferSize);
      manager.Update(Obj(SM.Combined(prediction, logicOutput, now)), success);
      assert manager.State() == next;
      UpdateCustom(logicOutput, now);
      var level := lastAlertLevel;
      if level == Str("EMERGENCY") {
        manager.status := "emergency";
      } else if level == Str("CRITICAL") {
        manager.status := "critical";
      } else if level == Str("WARNING") {
        manager.status := "warning";
      } else {
        manager.status := "active";
      }
      assert manager.State() == next.(status := Status(AlertLevel(logicOutput)));
    }

    /** The hazard half of `update`. */
    method UpdateCustom(logicOutput: Dict, now: string)
      requires NoDuplicates(activeHazards)
      modifies this
      ensures Custom() == Updated(old(Custom()), logicOutput, now) && NoDuplicates(activeHazards)
    {
      var level := Get(logicOutput, "alert_level", Str("NORMAL"));
      lastAlertLevel := level;
      if level == Str("WARNING") || level == Str("CRITICAL") || level == Str("EMERGENCY") {
        var hazardType := Get(logicOutput, "hazard_type", Str("UNKNOWN"));
        if hazardType !in activeHazards {
          activeHazards := activeHazards + [hazardType];
        }
      }
      if Truthy(Get(logicOutput, "evacuation_required", Bool(false))) {
        evacuationCount := evacuationCount + 1;
        lastEvacuationTime := Some(now);
      }
    }

    /** `reset`: the manager's reset, then the initial hazard state. */
    method Reset(now: int)
      requires Valid()
      modifies this, manager
      ensures manager.State() == SM.Reset(old(manager.State()), now)
      ensures Custom() == InitialCustom && Valid()
    {
      manager.ResetState(now);
      lastAlertLevel := Str("NORMAL");
      activeHazards := [];
      zoneStatus := map[];
      evacuationCount := 0;
      lastEvacuationTime := None;
    }
  }

  // ---------------------------------------------------------------- properties

  /** At warning level or above the hazard type (UNKNOWN when absent) is listed
      afterwards, appended only if it was not there; below, the list is unchanged.
      Nothing is ever removed. */
  lemma HazardsTracked(c: HazardCustom, logicOutput: Dict, now: string)
    ensures var t := Updated(c, logicOutput, now);
      |c.activeHazards| <= |t.activeHazards| && t.activeHazards[..|c.activeHazards|] == c.activeHazards
      && (IsHazard(AlertLevel(logicOutput)) ==> HazardType(logicOutput) in t.activeHazards)
      && (IsHazard(AlertLevel(logicOutput)) && HazardType(logicOutput) !in c.activeHazards ==>
            t.activeHazards == c.activeHazards + [HazardType(logicOutput)])
      && (!IsHazard(AlertLevel(logicOutput)) || HazardType(logicOutput) in c.activeHazards ==>
            t.activeHazards == c.activeHazards)
      && ("hazard_type" !in logicOutput && IsHazard(AlertLevel(logicOutput)) ==> Str("UNKNOWN") in t.activeHazards)
  {
  }

  /** The list never holds a hazard type twice. */
  lemma UpdateKeepsNoDuplicates(c: HazardCustom, logicOutput: Dict, now: string)
    requires NoDuplicates(c.activeHazards)
    ensures NoDuplicates(Updated(c, logicOutput, now).activeHazards)
  {
  }

  /** Evacuations are counted, and stamped, exactly when the logic requires one; the
      level is remembered and zone status is untouched. */
  lemma EvacuationsCounted(c: HazardCustom, logicOutput: Dict, now: string)
    ensures var t := Updated(c, logicOutput, now);
      (t.evacuationCount == c.evacuationCount + 1 <==> Evacuates(logicOutput))
      && (!Evacuates(logicOutput) ==> t.evacuationCount == c.evacuationCount && t.lastEvacuationTime == c.lastEvacuationTime)
      && (Evacuates(logicOutput) ==> t.lastEvacuationTime == Some(now))
      && t.lastAlertLevel == AlertLevel(logicOutput) && t.zoneStatus == c.zoneStatus
  {
  }

  lemma StatusCases(level: Value)
    ensures Status(level) == "emergency" <==> level == Str("EMERGENCY")
    ensures Status(level) == "critical" <==> level == Str("CRITICAL")
    ensures Status(level) == "warning" <==> level == Str("WARNING")
    ensures Status(level) == "active" <==> !IsHazard(level)
  {
  }

  function UpdatedAll(c: HazardCustom, outputs: seq<Dict>, now: string): HazardCustom
  {
    if outputs == [] then c else Updated(UpdatedAll(c, outputs[..|outputs| - 1], now), outputs[|outputs| - 1], now)
  }

  /** Over any run of updates the list only grows, never repeats, and holds the hazard
      type of every warning-level alert in the run. */
  lemma {:induction false} HazardsAccumulate(c: HazardCustom, outputs: seq<Dict>, now: string)
    requires NoDuplicates(c.activeHazards)
    ensures var t := UpdatedAll(c, outputs, now);
      NoDuplicates(t.activeHazards) && |c.activeHazards| <= |t.activeHazards|
      && t.activeHazards[..|c.activeHazards|] == c.activeHazards
      && forall i :: 0 <= i < |outputs| && IsHazard(AlertLevel(outputs[i])) ==> HazardType(outputs[i]) in t.activeHazards
  {
    if outputs != [] {
      var n := |outputs| - 1;
      var mid := UpdatedAll(c, outputs[..n], now);
      HazardsAccumulate(c, outputs[..n], now);
      UpdateKeepsNoDuplicates(mid, outputs[n], now);
      HazardsTracked(mid, outputs[n], now);
      var t := UpdatedAll(c, outputs, now);
      assert t.activeHazards[..|c.activeHazards|] == mid.activeHazards[..|mid.activeHazards|][..|c.activeHazards|];
      forall i | 0 <= i < |outputs| && IsHazard(AlertLevel(outputs[i]))
        ensures HazardType(outputs[i]) in t.activeHazards
      {
        if i < n {
          assert outputs[..n][i] == outputs[i];
          assert HazardType(outputs[i]) in mid.activeHazards;
        }
      }
    }
  }
}
