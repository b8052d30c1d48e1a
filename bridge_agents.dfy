// Where the maintenance agent's published output meets the SCADA bridge: the agent
// publishes its prediction merged with its decision, and the bridge maps the
// decision's alert level onto Modbus register 2 through a table that only knows
// normal, warning and critical.

module AgentBridge {
  import opened PyValues
  import DT = DataTransformer
  import ML = MaintLogic

  /** The levels the maintenance ladder can choose, the fallback included. */
  lemma LadderLevels(t: ML.PmThresholds, prediction: Dict)
    ensures ML.ApplyLogic(t, prediction).alertLevel in {"EMERGENCY", "CRITICAL", "WARNING", "CAUTION", "NORMAL"}
  {
  }

  /** The lower-case forms the bridge looks up. */
  lemma LowerLevels()
    ensures Lower("EMERGENCY") == "emergency" && Lower("CRITICAL") == "critical"
    ensures Lower("WARNING") == "warning" && Lower("CAUTION") == "caution" && Lower("NORMAL") == "normal"
  {
  }

  /** Register 2 of a published maintenance document whose level is one the ladder
      chooses: CRITICAL gives 2 and WARNING 1, while EMERGENCY, the most urgent
      level, and CAUTION both read as 0, the same as NORMAL. */
  lemma LevelOnRegister(level: string, published: Dict)
    requires level in {"EMERGENCY", "CRITICAL", "WARNING", "CAUTION", "NORMAL"}
    requires "alert_level" in published && published["alert_level"] == Str(level)
    ensures var r2 := DT.ModbusFields("pm_agent", published)[2];
      (r2 == 2 <==> level == "CRITICAL") && (r2 == 1 <==> level == "WARNING")
      && (r2 == 0 <==> level in {"EMERGENCY", "CAUTION", "NORMAL"})
  {
    DT.AlertRegister(published);
    LowerLevels();
  }

  /** The same for the maintenance agent's own output: the ladder's level, merged
      into the published document, is what the bridge reads. */
  lemma PmLevelOnRegister(t: ML.PmThresholds, prediction: Dict, published: Dict)
    requires "alert_level" in published
    requires published["alert_level"] == Str(ML.ApplyLogic(t, prediction).alertLevel)
    ensures var level := ML.ApplyLogic(t, prediction).alertLevel;
      var r2 := DT.ModbusFields("pm_agent", published)[2];
      (r2 == 2 <==> level == "CRITICAL") && (r2 == 1 <==> level == "WARNING")
      && (r2 == 0 <==> level in {"EMERGENCY", "CAUTION", "NORMAL"})
  {
    LadderLevels(t, prediction);
    LevelOnRegister(ML.ApplyLogic(t, prediction).alertLevel, published);
  }
}
