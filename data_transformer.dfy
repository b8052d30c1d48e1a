// The SCADA bridge's translation of an agent prediction (a JSON object received over
// MQTT) into OPC UA node values, Modbus holding-register values and DNP3 points.

module DataTransformer {
  import opened PyValues

  /** The result of a Python call that either returns or raises. */
  datatype Outcome<T> = Ok(value: T) | Raised

  // Label tables. A label is lower-cased before the lookup; absent labels give 0.
  const AlertLevelTable: map<string, int> :=
    map["normal" := 0, "warning" := 1, "critical" := 2, "unknown" := 0]
  const ThreatLevelTable: map<string, int> :=
    map["low" := 0, "medium" := 1, "high" := 2, "critical" := 3, "unknown" := 0]
  const RiskLevelTable: map<string, int> :=
    map["low" := 0, "medium" := 1, "high" := 2, "unknown" := 0]

  /** `TABLE.get(label, 0)` */
  function LevelCode(table: map<string, int>, name: string): int
  {
    if name in table then table[name] else 0
  }

  const KnownAgents: set<string> :=
    {"pm_agent", "energy_agent", "cyber_agent", "hazard_agent", "ppe_agent"}

  /** `safe_get(data, key, default, data_type)`: a missing key or a None value gives the
      default, and so does a conversion that raises ValueError or TypeError; otherwise the
      converted value. (Converting a default that already has the target type is the
      identity, so a missing key yields the default itself.) */
  function SafeGet<T>(data: Dict, key: string, default: T, convert: Value -> Option<T>): (r: T)
    ensures key !in data || data[key] == Null ==> r == default
    ensures key in data && data[key] != Null && convert(data[key]).None? ==> r == default
    ensures key in data && data[key] != Null && convert(data[key]).Some? ==> r == convert(data[key]).value
  {
    var v := Get(data, key, Null);
    if v == Null then default
    else match convert(v)
      case None => default
      case Some(x) => x
  }

  function GetFloat(p: Dict, key: string, default: real): real { SafeGet(p, key, default, PyFloat) }
  function GetInt(p: Dict, key: string, default: int): int { SafeGet(p, key, default, PyInt) }
  function GetBool(p: Dict, key: string, default: bool): bool { SafeGet(p, key, default, PyBool) }
  function GetStr(p: Dict, key: string, default: string): string { SafeGet(p, key, default, PyStrConv) }

  /** A received MQTT payload after UTF-8 decoding, as `json.loads` sees it. */
  datatype Payload = Malformed | Parsed(doc: Value)

  /** `parse_mqtt_prediction`: malformed JSON gives None instead of raising. The JSON
      document `null` parses to Python's None and is therefore indistinguishable from a
      parse failure. */
  function ParseMqttPrediction(payload: Payload): (r: Option<Value>)
    ensures r.None? <==> payload.Malformed? || payload == Parsed(Null)
    ensures r.Some? ==> payload == Parsed(r.value) && r.value != Null
  {
    match payload
    case Malformed => None
    case Parsed(v) => if v == Null then None else Some(v)
  }

  /** `prediction_data.get("prediction", {})`: raises AttributeError when the payload
      is not a JSON object. */
  function PredictionOf(data: Value): Outcome<Value>
  {
    if data.Obj? then Ok(Get(data.fields, "prediction", Obj(map[]))) else Raised
  }

  // ---------------------------------------------------------------- OPC UA

  datatype NodeValue = FloatV(r: real) | IntV(i: int) | BoolV(b: bool) | TextV(s: string)

  /** The OPC UA variant type a node value is written with (Float, Int32, Boolean, String). */
  datatype Kind = FloatKind | IntKind | BoolKind | TextKind

  function KindOf(v: NodeValue): Kind
  {
    match v
    case FloatV(_) => FloatKind
    case IntV(_) => IntKind
    case BoolV(_) => BoolKind
    case TextV(_) => TextKind
  }

  /** The node names `to_opcua` writes and the OPC UA server creates; `NameText` is the
      name as the code spells it. */
  datatype NodeName =
    | OverallHealth | ActiveAgents | TotalAlerts
    | RemainingUsefulLife | HealthScore | AlertLevel | FailureProbability | RecommendedAction
    | ThresholdCritical | ThresholdWarning
    | ConsumptionKWh | EfficiencyScore | PredictedConsumption | IsAnomaly | AnomalyScore
    | ThreatLevel | ActiveThreats | NetworkHealth
    | RiskLevel | HazardCount | SafetyScore | ActiveWarnings
    | ComplianceRate | ViolationsCount | WorkersMonitored | HelmetCompliance | VestCompliance

  /** The system-status and threshold nodes, which no agent's translation writes. */
  predicate StatusOrThreshold(n: NodeName)
  {
    n.OverallHealth? || n.ActiveAgents? || n.TotalAlerts? || n.ThresholdCritical? || n.ThresholdWarning?
  }

  function NameText(n: NodeName): string
  {
    match n
    case OverallHealth => "OverallHealth"
    case ActiveAgents => "ActiveAgents"
    case TotalAlerts => "TotalAlerts"
    case RemainingUsefulLife => "RemainingUsefulLife"
    case HealthScore => "HealthScore"
    case AlertLevel => "AlertLevel"
    case FailureProbability => "FailureProbability"
    case RecommendedAction => "RecommendedAction"
    case ThresholdCritical => "ThresholdCritical"
    case ThresholdWarning => "ThresholdWarning"
    case ConsumptionKWh => "ConsumptionKWh"
    case EfficiencyScore => "EfficiencyScore"
    case PredictedConsumption => "PredictedConsumption"
    case IsAnomaly => "IsAnomaly"
    case AnomalyScore => "AnomalyScore"
    case ThreatLevel => "ThreatLevel"
    case ActiveThreats => "ActiveThreats"
    case NetworkHealth => "NetworkHealth"
    case RiskLevel => "RiskLevel"
    case HazardCount => "HazardCount"
    case SafetyScore => "SafetyScore"
    case ActiveWarnings => "ActiveWarnings"
    case ComplianceRate => "ComplianceRate"
    case ViolationsCount => "ViolationsCount"
    case WorkersMonitored => "WorkersMonitored"
    case HelmetCompliance => "HelmetCompliance"
    case VestCompliance => "VestCompliance"
  }

  function OpcuaFields(agent: string, p: Dict): map<NodeName, NodeValue>
  {
    if agent == "pm_agent" then
      map[RemainingUsefulLife := FloatV(GetFloat(p, "rul_hours", 0.0)),
          HealthScore := FloatV(GetFloat(p, "health_score", 0.0)),
          AlertLevel := TextV(GetStr(p, "alert_level", "normal")),
          FailureProbability := FloatV(GetFloat(p, "failure_probability", 0.0)),
          RecommendedAction := TextV(GetStr(p, "recommended_action", "No action required"))]
    else if agent == "energy_agent" then
      map[ConsumptionKWh := FloatV(GetFloat(p, "consumption_kwh", 0.0)),
          EfficiencyScore := FloatV(GetFloat(p, "efficiency_score", 0.0)),
          PredictedConsumption := FloatV(GetFloat(p, "predicted_consumption", 0.0)),
          IsAnomaly := BoolV(GetBool(p, "is_anomaly", false)),
          AnomalyScore := FloatV(GetFloat(p, "anomaly_score", 0.0))]
    else if agent == "cyber_agent" then
      map[ThreatLevel := TextV(GetStr(p, "threat_level", "low")),
          AnomalyScore := FloatV(GetFloat(p, "anomaly_score", 0.0)),
          ActiveThreats := IntV(GetInt(p, "active_threats", 0)),
          NetworkHealth := FloatV(GetFloat(p, "network_health", 100.0))]
    else if agent == "hazard_agent" then
      map[RiskLevel := TextV(GetStr(p, "risk_level", "low")),
          HazardCount := IntV(GetInt(p, "hazard_count", 0)),
          SafetyScore := FloatV(GetFloat(p, "safety_score", 100.0)),
          ActiveWarnings := IntV(GetInt(p, "active_warnings", 0))]
    else if agent == "ppe_agent" then
      map[ComplianceRate := FloatV(GetFloat(p, "compliance_rate", 100.0)),
          ViolationsCount := IntV(GetInt(p, "violations_count", 0)),
          WorkersMonitored := IntV(GetInt(p, "workers_monitored", 0)),
          HelmetCompliance := FloatV(GetFloat(p, "helmet_compliance", 100.0)),
          VestCompliance := FloatV(GetFloat(p, "vest_compliance", 100.0))]
    else map[]
  }

  /** `to_opcua`: node name (without folder prefix) to the value to write. It raises
      only when the payload or, for a known agent, its prediction is not a JSON object,
      and it never writes a system-status or threshold node. */
  function ToOpcua(agent: string, data: Value): (r: Outcome<map<NodeName, NodeValue>>)
    ensures r.Raised? <==> !data.Obj? || (agent in KnownAgents && !PredictionOf(data).value.Obj?)
    ensures r.Ok? ==> forall n :: n in r.value ==>
      !StatusOrThreshold(n)
  {
    match PredictionOf(data)
    case Raised => Raised
    case Ok(pred) =>
      if agent !in KnownAgents then Ok(map[])
      else if !pred.Obj? then Raised
      else
        OpcuaFieldNames(agent, pred.fields);
        Ok(OpcuaFields(agent, pred.fields))
  }

  /** Each agent's translation writes exactly its own nodes, none of them a status or
      threshold node. */
  lemma OpcuaFieldNames(agent: string, p: Dict)
    ensures OpcuaFields(agent, p).Keys == OpcuaNames(agent)
    ensures forall n :: n in OpcuaNames(agent) ==>
      !StatusOrThreshold(n)
  {
    AgentNamesOnly(agent);
  }

  /** No agent's node set holds a status or threshold node. */
  lemma AgentNamesOnly(agent: string)
    ensures forall n :: n in OpcuaNames(agent) ==> !StatusOrThreshold(n)
  {
    if agent == "pm_agent" {
    } else if agent == "energy_agent" {
    } else if agent == "cyber_agent" {
    } else if agent == "hazard_agent" {
    } else if agent == "ppe_agent" {
    }
  }

  /** The node names each agent's translation writes. */
  function OpcuaNames(agent: string): set<NodeName>
  {
    if agent == "pm_agent" then
      {RemainingUsefulLife, HealthScore, AlertLevel, FailureProbability, RecommendedAction}
    else if agent == "energy_agent" then
      {ConsumptionKWh, EfficiencyScore, PredictedConsumption, IsAnomaly, AnomalyScore}
    else if agent == "cyber_agent" then
      {ThreatLevel, AnomalyScore, ActiveThreats, NetworkHealth}
    else if agent == "hazard_agent" then
      {RiskLevel, HazardCount, SafetyScore, ActiveWarnings}
    else if agent == "ppe_agent" then
      {ComplianceRate, ViolationsCount, WorkersMonitored, HelmetCompliance, VestCompliance}
    else {}
  }

  /** What each agent's node values are when the prediction carries no fields at all. */
  function OpcuaDefaults(agent: string): map<NodeName, NodeValue>
  {
    if agent == "pm_agent" then
      map[RemainingUsefulLife := FloatV(0.0), HealthScore := FloatV(0.0),
          AlertLevel := TextV("normal"), FailureProbability := FloatV(0.0),
          RecommendedAction := TextV("No action required")]
    else if agent == "energy_agent" then
      map[ConsumptionKWh := FloatV(0.0), EfficiencyScore := FloatV(0.0),
          PredictedConsumption := FloatV(0.0), IsAnomaly := BoolV(false),
          AnomalyScore := FloatV(0.0)]
    else if agent == "cyber_agent" then
      map[ThreatLevel := TextV("low"), AnomalyScore := FloatV(0.0),
          ActiveThreats := IntV(0), NetworkHealth := FloatV(100.0)]
    else if agent == "hazard_agent" then
      map[RiskLevel := TextV("low"), HazardCount := IntV(0),
          SafetyScore := FloatV(100.0), ActiveWarnings := IntV(0)]
    else if agent == "ppe_agent" then
      map[ComplianceRate := FloatV(100.0), ViolationsCount := IntV(0),
          WorkersMonitored := IntV(0), HelmetCompliance := FloatV(100.0),
          VestCompliance := FloatV(100.0)]
    else map[]
  }

  /** A translation that succeeds writes exactly the agent's node names; an unknown
      agent gets no values, whatever the payload's prediction holds. */
  lemma OpcuaWritesAgentNames(agent: string, data: Value)
    ensures ToOpcua(agent, data).Ok? ==> ToOpcua(agent, data).value.Keys == OpcuaNames(agent)
    ensures data.Obj? && agent !in KnownAgents ==> ToOpcua(agent, data) == Ok(map[])
  {
  }

  /** A payload without "prediction" (or with an empty one) yields every default. */
  lemma {:induction false} OpcuaEmptyPrediction(agent: string, data: Dict)
    requires "prediction" !in data || data["prediction"] == Obj(map[])
    ensures ToOpcua(agent, Obj(data)) == Ok(OpcuaDefaults(agent))
  {
  }

  /** Whatever the prediction holds, each translated value has the variant type of the
      agent's default for that node: the converters fall back to the default, never to
      a value of another type. */
  lemma OpcuaKinds(agent: string, data: Value)
    ensures ToOpcua(agent, data).Ok? ==>
      var values := ToOpcua(agent, data).value;
      forall name :: name in values ==>
        name in OpcuaDefaults(agent) && KindOf(values[name]) == KindOf(OpcuaDefaults(agent)[name])
  {
    if ToOpcua(agent, data).Ok? && agent in KnownAgents {
      var p := PredictionOf(data).value.fields;
      if agent == "pm_agent" {
        assert ToOpcua(agent, data).value == OpcuaFields(agent, p);
      } else if agent == "energy_agent" {
        assert ToOpcua(agent, data).value == OpcuaFields(agent, p);
      } else if agent == "cyber_agent" {
        assert ToOpcua(agent, data).value == OpcuaFields(agent, p);
      } else if agent == "hazard_agent" {
        assert ToOpcua(agent, data).value == OpcuaFields(agent, p);
      } else {
        assert ToOpcua(agent, data).value == OpcuaFields(agent, p);
      }
    }
  }

  // ---------------------------------------------------------------- Modbus

  /** The value `to_modbus` writes at `address` of the agent's block. */
  function Register(agent: string, address: int, p: Dict): int
  {
    if agent == "pm_agent" then
      if address == 0 then Trunc(GetFloat(p, "rul_hours", 0.0))
      else if address == 1 then Trunc(GetFloat(p, "health_score", 0.0))
      else if address == 2 then LevelCode(AlertLevelTable, Lower(GetStr(p, "alert_level", "normal")))
      else Trunc(GetFloat(p, "failure_probability", 0.0) * 100.0)
    else if agent == "energy_agent" then
      if address == 100 then Trunc(GetFloat(p, "consumption_kwh", 0.0) * 10.0)
      else if address == 101 then Trunc(GetFloat(p, "efficiency_score", 0.0))
      else if address == 102 then Trunc(GetFloat(p, "predicted_consumption", 0.0) * 10.0)
      else if address == 103 then (if GetBool(p, "is_anomaly", false) then 1 else 0)
      else Trunc(GetFloat(p, "anomaly_score", 0.0))
    else if agent == "cyber_agent" then
      if address == 200 then LevelCode(ThreatLevelTable, Lower(GetStr(p, "threat_level", "low")))
      else if address == 201 then Trunc(GetFloat(p, "anomaly_score", 0.0))
      else if address == 202 then GetInt(p, "active_threats", 0)
      else Trunc(GetFloat(p, "network_health", 100.0))
    else if agent == "hazard_agent" then
      if address == 300 then LevelCode(RiskLevelTable, Lower(GetStr(p, "risk_level", "low")))
      else if address == 301 then GetInt(p, "hazard_count", 0)
      else if address == 302 then Trunc(GetFloat(p, "safety_score", 100.0))
      else GetInt(p, "active_warnings", 0)
    else
      if address == 400 then Trunc(GetFloat(p, "compliance_rate", 100.0))
      else if address == 401 then GetInt(p, "violations_count", 0)
      else if address == 402 then GetInt(p, "workers_monitored", 0)
      else if address == 403 then Trunc(GetFloat(p, "helmet_compliance", 100.0))
      else Trunc(GetFloat(p, "vest_compliance", 100.0))
  }

  /** The registers of the agent's block, each with its value. */
  function ModbusFields(agent: string, p: Dict): map<int, int>
  {
    map a | a in ModbusAddresses(agent) :: Register(agent, a, p)
  }

  /** `to_modbus`: register address to the (not yet clamped) integer value. It raises
      exactly when `to_opcua` does, and never writes the system-status block from 500
      on. */
  function ToModbus(agent: string, data: Value): (r: Outcome<map<int, int>>)
    ensures r.Raised? <==> !data.Obj? || (agent in KnownAgents && !PredictionOf(data).value.Obj?)
    ensures r.Ok? ==> forall a :: a in r.value ==> 0 <= a < 500
  {
    match PredictionOf(data)
    case Raised => Raised
    case Ok(pred) =>
      if agent !in KnownAgents then Ok(map[])
      else if !pred.Obj? then Raised
      else
        ModbusFieldAddresses(agent, pred.fields);
        Ok(ModbusFields(agent, pred.fields))
  }

  /** The translation writes exactly the agent's block. */
  lemma ModbusFieldAddresses(agent: string, p: Dict)
    ensures ModbusFields(agent, p).Keys == ModbusAddresses(agent)
    ensures forall a :: a in ModbusAddresses(agent) ==> 0 <= a < 500
  {
    AddressesBelowStatus(agent);
  }

  /** Every agent's block lies below the system-status registers at 500. */
  lemma AddressesBelowStatus(agent: string)
    ensures forall a :: a in ModbusAddresses(agent) ==> 0 <= a < 500
  {
    if agent == "pm_agent" {
    } else if agent == "energy_agent" {
    } else if agent == "cyber_agent" {
    } else if agent == "hazard_agent" {
    } else if agent == "ppe_agent" {
    }
  }

  /** Each agent's register block. */
  function ModbusAddresses(agent: string): set<int>
  {
    if agent == "pm_agent" then {0, 1, 2, 3}
    else if agent == "energy_agent" then {100, 101, 102, 103, 104}
    else if agent == "cyber_agent" then {200, 201, 202, 203}
    else if agent == "hazard_agent" then {300, 301, 302, 303}
    else if agent == "ppe_agent" then {400, 401, 402, 403, 404}
    else {}
  }

  /** A successful translation yields exactly the agent's fixed addresses (none for an
      unknown agent), and all of them lie below the system-status block at 500. */
  lemma ModbusWritesAgentBlock(agent: string, data: Value)
    ensures ToModbus(agent, data).Ok? ==> ToModbus(agent, data).value.Keys == ModbusAddresses(agent)
    ensures forall a :: a in ModbusAddresses(agent) ==> 0 <= a < 500
  {
    if agent == "pm_agent" {
    } else if agent == "energy_agent" {
    } else if agent == "cyber_agent" {
    } else if agent == "hazard_agent" {
    } else if agent == "ppe_agent" {
    }
  }

  /** How the float fields are scaled: failure probability by 100, consumption figures
      by 10, everything truncated toward zero; register 103 is 1 iff is_anomaly is
      present and truthy. */
  lemma ModbusScaling(p: Dict)
    ensures var m := ModbusFields("pm_agent", p);
      m[3] == Trunc(GetFloat(p, "failure_probability", 0.0) * 100.0)
      && m[0] == Trunc(GetFloat(p, "rul_hours", 0.0))
    ensures var m := ModbusFields("energy_agent", p);
      m[100] == Trunc(GetFloat(p, "consumption_kwh", 0.0) * 10.0)
      && m[102] == Trunc(GetFloat(p, "predicted_consumption", 0.0) * 10.0)
      && (m[103] == 1 <==> "is_anomaly" in p && Truthy(p["is_anomaly"]))
      && (m[103] == 0 || m[103] == 1)
  {
  }

  /** A number sent as failure probability lands in register 3 as its percentage,
      truncated toward zero. */
  lemma FailurePercent(p: Dict, x: real)
    requires "failure_probability" in p && p["failure_probability"] == Num(x)
    ensures var r3 := ModbusFields("pm_agent", p)[3];
      r3 as real <= x * 100.0 < r3 as real + 1.0 || r3 as real - 1.0 < x * 100.0 <= r3 as real
  {
  }

  /** What each agent's registers hold when the prediction carries no fields: 100 for
      the network health, the safety score and the three PPE rates, 0 elsewhere. */
  function ModbusDefaults(agent: string): map<int, int>
  {
    map a | a in ModbusAddresses(agent) :: if a in {203, 302, 400, 403, 404} then 100 else 0
  }

  lemma LowerOfLowerWord(s: string)
    requires LowerWord(s)
    ensures Lower(s) == s
  {
  }

  lemma {:induction false} ModbusEmptyPrediction(agent: string, data: Dict)
    requires "prediction" !in data || data["prediction"] == Obj(map[])
    ensures ToModbus(agent, Obj(data)) == Ok(ModbusDefaults(agent))
  {
    assert PredictionOf(Obj(data)) == Ok(Obj(map[]));
    if agent in KnownAgents {
      ModbusFieldsOfNothing(agent);
    }
  }

  lemma ModbusFieldsOfNothing(agent: string)
    requires agent in KnownAgents
    ensures ModbusFields(agent, map[]) == ModbusDefaults(agent)
  {
    forall a | a in ModbusAddresses(agent)
      ensures Register(agent, a, map[]) == ModbusDefaults(agent)[a]
    {
      RegisterOfNothing(agent, a);
    }
  }

  /** Each register of an empty prediction holds its default. */
  lemma RegisterOfNothing(agent: string, a: int)
    requires agent in KnownAgents && a in ModbusAddresses(agent)
    ensures Register(agent, a, map[]) == if a in {203, 302, 400, 403, 404} then 100 else 0
  {
    if agent == "pm_agent" {
      PmRegisterOfNothing(a);
    } else if agent == "energy_agent" {
      EnergyRegisterOfNothing(a);
    } else if agent == "cyber_agent" {
      CyberRegisterOfNothing(a);
    } else if agent == "hazard_agent" {
      HazardRegisterOfNothing(a);
    } else {
      PpeRegisterOfNothing(a);
    }
  }

  lemma PmRegisterOfNothing(a: int)
    requires a in {0, 1, 2, 3}
    ensures Register("pm_agent", a, map[]) == 0
  {
    LowerOfLowerWord("normal");
  }

  lemma EnergyRegisterOfNothing(a: int)
    requires a in {100, 101, 102, 103, 104}
    ensures Register("energy_agent", a, map[]) == 0
  {
  }

  lemma CyberRegisterOfNothing(a: int)
    requires a in {200, 201, 202, 203}
    ensures Register("cyber_agent", a, map[]) == if a == 203 then 100 else 0
  {
    LowerOfLowerWord("low");
  }

  lemma HazardRegisterOfNothing(a: int)
    requires a in {300, 301, 302, 303}
    ensures Register("hazard_agent", a, map[]) == if a == 302 then 100 else 0
  {
    LowerOfLowerWord("low");
  }

  lemma PpeRegisterOfNothing(a: int)
    requires a in {400, 401, 402, 403, 404}
    ensures Register("ppe_agent", a, map[]) == if a == 401 || a == 402 then 0 else 100
  {
  }

  /** The words every label table knows. */
  lemma TableKeysAreWords()
    ensures forall k :: k in AlertLevelTable ==> LowerWord(k) && k != "true" && k != "false" && k != "none"
    ensures forall k :: k in ThreatLevelTable ==> LowerWord(k) && k != "true" && k != "false" && k != "none"
    ensures forall k :: k in RiskLevelTable ==> LowerWord(k) && k != "true" && k != "false" && k != "none"
  {
  }

  /** A label field yields a non-zero code only when it is a string whose lower-case
      form is a non-zero table entry; booleans, numbers and containers always give 0. */
  lemma {:induction false} LabelCodeNonZero(table: map<string, int>, p: Dict, key: string, default: string)
    requires table == AlertLevelTable || table == ThreatLevelTable || table == RiskLevelTable
    requires LevelCode(table, Lower(default)) == 0
    ensures LevelCode(table, Lower(GetStr(p, key, default))) != 0 <==>
      key in p && p[key].Str? && Lower(p[key].s) in table && table[Lower(p[key].s)] != 0
  {
    TableKeysAreWords();
    if key in p && p[key] != Null && !p[key].Str? {
      StrOfNonStringIsNoWord(p[key]);
    }
  }

  /** Register 2 (PM alert level) is non-zero only for "warning" or "critical" in any
      letter case. */
  lemma AlertRegister(p: Dict)
    ensures var r2 := ModbusFields("pm_agent", p)[2];
      (r2 == 1 <==> "alert_level" in p && p["alert_level"].Str? && Lower(p["alert_level"].s) == "warning")
      && (r2 == 2 <==> "alert_level" in p && p["alert_level"].Str? && Lower(p["alert_level"].s) == "critical")
      && (r2 == 0 || r2 == 1 || r2 == 2)
  {
    LowerOfLowerWord("normal");
    LabelCodeNonZero(AlertLevelTable, p, "alert_level", "normal");
  }

  // ---------------------------------------------------------------- DNP3

  datatype Dnp3Points = Dnp3Points(analog: map<int, real>, binary: map<int, bool>)

  function Dnp3Fields(agent: string, p: Dict): Dnp3Points
  {
    if agent == "pm_agent" then
      Dnp3Points(map[0 := GetFloat(p, "rul_hours", 0.0), 1 := GetFloat(p, "health_score", 0.0)],
                 map[0 := Lower(GetStr(p, "alert_level", "normal")) == "critical"])
    else if agent == "energy_agent" then
      Dnp3Points(map[2 := GetFloat(p, "consumption_kwh", 0.0), 3 := GetFloat(p, "efficiency_score", 0.0)],
                 map[])
    else if agent == "cyber_agent" then
      Dnp3Points(map[4 := GetFloat(p, "anomaly_score", 0.0)],
                 map[1 := GetInt(p, "active_threats", 0) > 0])
    else if agent == "hazard_agent" then
      Dnp3Points(map[5 := GetFloat(p, "safety_score", 100.0)],
                 map[2 := GetInt(p, "hazard_count", 0) > 0])
    else if agent == "ppe_agent" then
      Dnp3Points(map[6 := GetFloat(p, "compliance_rate", 100.0)],
                 map[3 := GetInt(p, "violations_count", 0) > 0])
    else Dnp3Points(map[], map[])
  }

  /** `to_dnp3`: the analog and binary point maps (both always present). It raises
      exactly when `to_opcua` does; analog points are numbered 0 to 6 and binary points
      0 to 3, and an unknown agent gets none. */
  function ToDnp3(agent: string, data: Value): (r: Outcome<Dnp3Points>)
    ensures r.Raised? <==> !data.Obj? || (agent in KnownAgents && !PredictionOf(data).value.Obj?)
    ensures r.Ok? ==> (forall i :: i in r.value.analog ==> 0 <= i <= 6) && (forall i :: i in r.value.binary ==> 0 <= i <= 3)
    ensures r.Ok? && agent !in KnownAgents ==> r.value == Dnp3Points(map[], map[])
  {
    match PredictionOf(data)
    case Raised => Raised
    case Ok(pred) =>
      if agent !in KnownAgents then Ok(Dnp3Points(map[], map[]))
      else if !pred.Obj? then Raised
      else Ok(Dnp3Fields(agent, pred.fields))
  }

  /** The binary points: PM critical flag, and "count > 0" for threats, hazards and
      PPE violations; each agent fills only its own point. */
  lemma Dnp3Binary(p: Dict)
    ensures var b := Dnp3Fields("pm_agent", p).binary;
      b.Keys == {0} &&
      (b[0] <==> "alert_level" in p && p["alert_level"].Str? && Lower(p["alert_level"].s) == "critical")
    ensures Dnp3Fields("cyber_agent", p).binary == map[1 := GetInt(p, "active_threats", 0) > 0]
    ensures Dnp3Fields("hazard_agent", p).binary == map[2 := GetInt(p, "hazard_count", 0) > 0]
    ensures Dnp3Fields("ppe_agent", p).binary == map[3 := GetInt(p, "violations_count", 0) > 0]
    ensures Dnp3Fields("energy_agent", p).binary == map[]
  {
    LowerOfLowerWord("normal");
    LabelCodeNonZero(AlertLevelTable, p, "alert_level", "normal");
  }

  /** With no prediction fields, no binary point is raised and the scores take their
      defaults. */
  lemma {:induction false} Dnp3EmptyPrediction(agent: string, data: Dict)
    requires agent in KnownAgents
    requires "prediction" !in data || data["prediction"] == Obj(map[])
    ensures ToDnp3(agent, Obj(data)).Ok?
    ensures forall k :: k in ToDnp3(agent, Obj(data)).value.binary ==> !ToDnp3(agent, Obj(data)).value.binary[k]
  {
    LowerOfLowerWord("normal");
  }
}
