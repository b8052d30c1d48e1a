// The SCADA bridge's OPC UA address space, reduced to its node table: each variable
// node lives in one of six folders and holds a typed value and a writable flag. Agent
// predictions are translated and written into the agent's folder, after which the
// system-status nodes are recomputed.

module OpcuaServer {
  import opened PyValues
  import DT = DataTransformer

  /** The six folders of the address space. */
  datatype Folder = SystemStatus | PM | Energy | Cyber | Safety | PPE

  function FolderName(f: Folder): string
  {
    match f
    case SystemStatus => "SystemStatus"
    case PM => "PM"
    case Energy => "Energy"
    case Cyber => "Cyber"
    case Safety => "Safety"
    case PPE => "PPE"
  }

  /** A key of the node table. The code keys each node by the string "Folder.Name"
      (`KeyText`); the model keeps the two parts apart, which loses nothing because
      no folder name holds a '.' (see `FolderPrefix`). */
  datatype NodeKey = NodeKey(folder: Folder, name: DT.NodeName)

  function KeyText(k: NodeKey): string
  {
    FolderName(k.folder) + "." + DT.NameText(k.name)
  }

  datatype Node = Node(value: DT.NodeValue, writable: bool)

  /** A freshly added variable: asyncua creates it read-only. */
  function Variable(v: DT.NodeValue): Node { Node(v, false) }

  function SystemStatusNodes(): map<NodeKey, Node>
  {
    map[NodeKey(SystemStatus, DT.OverallHealth) := Variable(DT.FloatV(100.0)),
        NodeKey(SystemStatus, DT.ActiveAgents) := Variable(DT.IntV(0)),
        NodeKey(SystemStatus, DT.TotalAlerts) := Variable(DT.IntV(0))]
  }

  function PmNodes(): map<NodeKey, Node>
  {
    map[NodeKey(PM, DT.RemainingUsefulLife) := Variable(DT.FloatV(0.0)),
        NodeKey(PM, DT.HealthScore) := Variable(DT.FloatV(0.0)),
        NodeKey(PM, DT.AlertLevel) := Variable(DT.TextV("normal")),
        NodeKey(PM, DT.FailureProbability) := Variable(DT.FloatV(0.0)),
        NodeKey(PM, DT.RecommendedAction) := Variable(DT.TextV("No action required")),
        NodeKey(PM, DT.ThresholdCritical) := Variable(DT.FloatV(20.0)),
        NodeKey(PM, DT.ThresholdWarning) := Variable(DT.FloatV(50.0))]
  }

  function EnergyNodes(): map<NodeKey, Node>
  {
    map[NodeKey(Energy, DT.ConsumptionKWh) := Variable(DT.FloatV(0.0)),
        NodeKey(Energy, DT.EfficiencyScore) := Variable(DT.FloatV(0.0)),
        NodeKey(Energy, DT.PredictedConsumption) := Variable(DT.FloatV(0.0)),
        NodeKey(Energy, DT.IsAnomaly) := Variable(DT.BoolV(false)),
        NodeKey(Energy, DT.AnomalyScore) := Variable(DT.FloatV(0.0))]
  }

  function CyberNodes(): map<NodeKey, Node>
  {
    map[NodeKey(Cyber, DT.ThreatLevel) := Variable(DT.TextV("low")),
        NodeKey(Cyber, DT.AnomalyScore) := Variable(DT.FloatV(0.0)),
        NodeKey(Cyber, DT.ActiveThreats) := Variable(DT.IntV(0)),
        NodeKey(Cyber, DT.NetworkHealth) := Variable(DT.FloatV(100.0))]
  }

  function SafetyNodes(): map<NodeKey, Node>
  {
    map[NodeKey(Safety, DT.RiskLevel) := Variable(DT.TextV("low")),
        NodeKey(Safety, DT.HazardCount) := Variable(DT.IntV(0)),
        NodeKey(Safety, DT.SafetyScore) := Variable(DT.FloatV(100.0)),
        NodeKey(Safety, DT.ActiveWarnings) := Variable(DT.IntV(0))]
  }

  function PpeNodes(): map<NodeKey, Node>
  {
    map[NodeKey(PPE, DT.ComplianceRate) := Variable(DT.FloatV(100.0)),
        NodeKey(PPE, DT.ViolationsCount) := Variable(DT.IntV(0)),
        NodeKey(PPE, DT.WorkersMonitored) := Variable(DT.IntV(0)),
        NodeKey(PPE, DT.HelmetCompliance) := Variable(DT.FloatV(100.0)),
        NodeKey(PPE, DT.VestCompliance) := Variable(DT.FloatV(100.0))]
  }

  /** The names `_create_*_nodes` creates in each folder. */
  function FolderNames(f: Folder): set<DT.NodeName>
  {
    match f
    case SystemStatus => {DT.OverallHealth, DT.ActiveAgents, DT.TotalAlerts}
    case PM => {DT.RemainingUsefulLife, DT.HealthScore, DT.AlertLevel, DT.FailureProbability,
                DT.RecommendedAction, DT.ThresholdCritical, DT.ThresholdWarning}
    case Energy => {DT.ConsumptionKWh, DT.EfficiencyScore, DT.PredictedConsumption, DT.IsAnomaly, DT.AnomalyScore}
    case Cyber => {DT.ThreatLevel, DT.AnomalyScore, DT.ActiveThreats, DT.NetworkHealth}
    case Safety => {DT.RiskLevel, DT.HazardCount, DT.SafetyScore, DT.ActiveWarnings}
    case PPE => {DT.ComplianceRate, DT.ViolationsCount, DT.WorkersMonitored, DT.HelmetCompliance, DT.VestCompliance}
  }

  /** The variant type each node is created with (`ua.VariantType.Float`, `Int32`,
      `Boolean`, `String`); a name shared by two folders has the same type in both. */
  function NameKind(n: DT.NodeName): DT.Kind
  {
    match n
    case ActiveAgents | TotalAlerts | ActiveThreats | HazardCount | ActiveWarnings
       | ViolationsCount | WorkersMonitored => DT.IntKind
    case IsAnomaly => DT.BoolKind
    case AlertLevel | RecommendedAction | ThreatLevel | RiskLevel => DT.TextKind
    case _ => DT.FloatKind
  }

  predicate IsNode(k: NodeKey)
  {
    k.name in FolderNames(k.folder)
  }

  const ActiveAgentsKey := NodeKey(SystemStatus, DT.ActiveAgents)
  const OverallHealthKey := NodeKey(SystemStatus, DT.OverallHealth)
  const HealthScoreKey := NodeKey(PM, DT.HealthScore)
  const SafetyScoreKey := NodeKey(Safety, DT.SafetyScore)

  /** The nodes `_create_*_nodes` makes read-only or writable by name. */
  const SystemStatusKeys: seq<NodeKey> := [OverallHealthKey, ActiveAgentsKey, NodeKey(SystemStatus, DT.TotalAlerts)]
  const PmReadOnlyKeys: seq<NodeKey> :=
    [NodeKey(PM, DT.RemainingUsefulLife), HealthScoreKey, NodeKey(PM, DT.AlertLevel),
     NodeKey(PM, DT.FailureProbability), NodeKey(PM, DT.RecommendedAction)]
  const PmConfigKeys: seq<NodeKey> := [NodeKey(PM, DT.ThresholdCritical), NodeKey(PM, DT.ThresholdWarning)]
  const AllFolders: set<Folder> := {SystemStatus, PM, Energy, Cyber, Safety, PPE}
  const WritableKeys: set<NodeKey> := {NodeKey(PM, DT.ThresholdCritical), NodeKey(PM, DT.ThresholdWarning)}

  predicate StartsWith(s: string, prefix: string)
  {
    |prefix| <= |s| && s[..|prefix|] == prefix
  }

  /** `set_writable(w)` on every listed node. */
  function Flagged(nodes: map<NodeKey, Node>, keys: seq<NodeKey>, w: bool): map<NodeKey, Node>
  {
    map k | k in nodes :: if k in keys then nodes[k].(writable := w) else nodes[k]
  }

  /** `set_writable(False)` on every node of folder f. */
  function ReadOnlyFolder(nodes: map<NodeKey, Node>, f: Folder): map<NodeKey, Node>
  {
    map k | k in nodes :: if k.folder == f then nodes[k].(writable := false) else nodes[k]
  }

  // The table after each `_create_*_nodes` step, in the order `_create_node_structure` runs them.
  function AfterSystemStatus(nodes: map<NodeKey, Node>): map<NodeKey, Node>
  {
    Flagged(nodes + SystemStatusNodes(), SystemStatusKeys, false)
  }

  function AfterPm(nodes: map<NodeKey, Node>): map<NodeKey, Node>
  {
    Flagged(Flagged(nodes + PmNodes(), PmReadOnlyKeys, false), PmConfigKeys, true)
  }

  function AfterEnergy(nodes: map<NodeKey, Node>): map<NodeKey, Node>
  {
    ReadOnlyFolder(nodes + EnergyNodes(), Energy)
  }

  function AfterCyber(nodes: map<NodeKey, Node>): map<NodeKey, Node>
  {
    ReadOnlyFolder(nodes + CyberNodes(), Cyber)
  }

  function AfterSafety(nodes: map<NodeKey, Node>): map<NodeKey, Node>
  {
    ReadOnlyFolder(nodes + SafetyNodes(), Safety)
  }

  function AfterPpe(nodes: map<NodeKey, Node>): map<NodeKey, Node>
  {
    ReadOnlyFolder(nodes + PpeNodes(), PPE)
  }

  function InitialNodes(): map<NodeKey, Node>
  {
    AfterPpe(AfterSafety(AfterCyber(AfterEnergy(AfterPm(AfterSystemStatus(map[]))))))
  }

  /** `prefix_map.get(agent_id)` */
  function FolderOf(agent: string): Option<Folder>
  {
    if agent == "pm_agent" then Some(PM)
    else if agent == "energy_agent" then Some(Energy)
    else if agent == "cyber_agent" then Some(Cyber)
    else if agent == "hazard_agent" then Some(Safety)
    else if agent == "ppe_agent" then Some(PPE)
    else None
  }

  /** Every translated value whose node exists in the agent's folder is written; all
      other nodes keep their values. */
  function Written(nodes: map<NodeKey, Node>, f: Folder, values: map<DT.NodeName, DT.NodeValue>): map<NodeKey, Node>
  {
    map k | k in nodes :: if k.folder == f && k.name in values then nodes[k].(value := values[k.name]) else nodes[k]
  }

  predicate HasStatusNodes(nodes: map<NodeKey, Node>)
  {
    ActiveAgentsKey in nodes && OverallHealthKey in nodes && HealthScoreKey in nodes && SafetyScoreKey in nodes
  }

  function FloatOf(v: DT.NodeValue): real
  {
    if v.FloatV? then v.r else 0.0
  }

  /** `_update_system_status`: ActiveAgents becomes 5 and OverallHealth the mean of
      PM.HealthScore and Safety.SafetyScore (both nodes always exist, so both always
      take part). */
  function WithSystemStatus(nodes: map<NodeKey, Node>): (r: map<NodeKey, Node>)
    requires HasStatusNodes(nodes)
    ensures r.Keys == nodes.Keys
  {
    var overall := (FloatOf(nodes[HealthScoreKey].value) + FloatOf(nodes[SafetyScoreKey].value)) / 2.0;
    nodes[ActiveAgentsKey := nodes[ActiveAgentsKey].(value := DT.IntV(5))]
         [OverallHealthKey := nodes[OverallHealthKey].(value := DT.FloatV(overall))]
  }

  /** The whole effect of one `update_from_mqtt`: a translation that raises is caught,
      an unknown agent returns early; neither changes any node. */
  function AfterUpdate(nodes: map<NodeKey, Node>, agent: string, data: Value): map<NodeKey, Node>
    requires HasStatusNodes(nodes)
  {
    match DT.ToOpcua(agent, data)
    case Raised => nodes
    case Ok(values) =>
      match FolderOf(agent)
      case None => nodes
      case Some(f) => WithSystemStatus(Written(nodes, f, values))
  }

  /** Table shape every update keeps: the keys, the variant type of each node and the
      writable flags stay as they were created. */
  ghost predicate WellTyped(nodes: map<NodeKey, Node>)
  {
    HasStatusNodes(nodes)
    && (forall k :: k in nodes <==> IsNode(k))
    && forall k :: k in nodes ==>
         DT.KindOf(nodes[k].value) == NameKind(k.name) && (nodes[k].writable <==> k in WritableKeys)
  }

  class OpcuaBridgeServer {
    var nodes: map<NodeKey, Node>

    /** Before `init` the table is empty. */
    constructor ()
      ensures nodes == map[]
    {
      nodes := map[];
    }

    /** `init` / `_create_node_structure`: the six folders, created in order. */
    method Init()
      requires nodes == map[]
      modifies this
      ensures nodes == InitialNodes() && WellTyped(nodes)
    {
      CreateSystemStatusNodes();
      CreatePmNodes();
      CreateEnergyNodes();
      CreateCyberNodes();
      CreateSafetyNodes();
      CreatePpeNodes();
      InitialNodesWellTyped();
    }

    /** `set_writable(w)` on each listed node, in order. */
    method SetWritableAll(keys: seq<NodeKey>, w: bool)
      requires forall i :: 0 <= i < |keys| ==> keys[i] in nodes
      modifies this
      ensures nodes == Flagged(old(nodes), keys, w)
    {
      for n := 0 to |keys|
        invariant nodes == Flagged(old(nodes), keys[..n], w)
      {
        assert keys[..n + 1] == keys[..n] + [keys[n]];
        nodes := nodes[keys[n] := nodes[keys[n]].(writable := w)];
      }
      assert keys[..|keys|] == keys;
    }

    /** The loop `for key in self.nodes: if key.startswith(prefix): set_writable(False)`
        with the folder's "Name." prefix. */
    method SetFolderReadOnly(f: Folder)
      modifies this
      ensures nodes == ReadOnlyFolder(old(nodes), f)
    {
      var prefix := FolderName(f) + ".";
      var pending := nodes.Keys;
      while pending != {}
        invariant pending <= nodes.Keys && nodes.Keys == old(nodes).Keys
        invariant forall k :: k in nodes ==>
          nodes[k] == if k.folder == f && k !in pending then old(nodes)[k].(writable := false) else old(nodes)[k]
        decreases |pending|
      {
        NonEmptyHasMember(pending);
        var key :| key in pending;
        FolderPrefix(key, f);
        if StartsWith(KeyText(key), prefix) {
          nodes := nodes[key := nodes[key].(writable := false)];
        }
        pending := pending - {key};
      }
    }

    method CreateSystemStatusNodes()
      modifies this
      ensures nodes == AfterSystemStatus(old(nodes))
    {
      nodes := nodes + SystemStatusNodes();
      SetWritableAll(SystemStatusKeys, false);
    }

    method CreatePmNodes()
      modifies this
      ensures nodes == AfterPm(old(nodes))
    {
      nodes := nodes + PmNodes();
      SetWritableAll(PmReadOnlyKeys, false);
      SetWritableAll(PmConfigKeys, true);
    }

    method CreateEnergyNodes()
      modifies this
      ensures nodes == AfterEnergy(old(nodes))
    {
      nodes := nodes + EnergyNodes();
      SetFolderReadOnly(Energy);
    }

    method CreateCyberNodes()
      modifies this
      ensures nodes == AfterCyber(old(nodes))
    {
      nodes := nodes + CyberNodes();
      SetFolderReadOnly(Cyber);
    }

    method CreateSafetyNodes()
      modifies this
      ensures nodes == AfterSafety(old(nodes))
    {
      nodes := nodes + SafetyNodes();
      SetFolderReadOnly(Safety);
    }

    method CreatePpeNodes()
      modifies this
      ensures nodes == AfterPpe(old(nodes))
    {
      nodes := nodes + PpeNodes();
      SetFolderReadOnly(PPE);
    }

    method UpdateFromMqtt(agent: string, data: Value)
      requires WellTyped(nodes)
      modifies this
      ensures WellTyped(nodes)
      ensures nodes == AfterUpdate(old(nodes), agent, data)
    {
      UpdateKeepsTypes(nodes, agent, data);
      var translated := DT.ToOpcua(agent, data);
      if translated.Raised? {
        return;
      }
      var folder := FolderOf(agent);
      if folder.None? {
        return;
      }
      WriteValues(folder.value, translated.value);
      UpdateSystemStatus();
    }

    /** The write loop: each translated name whose node exists is written. */
    method WriteValues(f: Folder, values: map<DT.NodeName, DT.NodeValue>)
      modifies this
      ensures nodes == Written(old(nodes), f, values)
    {
      var pending := values.Keys;
      while pending != {}
        invariant pending <= values.Keys && nodes.Keys == old(nodes).Keys
        invariant forall k :: k in nodes ==>
          nodes[k] == if k.folder == f && k.name in values && k.name !in pending
                      then old(nodes)[k].(value := values[k.name]) else old(nodes)[k]
        decreases |pending|
      {
        NonEmptyHasMember(pending);
        var name :| name in pending;
        var fullKey := NodeKey(f, name);
        if fullKey in nodes {
          nodes := nodes[fullKey := nodes[fullKey].(value := values[name])];
        }
        pending := pending - {name};
      }
    }

    method UpdateSystemStatus()
      requires HasStatusNodes(nodes)
      modifies this
      ensures nodes == WithSystemStatus(old(nodes))
    {
      nodes := nodes[ActiveAgentsKey := nodes[ActiveAgentsKey].(value := DT.IntV(5))];
      var pmHealth := FloatOf(nodes[HealthScoreKey].value);
      var safetyScore := FloatOf(nodes[SafetyScoreKey].value);
      var overall := (pmHealth + safetyScore) / 2.0;
      nodes := nodes[OverallHealthKey := nodes[OverallHealthKey].(value := DT.FloatV(overall))];
    }
  }

  lemma NonEmptyHasMember<T>(s: set<T>)
    requires s != {}
    ensures exists a :: a in s
  {
    assert (forall a :: a !in s) ==> s == {};
  }

  // ---------------------------------------------------------------- node keys

  predicate DotFree(s: string)
  {
    forall i :: 0 <= i < |s| ==> s[i] != '.'
  }

  lemma FolderNameShape(f: Folder)
    ensures DotFree(FolderName(f))
  {
  }

  /** When both folder names are free of '.', "a." can only begin "b.<name>" if a == b. */
  lemma DottedPrefix(a: string, b: string, name: string)
    requires DotFree(a) && DotFree(b)
    requires StartsWith(b + "." + name, a + ".")
    ensures a == b
  {
    var t := b + "." + name;
    // At the shorter of the two lengths, t holds '.' exactly when that length is
    // |b|, and "a." does exactly when it is |a|; the two agree there.
    var i := if |a| < |b| then |a| else |b|;
    assert t[i] == (a + ".")[i];
    assert t[i] == '.' <==> i == |b|;
    assert (a + ".")[i] == '.' <==> i == |a|;
    assert a == (a + ".")[..|a|] == t[..|a|] == b;
  }

  lemma FolderNameInjective(f: Folder, g: Folder)
    ensures FolderName(f) == FolderName(g) ==> f == g
  {
  }

  /** `key.startswith("Folder.")` holds exactly for the keys of that folder. */
  lemma FolderPrefix(k: NodeKey, f: Folder)
    ensures StartsWith(KeyText(k), FolderName(f) + ".") <==> k.folder == f
  {
    FolderNameShape(f);
    FolderNameShape(k.folder);
    if StartsWith(KeyText(k), FolderName(f) + ".") {
      DottedPrefix(FolderName(f), FolderName(k.folder), DT.NameText(k.name));
      FolderNameInjective(f, k.folder);
    } else {
      var t := KeyText(k);
      var p := FolderName(k.folder) + ".";
      assert t[..|p|] == p;
    }
  }

  // ---------------------------------------------------------------- the created table

  /** A folder's variables as created: exactly the folder's names, each read-only and
      holding a value of its node's type. */
  predicate FolderTable(vars: map<NodeKey, Node>, f: Folder)
  {
    KeysOfFolder(vars, f) && KindsAsNamed(vars)
  }

  predicate KeysOfFolder(vars: map<NodeKey, Node>, f: Folder)
  {
    (forall k :: k in vars ==> k.folder == f && k.name in FolderNames(f) && !vars[k].writable)
    && forall n :: n in FolderNames(f) ==> NodeKey(f, n) in vars
  }

  predicate KindsAsNamed(vars: map<NodeKey, Node>)
  {
    forall k :: k in vars ==> DT.KindOf(vars[k].value) == NameKind(k.name)
  }

  lemma SystemStatusTable()
    ensures FolderTable(SystemStatusNodes(), SystemStatus)
  {
    SystemStatusTableKeys();
    SystemStatusTableKinds();
  }

  lemma SystemStatusTableKeys()
    ensures KeysOfFolder(SystemStatusNodes(), SystemStatus)
  {
  }

  lemma SystemStatusTableKinds()
    ensures KindsAsNamed(SystemStatusNodes())
  {
  }

  lemma PmTable()
    ensures FolderTable(PmNodes(), PM)
  {
    PmTableKeys();
    PmTableKinds();
  }

  lemma PmTableKeys()
    ensures KeysOfFolder(PmNodes(), PM)
  {
  }

  lemma PmTableKinds()
    ensures KindsAsNamed(PmNodes())
  {
  }

  lemma EnergyTable()
    ensures FolderTable(EnergyNodes(), Energy)
  {
    EnergyTableKeys();
    EnergyTableKinds();
  }

  lemma EnergyTableKeys()
    ensures KeysOfFolder(EnergyNodes(), Energy)
  {
  }

  lemma EnergyTableKinds()
    ensures KindsAsNamed(EnergyNodes())
  {
  }

  lemma CyberTable()
    ensures FolderTable(CyberNodes(), Cyber)
  {
    CyberTableKeys();
    CyberTableKinds();
  }

  lemma CyberTableKeys()
    ensures KeysOfFolder(CyberNodes(), Cyber)
  {
  }

  lemma CyberTableKinds()
    ensures KindsAsNamed(CyberNodes())
  {
  }

  lemma SafetyTable()
    ensures FolderTable(SafetyNodes(), Safety)
  {
    SafetyTableKeys();
    SafetyTableKinds();
  }

  lemma SafetyTableKeys()
    ensures KeysOfFolder(SafetyNodes(), Safety)
  {
  }

  lemma SafetyTableKinds()
    ensures KindsAsNamed(SafetyNodes())
  {
  }

  lemma PpeTable()
    ensures FolderTable(PpeNodes(), PPE)
  {
    PpeTableKeys();
    PpeTableKinds();
  }

  lemma PpeTableKeys()
    ensures KeysOfFolder(PpeNodes(), PPE)
  {
  }

  lemma PpeTableKinds()
    ensures KindsAsNamed(PpeNodes())
  {
  }


  /** m holds exactly the nodes of the folders in `done`, each of its type, and exactly
      the threshold nodes among them are writable. */
  ghost predicate Built(m: map<NodeKey, Node>, done: set<Folder>)
  {
    (forall k :: k in m <==> k.folder in done && IsNode(k))
    && forall k :: k in m ==> DT.KindOf(m[k].value) == NameKind(k.name) && (m[k].writable <==> k in WritableKeys)
  }

  /** Adding a folder other than PM and making its nodes read-only keeps the table built. */
  lemma {:induction false} FolderStep(m: map<NodeKey, Node>, done: set<Folder>, vars: map<NodeKey, Node>, f: Folder)
    requires Built(m, done) && FolderTable(vars, f) && f != PM
    ensures Built(ReadOnlyFolder(m + vars, f), done + {f})
  {
    var r := ReadOnlyFolder(m + vars, f);
    forall k: NodeKey | k.folder in done + {f} && IsNode(k)
      ensures k in r
    {
      if k.folder == f {
        assert NodeKey(f, k.name) in vars;
      }
    }
    forall k | k in r
      ensures DT.KindOf(r[k].value) == NameKind(k.name) && (r[k].writable <==> k in WritableKeys)
    {
      if k in vars {
        assert k.folder != PM;
      }
    }
  }

  lemma SystemStatusStep()
    ensures Built(AfterSystemStatus(map[]), {SystemStatus})
  {
    SystemStatusTable();
    var r := AfterSystemStatus(map[]);
    forall k: NodeKey | k.folder == SystemStatus && IsNode(k)
      ensures k in r
    {
      assert NodeKey(SystemStatus, k.name) in SystemStatusNodes();
    }
  }

  lemma PmStep(m: map<NodeKey, Node>)
    requires Built(m, {SystemStatus})
    ensures Built(AfterPm(m), {SystemStatus, PM})
  {
    PmTable();
    var r := AfterPm(m);
    forall k: NodeKey | k.folder in {SystemStatus, PM} && IsNode(k)
      ensures k in r
    {
      if k.folder == PM {
        assert NodeKey(PM, k.name) in PmNodes();
      }
    }
  }

  lemma EnergyStep(m: map<NodeKey, Node>, done: set<Folder>)
    requires Built(m, done)
    ensures Built(AfterEnergy(m), done + {Energy})
  {
    EnergyTable();
    FolderStep(m, done, EnergyNodes(), Energy);
  }

  lemma CyberStep(m: map<NodeKey, Node>, done: set<Folder>)
    requires Built(m, done)
    ensures Built(AfterCyber(m), done + {Cyber})
  {
    CyberTable();
    FolderStep(m, done, CyberNodes(), Cyber);
  }

  lemma SafetyStep(m: map<NodeKey, Node>, done: set<Folder>)
    requires Built(m, done)
    ensures Built(AfterSafety(m), done + {Safety})
  {
    SafetyTable();
    FolderStep(m, done, SafetyNodes(), Safety);
  }

  lemma PpeStep(m: map<NodeKey, Node>, done: set<Folder>)
    requires Built(m, done)
    ensures Built(AfterPpe(m), done + {PPE})
  {
    PpeTable();
    FolderStep(m, done, PpeNodes(), PPE);
  }

  /** The four folders created after PM. */
  lemma LaterFoldersStep(s2: map<NodeKey, Node>)
    requires Built(s2, {SystemStatus, PM})
    ensures Built(AfterPpe(AfterSafety(AfterCyber(AfterEnergy(s2)))), AllFolders)
  {
    var s3 := AfterEnergy(s2);
    EnergyStep(s2, {SystemStatus, PM});
    var s4 := AfterCyber(s3);
    CyberStep(s3, {SystemStatus, PM, Energy});
    var s5 := AfterSafety(s4);
    SafetyStep(s4, {SystemStatus, PM, Energy, Cyber});
    PpeStep(s5, {SystemStatus, PM, Energy, Cyber, Safety});
  }

  lemma EveryFolder(f: Folder)
    ensures f in AllFolders
  {
  }

  /** The created table holds every node of the six folders, each of its type, and
      exactly the two PM threshold nodes are writable. */
  lemma InitialNodesWellTyped()
    ensures WellTyped(InitialNodes())
  {
    SystemStatusStep();
    PmStep(AfterSystemStatus(map[]));
    LaterFoldersStep(AfterPm(AfterSystemStatus(map[])));
    var t := InitialNodes();
    forall k: NodeKey
      ensures k in t <==> IsNode(k)
    {
      EveryFolder(k.folder);
    }
    assert IsNode(ActiveAgentsKey) && IsNode(OverallHealthKey) && IsNode(HealthScoreKey) && IsNode(SafetyScoreKey);
  }

  /** A later folder's step leaves the nodes of other folders as they were. */
  lemma ReadOnlyKeeps(m: map<NodeKey, Node>, vars: map<NodeKey, Node>, f: Folder, k: NodeKey)
    requires FolderTable(vars, f) && k in m && k.folder != f
    ensures k in ReadOnlyFolder(m + vars, f) && ReadOnlyFolder(m + vars, f)[k] == m[k]
  {
  }

  /** The SystemStatus and PM nodes keep through the later steps what their own steps gave them. */
  lemma LaterFoldersKeep(s2: map<NodeKey, Node>, k: NodeKey)
    requires k in s2 && k.folder in {SystemStatus, PM}
    ensures var t := AfterPpe(AfterSafety(AfterCyber(AfterEnergy(s2))));
      k in t && t[k] == s2[k]
  {
    var s3 := AfterEnergy(s2);
    EnergyTable();
    ReadOnlyKeeps(s2, EnergyNodes(), Energy, k);
    var s4 := AfterCyber(s3);
    CyberTable();
    ReadOnlyKeeps(s3, CyberNodes(), Cyber, k);
    var s5 := AfterSafety(s4);
    SafetyTable();
    ReadOnlyKeeps(s4, SafetyNodes(), Safety, k);
    PpeTable();
    ReadOnlyKeeps(s5, PpeNodes(), PPE, k);
  }

  lemma OverallHealthValue()
    ensures var s := AfterSystemStatus(map[]);
      OverallHealthKey in s && s[OverallHealthKey] == Node(DT.FloatV(100.0), false)
  {
  }

  lemma PmValues(m: map<NodeKey, Node>)
    ensures var s := AfterPm(m);
      HealthScoreKey in s && s[HealthScoreKey] == Node(DT.FloatV(0.0), false)
      && NodeKey(PM, DT.AlertLevel) in s && s[NodeKey(PM, DT.AlertLevel)] == Node(DT.TextV("normal"), false)
      && NodeKey(PM, DT.ThresholdCritical) in s && s[NodeKey(PM, DT.ThresholdCritical)] == Node(DT.FloatV(20.0), true)
      && NodeKey(PM, DT.ThresholdWarning) in s && s[NodeKey(PM, DT.ThresholdWarning)] == Node(DT.FloatV(50.0), true)
      && (OverallHealthKey in m ==> OverallHealthKey in s && s[OverallHealthKey] == m[OverallHealthKey])
  {
    var t := m + PmNodes();
    var u := Flagged(t, PmReadOnlyKeys, false);
    assert t[HealthScoreKey] == Variable(DT.FloatV(0.0)) && HealthScoreKey in PmReadOnlyKeys;
    assert t[NodeKey(PM, DT.AlertLevel)] == Variable(DT.TextV("normal")) && NodeKey(PM, DT.AlertLevel) in PmReadOnlyKeys;
    assert u[NodeKey(PM, DT.ThresholdCritical)] == Variable(DT.FloatV(20.0));
    assert u[NodeKey(PM, DT.ThresholdWarning)] == Variable(DT.FloatV(50.0));
  }

  lemma SafetyScoreValue(s4: map<NodeKey, Node>)
    ensures var t := AfterPpe(AfterSafety(s4));
      SafetyScoreKey in t && t[SafetyScoreKey] == Node(DT.FloatV(100.0), false)
  {
    PpeTable();
    ReadOnlyKeeps(AfterSafety(s4), PpeNodes(), PPE, SafetyScoreKey);
  }

  /** The values the table starts from: OverallHealth 100, PM.HealthScore 0, AlertLevel
      "normal", the writable thresholds 20 and 50, Safety.SafetyScore 100. */
  lemma InitialValues()
    ensures var t := InitialNodes();
      OverallHealthKey in t && t[OverallHealthKey] == Node(DT.FloatV(100.0), false)
      && HealthScoreKey in t && t[HealthScoreKey] == Node(DT.FloatV(0.0), false)
      && NodeKey(PM, DT.AlertLevel) in t && t[NodeKey(PM, DT.AlertLevel)] == Node(DT.TextV("normal"), false)
      && NodeKey(PM, DT.ThresholdCritical) in t && t[NodeKey(PM, DT.ThresholdCritical)] == Node(DT.FloatV(20.0), true)
      && NodeKey(PM, DT.ThresholdWarning) in t && t[NodeKey(PM, DT.ThresholdWarning)] == Node(DT.FloatV(50.0), true)
      && SafetyScoreKey in t && t[SafetyScoreKey] == Node(DT.FloatV(100.0), false)
  {
    var s2 := AfterPm(AfterSystemStatus(map[]));
    OverallHealthValue();
    PmValues(AfterSystemStatus(map[]));
    LaterFoldersKeep(s2, OverallHealthKey);
    LaterFoldersKeep(s2, HealthScoreKey);
    LaterFoldersKeep(s2, NodeKey(PM, DT.AlertLevel));
    LaterFoldersKeep(s2, NodeKey(PM, DT.ThresholdCritical));
    LaterFoldersKeep(s2, NodeKey(PM, DT.ThresholdWarning));
    SafetyScoreValue(AfterCyber(AfterEnergy(s2)));
  }

  const Thresholds: set<DT.NodeName> := {DT.ThresholdCritical, DT.ThresholdWarning}

  /** The agent's translation writes every node of folder f except the two thresholds,
      and its defaults (the translation of an empty prediction) are the values those
      nodes were created with. */
  predicate DefaultsMatch(agent: string, f: Folder, vars: map<NodeKey, Node>)
  {
    DT.OpcuaNames(agent) == FolderNames(f) - Thresholds
    && DT.OpcuaDefaults(agent).Keys == DT.OpcuaNames(agent)
    && forall n :: n in DT.OpcuaDefaults(agent) ==>
         NodeKey(f, n) in vars && vars[NodeKey(f, n)].value == DT.OpcuaDefaults(agent)[n]
  }

  lemma PmDefaults() ensures DefaultsMatch("pm_agent", PM, PmNodes()) {}
  lemma EnergyDefaults() ensures DefaultsMatch("energy_agent", Energy, EnergyNodes()) {}
  lemma CyberDefaults() ensures DefaultsMatch("cyber_agent", Cyber, CyberNodes()) {}
  lemma SafetyDefaults() ensures DefaultsMatch("hazard_agent", Safety, SafetyNodes()) {}
  lemma PpeDefaults() ensures DefaultsMatch("ppe_agent", PPE, PpeNodes()) {}

  lemma DefaultKinds(agent: string, f: Folder, vars: map<NodeKey, Node>)
    requires DefaultsMatch(agent, f, vars) && FolderTable(vars, f)
    ensures forall n :: n in DT.OpcuaDefaults(agent) ==> DT.KindOf(DT.OpcuaDefaults(agent)[n]) == NameKind(n)
  {
    forall n | n in DT.OpcuaDefaults(agent)
      ensures DT.KindOf(DT.OpcuaDefaults(agent)[n]) == NameKind(n)
    {
      assert NodeKey(f, n) in vars;
    }
  }

  /** An agent with a folder of its own has a translation that targets exactly that
      folder's nodes, thresholds excepted, with the creation values as defaults. */
  lemma {:induction false} AgentFolderDefaults(agent: string)
    requires FolderOf(agent).Some?
    ensures var f := FolderOf(agent).value;
      DT.OpcuaNames(agent) == FolderNames(f) - Thresholds
      && DT.OpcuaDefaults(agent).Keys == DT.OpcuaNames(agent)
      && forall n :: n in DT.OpcuaDefaults(agent) ==> DT.KindOf(DT.OpcuaDefaults(agent)[n]) == NameKind(n)
  {
    if agent == "pm_agent" {
      PmDefaults(); PmTable(); DefaultKinds(agent, PM, PmNodes());
    } else if agent == "energy_agent" {
      EnergyDefaults(); EnergyTable(); DefaultKinds(agent, Energy, EnergyNodes());
    } else if agent == "cyber_agent" {
      CyberDefaults(); CyberTable(); DefaultKinds(agent, Cyber, CyberNodes());
    } else if agent == "hazard_agent" {
      SafetyDefaults(); SafetyTable(); DefaultKinds(agent, Safety, SafetyNodes());
    } else {
      PpeDefaults(); PpeTable(); DefaultKinds(agent, PPE, PpeNodes());
    }
  }

  /** Every value a translation produces has the type of the node it is written to, and
      every translated name is a node of the agent's folder. */
  lemma {:induction false} TranslationKinds(agent: string, data: Value)
    requires FolderOf(agent).Some?
    ensures DT.ToOpcua(agent, data).Ok? ==>
      var values := DT.ToOpcua(agent, data).value;
      forall n :: n in values ==> DT.KindOf(values[n]) == NameKind(n) && IsNode(NodeKey(FolderOf(agent).value, n))
  {
    DT.OpcuaKinds(agent, data);
    AgentFolderDefaults(agent);
  }

  /** Writing values of the nodes' own types keeps the table well typed. */
  lemma WrittenKeepsTypes(nodes: map<NodeKey, Node>, f: Folder, values: map<DT.NodeName, DT.NodeValue>)
    requires WellTyped(nodes)
    requires forall n :: n in values ==> DT.KindOf(values[n]) == NameKind(n)
    ensures WellTyped(Written(nodes, f, values))
  {
  }

  lemma StatusKeepsTypes(nodes: map<NodeKey, Node>)
    requires WellTyped(nodes)
    ensures WellTyped(WithSystemStatus(nodes))
  {
  }

  /** An update keeps the table's keys, variant types and writable flags. */
  lemma UpdateKeepsTypes(nodes: map<NodeKey, Node>, agent: string, data: Value)
    requires WellTyped(nodes)
    ensures WellTyped(AfterUpdate(nodes, agent, data))
  {
    var translated := DT.ToOpcua(agent, data);
    if translated.Ok? && FolderOf(agent).Some? {
      var f := FolderOf(agent).value;
      TranslationKinds(agent, data);
      assert forall n :: n in translated.value ==> DT.KindOf(translated.value[n]) == NameKind(n);
      WrittenKeepsTypes(nodes, f, translated.value);
      StatusKeepsTypes(Written(nodes, f, translated.value));
    }
  }

  // ---------------------------------------------------------------- updates

  /** A translation that raised is caught, and an agent without a folder returns
      early: neither changes any node. */
  lemma UnchangedWithoutWrite(nodes: map<NodeKey, Node>, agent: string, data: Value)
    requires HasStatusNodes(nodes)
    requires DT.ToOpcua(agent, data).Raised? || FolderOf(agent).None?
    ensures AfterUpdate(nodes, agent, data) == nodes
  {
  }

  /** Which agent ids have a folder: exactly the five agents of the system. */
  lemma {:induction false} KnownAgentFolders(agent: string)
    ensures FolderOf(agent).Some? <==> agent in DT.KnownAgents
    ensures FolderOf(agent) == Some(PM) <==> agent == "pm_agent"
    ensures FolderOf(agent) == Some(Safety) <==> agent == "hazard_agent"
    ensures FolderOf(agent).Some? ==> FolderOf(agent).value != SystemStatus
  {
  }

  /** The frame of an update: no node is added or removed, no writable flag changes,
      and outside the agent's folder only ActiveAgents and OverallHealth can change. */
  lemma {:induction false} UpdateFrame(nodes: map<NodeKey, Node>, agent: string, data: Value)
    requires HasStatusNodes(nodes)
    ensures var r := AfterUpdate(nodes, agent, data);
      r.Keys == nodes.Keys
      && (forall k :: k in nodes ==> r[k].writable == nodes[k].writable)
      && forall k ::
           (k in nodes && k != ActiveAgentsKey && k != OverallHealthKey
            && (FolderOf(agent).None? || k.folder != FolderOf(agent).value)) ==> r[k] == nodes[k]
  {
    if DT.ToOpcua(agent, data).Ok? && FolderOf(agent).Some? {
      WrittenFrame(nodes, FolderOf(agent).value, DT.ToOpcua(agent, data).value);
    }
  }

  /** Writing into folder f and recomputing the status keeps the keys and the flags,
      and changes nothing outside f but ActiveAgents and OverallHealth. */
  lemma WrittenFrame(nodes: map<NodeKey, Node>, f: Folder, values: map<DT.NodeName, DT.NodeValue>)
    requires HasStatusNodes(nodes)
    ensures HasStatusNodes(Written(nodes, f, values))
    ensures var r := WithSystemStatus(Written(nodes, f, values));
      r.Keys == nodes.Keys
      && (forall k :: k in nodes ==> r[k].writable == nodes[k].writable)
      && forall k :: (k in nodes && k != ActiveAgentsKey && k != OverallHealthKey && k.folder != f) ==> r[k] == nodes[k]
  {
    var w := Written(nodes, f, values);
    assert HasStatusNodes(w);
  }

  /** Writing values into folder f (not SystemStatus) and recomputing the status:
      each value lands on its node, ActiveAgents is 5, and OverallHealth is the mean of
      the new PM.HealthScore and Safety.SafetyScore. */
  lemma {:induction false} WriteThenStatus(nodes: map<NodeKey, Node>, f: Folder, values: map<DT.NodeName, DT.NodeValue>)
    requires HasStatusNodes(nodes) && f != SystemStatus
    requires forall n :: n in values ==> NodeKey(f, n) in nodes
    ensures var r := WithSystemStatus(Written(nodes, f, values));
      (forall n :: n in values ==> r[NodeKey(f, n)].value == values[n])
      && r[ActiveAgentsKey].value == DT.IntV(5)
      && r[OverallHealthKey].value
         == DT.FloatV((FloatOf(r[HealthScoreKey].value) + FloatOf(r[SafetyScoreKey].value)) / 2.0)
  {
    var w := Written(nodes, f, values);
    assert HasStatusNodes(w);
  }

  /** After an update by a known agent whose prediction translated, every translated
      name is an existing node of the agent's folder and holds its translated value,
      ActiveAgents is 5, and OverallHealth is the mean of the new PM.HealthScore and
      Safety.SafetyScore. */
  lemma {:induction false} UpdateWrites(nodes: map<NodeKey, Node>, agent: string, data: Value)
    requires WellTyped(nodes) && FolderOf(agent).Some? && DT.ToOpcua(agent, data).Ok?
    ensures var f := FolderOf(agent).value;
      var values := DT.ToOpcua(agent, data).value;
      var r := AfterUpdate(nodes, agent, data);
      (forall n :: n in values ==> NodeKey(f, n) in nodes && r[NodeKey(f, n)].value == values[n])
      && r[ActiveAgentsKey].value == DT.IntV(5)
      && r[OverallHealthKey].value
         == DT.FloatV((FloatOf(r[HealthScoreKey].value) + FloatOf(r[SafetyScoreKey].value)) / 2.0)
  {
    var f := FolderOf(agent).value;
    var values := DT.ToOpcua(agent, data).value;
    TranslationKinds(agent, data);
    KnownAgentFolders(agent);
    forall n | n in values
      ensures NodeKey(f, n) in nodes
    {
      assert IsNode(NodeKey(f, n));
    }
    WriteThenStatus(nodes, f, values);
  }

  /** The PM thresholds are configuration: no update ever writes them. */
  lemma {:induction false} ThresholdsNeverWritten(nodes: map<NodeKey, Node>, agent: string, data: Value)
    requires WellTyped(nodes)
    ensures forall k :: k in WritableKeys ==> k in nodes && AfterUpdate(nodes, agent, data)[k] == nodes[k]
  {
    assert forall k :: k in WritableKeys ==> IsNode(k);
    UpdateFrame(nodes, agent, data);
    if DT.ToOpcua(agent, data).Ok? && FolderOf(agent) == Some(PM) {
      KnownAgentFolders(agent);
      var values := DT.ToOpcua(agent, data).value;
      AgentFolderDefaults(agent);
      DT.OpcuaWritesAgentNames(agent, data);
      assert DT.ThresholdCritical !in values && DT.ThresholdWarning !in values;
    }
  }

  lemma {:induction false} WrittenIdempotent(nodes: map<NodeKey, Node>, f: Folder, values: map<DT.NodeName, DT.NodeValue>)
    requires HasStatusNodes(nodes) && f != SystemStatus
    ensures Written(WithSystemStatus(Written(nodes, f, values)), f, values) == WithSystemStatus(Written(nodes, f, values))
  {
    var w := Written(nodes, f, values);
    assert HasStatusNodes(w);
  }

  lemma {:induction false} StatusIdempotent(nodes: map<NodeKey, Node>)
    requires HasStatusNodes(nodes)
    ensures WithSystemStatus(WithSystemStatus(nodes)) == WithSystemStatus(nodes)
  {
    var s := WithSystemStatus(nodes);
    assert s[HealthScoreKey] == nodes[HealthScoreKey] && s[SafetyScoreKey] == nodes[SafetyScoreKey];
  }

  /** Writing the same prediction twice leaves the table as writing it once. */
  lemma {:induction false} UpdateIdempotent(nodes: map<NodeKey, Node>, agent: string, data: Value)
    requires HasStatusNodes(nodes)
    ensures HasStatusNodes(AfterUpdate(nodes, agent, data))
    ensures AfterUpdate(AfterUpdate(nodes, agent, data), agent, data) == AfterUpdate(nodes, agent, data)
  {
    if DT.ToOpcua(agent, data).Ok? && FolderOf(agent).Some? {
      var f := FolderOf(agent).value;
      var values := DT.ToOpcua(agent, data).value;
      KnownAgentFolders(agent);
      var w := Written(nodes, f, values);
      assert HasStatusNodes(w);
      WrittenIdempotent(nodes, f, values);
      StatusIdempotent(w);
    }
  }
}
