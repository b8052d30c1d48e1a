// The PPE agent's state: the shared state manager plus compliance tracking per
// worker (in first-seen order), a violation log, a count of access denials and the
// overall compliance rate, which is the mean of the workers' rates.

module PpeAgentState {
  import opened PyValues
  import SM = StateManagement

  datatype WorkerStats = WorkerStats(violations: nat, lastViolation: Option<string>, complianceRate: real)

  /** An entry of `worker_compliance`; the list keeps the dict's insertion order. */
  datatype Worker = Worker(id: Value, stats: WorkerStats)

  /** An entry of `violation_history`. */
  datatype ViolationRecord = ViolationRecord(workerId: Value, violations: Value, timestamp: string)

  /** The PPE part of the custom state. */
  datatype PpeCustom = PpeCustom(lastAlertLevel: Value, workers: seq<Worker>, violationHistory: seq<ViolationRecord>,
                                 accessDeniedCount: nat, overallComplianceRate: real)

  const FreshWorker := WorkerStats(0, None, 100.0)
  const InitialCustom := PpeCustom(Str("NORMAL"), [], [], 0, 100.0)

  function Ids(ws: seq<Worker>): (ids: seq<Value>)
    ensures |ids| == |ws|
  {
    if ws == [] then [] else [ws[0].id] + Ids(ws[1..])
  }

  function Rates(ws: seq<Worker>): (rates: seq<real>)
    ensures |rates| == |ws|
  {
    if ws == [] then [] else [ws[0].stats.complianceRate] + Rates(ws[1..])
  }

  /** `worker_compliance.get(id)` */
  function Lookup(ws: seq<Worker>, id: Value): Option<WorkerStats>
  {
    if ws == [] then None
    else if ws[0].id == id then Some(ws[0].stats)
    else Lookup(ws[1..], id)
  }

  /** `worker_compliance[id] = stats`: an existing entry keeps its place, a new one goes
      last. */
  function Recorded(ws: seq<Worker>, id: Value, stats: WorkerStats): (r: seq<Worker>)
    ensures r != []
  {
    if ws == [] then [Worker(id, stats)]
    else if ws[0].id == id then [Worker(id, stats)] + ws[1..]
    else [ws[0]] + Recorded(ws[1..], id, stats)
  }

  predicate Distinct(ids: seq<Value>)
  {
    forall i, j :: 0 <= i < j < |ids| ==> ids[i] != ids[j]
  }

  /** A dict key must be hashable: lists and dicts are not. */
  predicate Hashable(v: Value)
  {
    !v.Arr? && !v.Obj?
  }

  /** What `update` needs of its inputs: `violations_count` compares with 0, the
      compliance rate is summed, and the worker id is a dict key. */
  predicate UpdateInputs(prediction: Dict, logicOutput: Dict)
  {
    IsNumber(Get(logicOutput, "violations_count", Int(0)))
    && IsNumber(Get(prediction, "compliance_rate", Num(100.0)))
    && Hashable(WorkerId(SM.Combined(prediction, logicOutput, "")))
  }

  /** `logic_output.get('violations_count', 0) > 0` */
  predicate Violated(logicOutput: Dict)
    requires IsNumber(Get(logicOutput, "violations_count", Int(0)))
  {
    AsReal(Get(logicOutput, "violations_count", Int(0))).value > 0.0
  }

  /** `prediction.get('compliance_rate', 100.0)` */
  function Rate(prediction: Dict): real
    requires IsNumber(Get(prediction, "compliance_rate", Num(100.0)))
  {
    AsReal(Get(prediction, "compliance_rate", Num(100.0))).value
  }

  function WorkerId(combined: Dict): Value
  {
    Get(combined, "worker_id", Str("unknown"))
  }

  function Status(level: Value): string
  {
    if level == Str("CRITICAL") then "critical"
    else if level == Str("WARNING") then "warning"
    else "active"
  }

  /** The worker's entry after one update: created fresh if new, one more violation
      stamped `now` when the logic counted any, and the prediction's rate. */
  function WorkerAfter(before: Option<WorkerStats>, violated: bool, rate: real, now: string): WorkerStats
  {
    var s := match before case None => FreshWorker case Some(b) => b;
    var s' := if violated then s.(violations := s.violations + 1, lastViolation := Some(now)) else s;
    s'.(complianceRate := rate)
  }

  /** The custom state after `update(prediction, logic_output)` at time `now`. */
  function Updated(c: PpeCustom, prediction: Dict, logicOutput: Dict, now: string): PpeCustom
    requires UpdateInputs(prediction, logicOutput)
  {
    var level := Get(logicOutput, "alert_level", Str("NORMAL"));
    var id := WorkerId(SM.Combined(prediction, logicOutput, now));
    var violated := Violated(logicOutput);
    var rate := Rate(prediction);
    var workers := Recorded(c.workers, id, WorkerAfter(Lookup(c.workers, id), violated, rate, now));
    var history :=
      if violated then c.violationHistory + [ViolationRecord(id, Get(logicOutput, "violations", Arr([])), now)]
      else c.violationHistory;
    var denied := if Truthy(Get(logicOutput, "access_denied", Bool(false))) then c.accessDeniedCount + 1
                  else c.accessDeniedCount;
    PpeCustom(level, workers, history, denied, Mean(Rates(workers)))
  }

  /** The overall rate is the mean of the workers' rates (100 with no worker yet), and
      each worker appears once. */
  predicate Coherent(c: PpeCustom)
  {
    Distinct(Ids(c.workers))
    && c.overallComplianceRate == (if c.workers == [] then 100.0 else Mean(Rates(c.workers)))
  }

  class PpeState {
    const manager: SM.StateManager
    var lastAlertLevel: Value
    var workers: seq<Worker>
    var violationHistory: seq<ViolationRecord>
    var accessDeniedCount: nat
    var overallComplianceRate: real

    function Custom(): PpeCustom
      reads this
    {
      PpeCustom(lastAlertLevel, workers, violationHistory, accessDeniedCount, overallComplianceRate)
    }

    predicate Valid()
      reads this, manager
    {
      manager.Valid() && Coherent(Custom())
    }

    constructor (agentId: string, bufferSize: nat, checkpointInterval: int, now: int)
      ensures fresh(manager) && manager.bufferSize == bufferSize
      ensures manager.State() == SM.Initial(agentId, now) && Custom() == InitialCustom && Valid()
    {
      manager := new SM.StateManager(agentId, bufferSize, checkpointInterval, now);
      lastAlertLevel := Str("NORMAL");
      workers := [];
      violationHistory := [];
      accessDeniedCount := 0;
      overallComplianceRate := 100.0;
    }

    /** `update`: the manager records the merged prediction, then the worker's entry,
        the logs and the counters follow the logic's output. */
    method Update(prediction: Dict, logicOutput: Dict, success: bool, now: string)
      requires Valid() && UpdateInputs(prediction, logicOutput)
      modifies this, manager
      ensures Custom() == Updated(old(Custom()), prediction, logicOutput, now) && Valid()
      ensures manager.State()
           == SM.Updated(old(manager.State()), Obj(SM.Combined(prediction, logicOutput, now)), success,
                         manager.bufferSize).(status := Status(lastAlertLevel))
    {
      manager.Update(Obj(SM.Combined(prediction, logicOutput, now)), success);
      UpdateCustom(prediction, logicOutput, now);
      manager.status := Status(lastAlertLevel);
    }

    /** The PPE half of `update`. */
    method UpdateCustom(prediction: Dict, logicOutput: Dict, now: string)
      requires Coherent(Custom()) && UpdateInputs(prediction, logicOutput)
      modifies this
      ensures Custom() == Updated(old(Custom()), prediction, logicOutput, now) && Coherent(Custom())
    {
      ghost var before := Custom();
      ghost var after := Updated(before, prediction, logicOutput, now);
      UpdateCoherent(before, prediction, logicOutput, now);
      var level := Get(logicOutput, "alert_level", Str("NORMAL"));
      lastAlertLevel := level;
      var id := WorkerId(SM.Combined(prediction, logicOutput, now));
      var violated := Violated(logicOutput);
      if violated {
        violationHistory := violationHistory + [ViolationRecord(id, Get(logicOutput, "violations", Arr([])), now)];
      }
      assert violationHistory == after.violationHistory;
      var rate := Rate(prediction);
      var stats := WorkerAfter(Lookup(workers, id), violated, rate, now);
      workers := Recorded(workers, id, stats);
      assert workers == after.workers;
      overallComplianceRate := Mean(Rates(workers));
      if Truthy(Get(logicOutput, "access_denied", Bool(false))) {
        accessDeniedCount := accessDeniedCount + 1;
      }
      assert Custom() == after;
    }

    /** `reset`: the manager's reset, then the initial PPE state. */
    method Reset(now: int)
      requires Valid()
      modifies this, manager
      ensures manager.State() == SM.Reset(old(manager.State()), now)
      ensures Custom() == InitialCustom && Valid()
    {
      manager.ResetState(now);
      lastAlertLevel := Str("NORMAL");
      workers := [];
      violationHistory := [];
      accessDeniedCount := 0;
      overallComplianceRate := 100.0;
    }
  }

  // ---------------------------------------------------------------- properties

  lemma {:induction false} RecordedLookup(ws: seq<Worker>, id: Value, stats: WorkerStats, other: Value)
    ensures Lookup(Recorded(ws, id, stats), id) == Some(stats)
    ensures other != id ==> Lookup(Recorded(ws, id, stats), other) == Lookup(ws, other)
  {
    if ws != [] && ws[0].id != id {
      RecordedLookup(ws[1..], id, stats, other);
    }
  }

  lemma {:induction false} RecordedIds(ws: seq<Worker>, id: Value, stats: WorkerStats)
    ensures Ids(Recorded(ws, id, stats)) == if Lookup(ws, id).Some? then Ids(ws) else Ids(ws) + [id]
  {
    if ws != [] && ws[0].id != id {
      RecordedIds(ws[1..], id, stats);
    }
  }

  lemma {:induction false} LookupIds(ws: seq<Worker>, id: Value)
    ensures Lookup(ws, id).Some? <==> id in Ids(ws)
  {
    if ws != [] {
      LookupIds(ws[1..], id);
    }
  }

  lemma DistinctRecorded(ws: seq<Worker>, id: Value, stats: WorkerStats)
    requires Distinct(Ids(ws))
    ensures Distinct(Ids(Recorded(ws, id, stats)))
  {
    RecordedIds(ws, id, stats);
    LookupIds(ws, id);
  }

  /** Updating keeps every worker once and the overall rate the mean of their rates. */
  lemma UpdateCoherent(c: PpeCustom, prediction: Dict, logicOutput: Dict, now: string)
    requires Coherent(c) && UpdateInputs(prediction, logicOutput)
    ensures Coherent(Updated(c, prediction, logicOutput, now))
  {
    var id := WorkerId(SM.Combined(prediction, logicOutput, now));
    var violated := Violated(logicOutput);
    var rate := Rate(prediction);
    DistinctRecorded(c.workers, id, WorkerAfter(Lookup(c.workers, id), violated, rate, now));
  }

  /** The worker a prediction is about: the logic's `worker_id`, else the prediction's,
      else "unknown". */
  lemma WorkerIdSource(prediction: Dict, logicOutput: Dict, now: string)
    ensures var id := WorkerId(SM.Combined(prediction, logicOutput, now));
      ("worker_id" in logicOutput ==> id == logicOutput["worker_id"])
      && ("worker_id" !in logicOutput && "worker_id" in prediction ==> id == prediction["worker_id"])
      && ("worker_id" !in logicOutput && "worker_id" !in prediction ==> id == Str("unknown"))
  {
  }

  /** A worker seen for the first time starts from no violations and a rate of 100;
      either way the entry counts one more violation, stamped now, exactly when the
      logic reports any, and takes the prediction's rate (100 when absent). */
  lemma WorkerEntry(c: PpeCustom, prediction: Dict, logicOutput: Dict, now: string)
    requires UpdateInputs(prediction, logicOutput)
    ensures var id := WorkerId(SM.Combined(prediction, logicOutput, now));
      var violated := Violated(logicOutput);
      var before := match Lookup(c.workers, id) case None => FreshWorker case Some(s) => s;
      var after := Lookup(Updated(c, prediction, logicOutput, now).workers, id);
      after.Some?
      && after.value.violations == (if violated then before.violations + 1 else before.violations)
      && after.value.lastViolation == (if violated then Some(now) else before.lastViolation)
      && ("compliance_rate" !in prediction ==> after.value.complianceRate == 100.0)
      && (forall r :: Get(prediction, "compliance_rate", Num(100.0)) == Num(r) ==> after.value.complianceRate == r)
  {
    var id := WorkerId(SM.Combined(prediction, logicOutput, now));
    var violated := Violated(logicOutput);
    var rate := Rate(prediction);
    RecordedLookup(c.workers, id, WorkerAfter(Lookup(c.workers, id), violated, rate, now), id);
  }

  /** Every other worker's entry is left as it was. */
  lemma OtherWorkersUnchanged(c: PpeCustom, prediction: Dict, logicOutput: Dict, now: string, other: Value)
    requires UpdateInputs(prediction, logicOutput)
    requires other != WorkerId(SM.Combined(prediction, logicOutput, now))
    ensures Lookup(Updated(c, prediction, logicOutput, now).workers, other) == Lookup(c.workers, other)
  {
    var id := WorkerId(SM.Combined(prediction, logicOutput, now));
    var violated := Violated(logicOutput);
    var rate := Rate(prediction);
    RecordedLookup(c.workers, id, WorkerAfter(Lookup(c.workers, id), violated, rate, now), other);
  }

  /** The violation log grows by one record exactly when the logic counted violations;
      access denials are counted exactly when the logic denies access; the alert level
      is remembered and sets the status. */
  lemma Counters(c: PpeCustom, prediction: Dict, logicOutput: Dict, now: string)
    requires UpdateInputs(prediction, logicOutput)
    ensures var t := Updated(c, prediction, logicOutput, now);
      var violated := Violated(logicOutput);
      (|t.violationHistory| == |c.violationHistory| + 1 <==> violated)
      && (!violated ==> t.violationHistory == c.violationHistory)
      && t.violationHistory[..|c.violationHistory|] == c.violationHistory
      && (t.accessDeniedCount == c.accessDeniedCount + 1 <==> Truthy(Get(logicOutput, "access_denied", Bool(false))))
      && (t.accessDeniedCount == c.accessDeniedCount || t.accessDeniedCount == c.accessDeniedCount + 1)
      && t.lastAlertLevel == Get(logicOutput, "alert_level", Str("NORMAL"))
  {
  }

  lemma StatusCases(level: Value)
    ensures Status(level) == "critical" <==> level == Str("CRITICAL")
    ensures Status(level) == "warning" <==> level == Str("WARNING")
    ensures Status(level) == "active" <==> level != Str("CRITICAL") && level != Str("WARNING")
  {
  }

  lemma {:induction false} RatesIn(ws: seq<Worker>, i: nat)
    requires i < |ws|
    ensures Rates(ws)[i] == ws[i].stats.complianceRate
  {
    if i > 0 {
      RatesIn(ws[1..], i - 1);
    }
  }

  /** With every worker's rate a percentage, so is the overall rate. */
  lemma OverallRateBounds(c: PpeCustom)
    requires Coherent(c)
    requires forall i :: 0 <= i < |c.workers| ==> 0.0 <= c.workers[i].stats.complianceRate <= 100.0
    ensures 0.0 <= c.overallComplianceRate <= 100.0
  {
    if c.workers != [] {
      forall i | 0 <= i < |Rates(c.workers)|
        ensures 0.0 <= Rates(c.workers)[i] <= 100.0
      {
        RatesIn(c.workers, i);
      }
      MeanBounds(Rates(c.workers), 0.0, 100.0);
    }
  }

  /** The first update of a fresh state: one worker, whose rate is the overall rate. */
  lemma FirstUpdate(prediction: Dict, logicOutput: Dict, now: string)
    requires UpdateInputs(prediction, logicOutput)
    ensures var t := Updated(InitialCustom, prediction, logicOutput, now);
      |t.workers| == 1 && t.overallComplianceRate == t.workers[0].stats.complianceRate
  {
    var t := Updated(InitialCustom, prediction, logicOutput, now);
    assert Rates(t.workers) == [t.workers[0].stats.complianceRate];
    assert Rates(t.workers)[..0] == [];
    assert Sum(Rates(t.workers)) == t.workers[0].stats.complianceRate;
  }
}
