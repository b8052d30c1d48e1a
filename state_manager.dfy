// The state every agent keeps: a status, prediction counters and metrics, a bounded
// history of recent predictions, and agent-specific custom state; with a dictionary
// form to save and restore it. Times are whole seconds from a clock passed in.

module StateManagement {
  import opened PyValues

  datatype Metrics = Metrics(total: int, successful: int, failed: int, averageLatencyMs: real)

  const ZeroMetrics := Metrics(0, 0, 0, 0.0)

  /** The manager's state as a value: what `to_dict` saves, less the clock readings. */
  datatype ManagerState = ManagerState(
    agentId: string, status: string, uptimeStart: int, predictionsMade: int, errors: int,
    lastPrediction: Value, history: seq<Value>, metrics: Metrics, customState: Dict)

  /** A saved state as `from_dict` reads it: None for a key that is absent. `to_dict`
      writes every key; a file may lack some. */
  datatype StateDict = StateDict(
    agentId: Option<string>, status: Option<string>, uptime: Option<int>,
    predictionsMade: Option<int>, errors: Option<int>, lastPrediction: Option<Value>,
    predictionHistory: Option<seq<Value>>, metrics: Option<Metrics>, customState: Option<Dict>)

  function OrElse<T>(o: Option<T>, default: T): T
  {
    match o case None => default case Some(v) => v
  }

  /** The newest `n` entries of a history: `deque(history[-n:], maxlen=n)`. */
  function Newest<T>(h: seq<T>, n: nat): (r: seq<T>)
    ensures |r| == if |h| <= n then |h| else n
  {
    if |h| <= n then h else h[|h| - n..]
  }

  /** Counters agree: every prediction is counted once as a success or a failure, and
      each failure is an error. */
  predicate Consistent(s: ManagerState)
  {
    s.metrics.total == s.metrics.successful + s.metrics.failed == s.predictionsMade
    && s.errors == s.metrics.failed
  }

  function Initial(agentId: string, now: int): (s: ManagerState)
  {
    ManagerState(agentId, "initializing", now, 0, 0, Null, [], ZeroMetrics, map[])
  }

  /** `update`: both prediction counters grow by one; a success is recorded as the last
      prediction and joins the bounded history, a failure counts as an error. */
  function Updated(s: ManagerState, prediction: Value, success: bool, bufferSize: nat): (t: ManagerState)
    ensures t.predictionsMade == s.predictionsMade + 1 && t.metrics.total == s.metrics.total + 1
    ensures success ==>
      t.metrics.successful == s.metrics.successful + 1 && t.metrics.failed == s.metrics.failed
      && t.errors == s.errors && t.lastPrediction == prediction
      && (bufferSize > 0 ==> |t.history| > 0 && t.history[|t.history| - 1] == prediction)
    ensures !success ==>
      t.metrics.failed == s.metrics.failed + 1 && t.metrics.successful == s.metrics.successful
      && t.errors == s.errors + 1 && t.history == s.history && t.lastPrediction == s.lastPrediction
    ensures t.agentId == s.agentId && t.status == s.status && t.customState == s.customState
    ensures Consistent(s) ==> Consistent(t)
  {
    var m := s.metrics.(total := s.metrics.total + 1);
    if success then
      s.(predictionsMade := s.predictionsMade + 1, metrics := m.(successful := m.successful + 1),
         lastPrediction := prediction, history := Push(s.history, prediction, bufferSize))
    else
      s.(predictionsMade := s.predictionsMade + 1, metrics := m.(failed := m.failed + 1), errors := s.errors + 1)
  }

  /** `to_dict`, with the uptime at time `now`. */
  function ToDict(s: ManagerState, now: int): (d: StateDict)
    ensures d.agentId.Some? && d.status.Some? && d.uptime.Some? && d.predictionsMade.Some? && d.errors.Some?
            && d.lastPrediction.Some? && d.predictionHistory.Some? && d.metrics.Some? && d.customState.Some?
    ensures d.uptime.value == now - s.uptimeStart
  {
    StateDict(Some(s.agentId), Some(s.status), Some(now - s.uptimeStart), Some(s.predictionsMade),
              Some(s.errors), Some(s.lastPrediction), Some(s.history), Some(s.metrics), Some(s.customState))
  }

  /** `from_dict`: each key read with its default (the agent id and the metrics default
      to the current ones), and only the newest `bufferSize` history entries kept. The
      uptime clock is not restored. */
  function FromDict(s: ManagerState, d: StateDict, bufferSize: nat): (t: ManagerState)
    ensures |t.history| <= bufferSize && t.uptimeStart == s.uptimeStart
    ensures d.agentId.None? ==> t.agentId == s.agentId
    ensures d.metrics.None? ==> t.metrics == s.metrics
    ensures d.status.None? ==> t.status == "unknown"
    ensures d.predictionHistory.None? ==> t.history == []
    ensures d.predictionHistory.Some? ==>
      var h := d.predictionHistory.value;
      |t.history| <= |h| && t.history == h[|h| - |t.history|..]
  {
    ManagerState(OrElse(d.agentId, s.agentId), OrElse(d.status, "unknown"), s.uptimeStart,
                 OrElse(d.predictionsMade, 0), OrElse(d.errors, 0), OrElse(d.lastPrediction, Null),
                 Newest(OrElse(d.predictionHistory, []), bufferSize), OrElse(d.metrics, s.metrics),
                 OrElse(d.customState, map[]))
  }

  /** `reset`: active, counters and metrics zero, no history, no custom state, and the
      uptime clock restarted. */
  function Reset(s: ManagerState, now: int): (t: ManagerState)
    ensures t.agentId == s.agentId && t.status == "active" && t.uptimeStart == now
    ensures t.predictionsMade == 0 && t.errors == 0 && t.metrics == ZeroMetrics
    ensures t.history == [] && t.lastPrediction == Null && t.customState == map[]
    ensures Consistent(t)
  {
    ManagerState(s.agentId, "active", now, 0, 0, Null, [], ZeroMetrics, map[])
  }

  /** `{**prediction, **logic_output, "timestamp": now}`: later entries win. */
  function Combined(prediction: Dict, logicOutput: Dict, now: string): Dict
  {
    prediction + logicOutput + map["timestamp" := Str(now)]
  }

  /** The merged record holds every key of both, the logic's value winning, and the
      time stamp over both. */
  lemma CombinedEntries(prediction: Dict, logicOutput: Dict, now: string)
    ensures var c := Combined(prediction, logicOutput, now);
      c.Keys == prediction.Keys + logicOutput.Keys + {"timestamp"}
      && c["timestamp"] == Str(now)
      && (forall k :: k in logicOutput && k != "timestamp" ==> c[k] == logicOutput[k])
      && (forall k :: k in prediction && k !in logicOutput && k != "timestamp" ==> c[k] == prediction[k])
  {
  }

  class StateManager {
    var agentId: string
    const bufferSize: nat
    const checkpointInterval: int
    var status: string
    var uptimeStart: int
    var predictionsMade: int
    var errors: int
    /** The recent successful predictions, oldest first. */
    var predictionHistory: seq<Value>
    /** The last successful prediction, Null for none. */
    var lastPrediction: Value
    var metrics: Metrics
    var customState: Dict

    function State(): ManagerState
      reads this
    {
      ManagerState(agentId, status, uptimeStart, predictionsMade, errors, lastPrediction,
                   predictionHistory, metrics, customState)
    }

    predicate Valid()
      reads this
    {
      |predictionHistory| <= bufferSize
    }

    constructor (agentId: string, bufferSize: nat, checkpointInterval: int, now: int)
      ensures this.bufferSize == bufferSize && this.checkpointInterval == checkpointInterval
      ensures State() == Initial(agentId, now) && Valid()
    {
      this.agentId := agentId;
      this.bufferSize := bufferSize;
      this.checkpointInterval := checkpointInterval;
      status := "initializing";
      uptimeStart := now;
      predictionsMade := 0;
      errors := 0;
      predictionHistory := [];
      lastPrediction := Null;
      metrics := ZeroMetrics;
      customState := map[];
    }

    method Update(prediction: Value, success: bool)
      requires Valid()
      modifies this
      ensures State() == Updated(old(State()), prediction, success, bufferSize) && Valid()
    {
      var next := Updated(State(), prediction, success, bufferSize);
      predictionsMade := next.predictionsMade;
      errors := next.errors;
      metrics := next.metrics;
      lastPrediction := next.lastPrediction;
      predictionHistory := next.history;
    }

    /** `get_uptime` */
    method Uptime(now: int) returns (seconds: int)
      ensures seconds == now - uptimeStart
    {
      seconds := now - uptimeStart;
    }

    method AsDict(now: int) returns (d: StateDict)
      ensures d == ToDict(State(), now)
    {
      d := StateDict(Some(agentId), Some(status), Some(now - uptimeStart), Some(predictionsMade),
                     Some(errors), Some(lastPrediction), Some(predictionHistory), Some(metrics), Some(customState));
    }

    method LoadDict(d: StateDict)
      modifies this
      ensures State() == FromDict(old(State()), d, bufferSize) && Valid()
    {
      var next := FromDict(State(), d, bufferSize);
      agentId := next.agentId;
      status := next.status;
      predictionsMade := next.predictionsMade;
      errors := next.errors;
      lastPrediction := next.lastPrediction;
      predictionHistory := next.history;
      metrics := next.metrics;
      customState := next.customState;
    }

    method ResetState(now: int)
      modifies this
      ensures State() == Reset(old(State()), now) && Valid()
    {
      status := "active";
      uptimeStart := now;
      predictionsMade := 0;
      errors := 0;
      predictionHistory := [];
      lastPrediction := Null;
      metrics := ZeroMetrics;
      customState := map[];
    }
  }

  // ---------------------------------------------------------------- properties

  /** The counters stay consistent from construction and reset on, whatever the updates. */
  lemma {:induction false} ConsistentAfterUpdates(s: ManagerState, predictions: seq<Value>, outcomes: seq<bool>,
                                                  bufferSize: nat)
    requires Consistent(s) && |predictions| == |outcomes|
    ensures Consistent(UpdatedAll(s, predictions, outcomes, bufferSize))
    ensures UpdatedAll(s, predictions, outcomes, bufferSize).predictionsMade == s.predictionsMade + |predictions|
  {
    if predictions != [] {
      var n := |predictions| - 1;
      ConsistentAfterUpdates(s, predictions[..n], outcomes[..n], bufferSize);
    }
  }

  /** A run of updates, oldest first. */
  function UpdatedAll(s: ManagerState, predictions: seq<Value>, outcomes: seq<bool>, bufferSize: nat): ManagerState
    requires |predictions| == |outcomes|
  {
    if predictions == [] then s
    else
      var n := |predictions| - 1;
      Updated(UpdatedAll(s, predictions[..n], outcomes[..n], bufferSize), predictions[n], outcomes[n], bufferSize)
  }

  lemma FreshStatesConsistent(agentId: string, s: ManagerState, now: int)
    ensures Consistent(Initial(agentId, now)) && Consistent(Reset(s, now))
  {
  }

  /** The history never exceeds the buffer; appending to a full one drops its oldest
      entry. */
  lemma HistoryBounded(s: ManagerState, prediction: Value, bufferSize: nat)
    requires |s.history| <= bufferSize
    ensures |Updated(s, prediction, true, bufferSize).history| <= bufferSize
    ensures |s.history| == bufferSize > 0 ==>
      Updated(s, prediction, true, bufferSize).history == s.history[1..] + [prediction]
  {
    if |s.history| == bufferSize > 0 {
      assert (s.history + [prediction])[1..] == s.history[1..] + [prediction];
    }
  }

  /** Saving and restoring gives back the same state, for a history within the buffer. */
  lemma RoundTrip(s: ManagerState, current: ManagerState, now: int, bufferSize: nat)
    requires |s.history| <= bufferSize
    ensures FromDict(current, ToDict(s, now), bufferSize) == s.(uptimeStart := current.uptimeStart)
  {
  }

  /** Restoring an empty dictionary: the current agent id and metrics, status
      "unknown", nothing else. */
  lemma RestoreDefaults(current: ManagerState, bufferSize: nat)
    ensures FromDict(current, StateDict(None, None, None, None, None, None, None, None, None), bufferSize)
         == ManagerState(current.agentId, "unknown", current.uptimeStart, 0, 0, Null, [], current.metrics, map[])
  {
  }

  /** A saved history longer than the buffer is cut to its newest entries. */
  lemma RestoreKeepsNewest(current: ManagerState, d: StateDict, bufferSize: nat)
    requires d.predictionHistory.Some? && |d.predictionHistory.value| > bufferSize
    ensures var h := FromDict(current, d, bufferSize).history;
      |h| == bufferSize && h == d.predictionHistory.value[|d.predictionHistory.value| - bufferSize..]
  {
  }
}
