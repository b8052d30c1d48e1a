// The backlog agent's state: the shared state manager (with a 1000-entry history)
// plus the current shift's start and collected events, a count of generated
// backlogs and a history of the ten newest of them. Times arrive as ISO text.

module BacklogAgentState {
  import opened PyValues
  import SM = StateManagement

  /** An entry of `backlog_history`. */
  datatype HistoryEntry = HistoryEntry(backlogId: Value, generatedAt: Value, shiftPeriod: Value, totalEvents: Value)

  datatype BacklogCustom = BacklogCustom(currentShiftStart: string, shiftEvents: seq<Dict>, backlogsGenerated: nat,
                                         lastBacklogTime: Option<string>, backlogHistory: seq<HistoryEntry>)

  const HistoryBufferSize := 1000
  const BacklogHistoryLimit := 10

  function InitialCustom(now: string): BacklogCustom
  {
    BacklogCustom(now, [], 0, None, [])
  }

  /** The event as collected: stamped with `now` unless it carries a time stamp. */
  function Stamped(event: Dict, now: string): Dict
  {
    if "timestamp" in event then event else event["timestamp" := Str(now)]
  }

  /** `total_violations + total_anomalies`, each 0 when absent; None where the
      addition raises. */
  function TotalEvents(backlog: Dict): Option<Value>
  {
    Plus(Get(backlog, "total_violations", Int(0)), Get(backlog, "total_anomalies", Int(0)))
  }

  /** The history entry of a backlog, None where adding up its counts raises. */
  function Entry(backlog: Dict): Option<HistoryEntry>
  {
    match TotalEvents(backlog)
    case None => None
    case Some(total) =>
      Some(HistoryEntry(Get(backlog, "backlog_id", Str("unknown")), Get(backlog, "generated_at", Null),
                        Get(backlog, "shift_period", Obj(map[])), total))
  }

  /** The custom state after a `record_backlog` at time `now` whose history entry is
      `e`. The count and the time are written before the entry is built, so an
      addition that raises (`e` None) leaves them changed and the history as it was. */
  function Logged(c: BacklogCustom, e: Option<HistoryEntry>, now: string): BacklogCustom
  {
    var counted := c.(backlogsGenerated := c.backlogsGenerated + 1, lastBacklogTime := Some(now));
    match e
    case None => counted
    case Some(entry) => counted.(backlogHistory := SM.Newest(c.backlogHistory + [entry], BacklogHistoryLimit))
  }

  /** The custom state after `record_backlog(backlog)` at time `now`. */
  function Recorded(c: BacklogCustom, backlog: Dict, now: string): BacklogCustom
  {
    Logged(c, Entry(backlog), now)
  }

  function Status(shiftStatus: Value): string
  {
    if shiftStatus == Str("CRITICAL") then "critical"
    else if shiftStatus == Str("WARNING") then "warning"
    else "active"
  }

  function ShiftStatus(logicOutput: Dict): Value
  {
    Get(logicOutput, "shift_status", Str("NORMAL"))
  }

  class BacklogState {
    const manager: SM.StateManager
    const shiftDurationHours: int
    var currentShiftStart: string
    var shiftEvents: seq<Dict>
    var backlogsGenerated: nat
    var lastBacklogTime: Option<string>
    var backlogHistory: seq<HistoryEntry>

    function Custom(): BacklogCustom
      reads this
    {
      BacklogCustom(currentShiftStart, shiftEvents, backlogsGenerated, lastBacklogTime, backlogHistory)
    }

    /** The manager's history is bounded and so is the backlog history. */
    predicate Valid()
      reads this, manager
    {
      manager.Valid() && manager.bufferSize == HistoryBufferSize && |backlogHistory| <= BacklogHistoryLimit
    }

    /** `now` is the clock in seconds, `stamp` the same instant as ISO text. */
    constructor (agentId: string, shiftDurationHours: int, checkpointInterval: int, now: int, stamp: string)
      ensures fresh(manager) && this.shiftDurationHours == shiftDurationHours
      ensures manager.State() == SM.Initial(agentId, now) && Custom() == InitialCustom(stamp) && Valid()
    {
      manager := new SM.StateManager(agentId, HistoryBufferSize, checkpointInterval, now);
      this.shiftDurationHours := shiftDurationHours;
      currentShiftStart := stamp;
      shiftEvents := [];
      backlogsGenerated := 0;
      lastBacklogTime := None;
      backlogHistory := [];
    }

    /** `add_event`: the event, stamped if it has no time stamp, joins the shift. */
    method AddEvent(event: Dict, now: string)
      modifies this
      ensures shiftEvents == old(shiftEvents) + [Stamped(event, now)]
      ensures Custom() == old(Custom()).(shiftEvents := shiftEvents)
    {
      var e := event;
      if "timestamp" !in e {
        e := e["timestamp" := Str(now)];
      }
      shiftEvents := shiftEvents + [e];
    }

    /** `start_new_shift`: the shift starts now, with no events. */
    method StartNewShift(now: string) returns (start: string)
      modifies this
      ensures start == now
      ensures Custom() == old(Custom()).(currentShiftStart := now, shiftEvents := [])
    {
      currentShiftStart := now;
      shiftEvents := [];
      start := now;
    }

    /** `record_backlog`: one more backlog, stamped now, and its summary at the end of
        the history, of which the ten newest are kept. `raised` reports the TypeError
        of counts that do not add up. */
    method RecordBacklog(backlog: Dict, now: string) returns (raised: bool)
      requires Valid()
      modifies this
      ensures raised <==> TotalEvents(backlog).None?
      ensures Custom() == Recorded(old(Custom()), backlog, now) && Valid()
    {
      var id := Get(backlog, "backlog_id", Str("unknown"));
      backlogsGenerated := backlogsGenerated + 1;
      lastBacklogTime := Some(now);
      var total := Plus(Get(backlog, "total_violations", Int(0)), Get(backlog, "total_anomalies", Int(0)));
      if total.None? {
        return true;
      }
      var history := backlogHistory;
      history := history + [HistoryEntry(id, Get(backlog, "generated_at", Null),
                                         Get(backlog, "shift_period", Obj(map[])), total.value)];
      backlogHistory := SM.Newest(history, BacklogHistoryLimit);
      raised := false;
    }

    /** `update`: the manager records the merged prediction and the shift status sets
        the agent's status; the backlog state is untouched. */
    method Update(prediction: Dict, logicOutput: Dict, success: bool, now: string)
      requires Valid()
      modifies manager
      ensures Valid()
      ensures manager.State()
           == SM.Updated(old(manager.State()), Obj(SM.Combined(prediction, logicOutput, now)), success,
                         manager.bufferSize).(status := Status(ShiftStatus(logicOutput)))
    {
      manager.Update(Obj(SM.Combined(prediction, logicOutput, now)), success);
      var shiftStatus := Get(logicOutput, "shift_status", Str("NORMAL"));
      if shiftStatus == Str("CRITICAL") {
        manager.status := "critical";
      } else if shiftStatus == Str("WARNING") {
        manager.status := "warning";
      } else {
        manager.status := "active";
      }
    }

    /** `reset`: the manager's reset, then a fresh shift starting now. */
    method Reset(now: int, stamp: string)
      requires Valid()
      modifies this, manager
      ensures manager.State() == SM.Reset(old(manager.State()), now)
      ensures Custom() == InitialCustom(stamp) && Valid()
    {
      manager.ResetState(now);
      currentShiftStart := stamp;
      shiftEvents := [];
      backlogsGenerated := 0;
      lastBacklogTime := None;
      backlogHistory := [];
    }
  }

  // ---------------------------------------------------------------- properties

  /** A time stamp already on the event is kept; a missing one becomes `now`; no other
      key changes. */
  lemma StampedEvent(event: Dict, now: string)
    ensures var e := Stamped(event, now);
      "timestamp" in e && e.Keys == event.Keys + {"timestamp"}
      && ("timestamp" in event ==> e["timestamp"] == event["timestamp"])
      && ("timestamp" !in event ==> e["timestamp"] == Str(now))
      && forall k :: k in event && k != "timestamp" ==> e[k] == event[k]
  {
  }

  /** Every record counts exactly one backlog; the history keeps at most ten entries,
      the new one last and the older ones in their order. */
  lemma RecordedHistory(c: BacklogCustom, backlog: Dict, now: string)
    requires |c.backlogHistory| <= BacklogHistoryLimit
    ensures var t := Recorded(c, backlog, now);
      var h := t.backlogHistory;
      t.backlogsGenerated == c.backlogsGenerated + 1 && t.lastBacklogTime == Some(now)
      && t.shiftEvents == c.shiftEvents && t.currentShiftStart == c.currentShiftStart
      && (Entry(backlog).None? ==> h == c.backlogHistory)
      && (Entry(backlog).Some? ==>
            |h| == (if |c.backlogHistory| < BacklogHistoryLimit then |c.backlogHistory| + 1 else BacklogHistoryLimit)
            && h[|h| - 1] == Entry(backlog).value
            && (|c.backlogHistory| < BacklogHistoryLimit ==> h == c.backlogHistory + [Entry(backlog).value])
            && (|c.backlogHistory| == BacklogHistoryLimit ==> h == c.backlogHistory[1..] + [Entry(backlog).value]))
  {
    if Entry(backlog).Some? {
      var e := Entry(backlog).value;
      assert Recorded(c, backlog, now).backlogHistory == SM.Newest(c.backlogHistory + [e], BacklogHistoryLimit);
      NewestPush(c.backlogHistory, e, BacklogHistoryLimit);
    }
  }

  lemma NewestPush<T>(h: seq<T>, x: T, n: nat)
    requires 0 < n && |h| <= n
    ensures var r := SM.Newest(h + [x], n);
      |r| == (if |h| < n then |h| + 1 else n) && r[|r| - 1] == x
      && (|h| < n ==> r == h + [x])
      && (|h| == n ==> r == h[1..] + [x])
  {
    if |h| == n {
      assert (h + [x])[1..] == h[1..] + [x];
    }
  }

  /** The entry's total adds up the two counts, a missing one counting as 0; the id
      defaults to "unknown". */
  lemma EntryTotals(backlog: Dict, violations: int, anomalies: int)
    ensures "total_violations" !in backlog && "total_anomalies" !in backlog ==> TotalEvents(backlog) == Some(Int(0))
    ensures Get(backlog, "total_violations", Int(0)) == Int(violations)
         && Get(backlog, "total_anomalies", Int(0)) == Int(anomalies)
         ==> TotalEvents(backlog) == Some(Int(violations + anomalies))
    ensures "total_violations" in backlog && backlog["total_violations"] == Int(violations) && "total_anomalies" !in backlog
         ==> TotalEvents(backlog) == Some(Int(violations))
    ensures "backlog_id" !in backlog && TotalEvents(backlog).Some? ==> Entry(backlog).value.backlogId == Str("unknown")
  {
  }

  /** A count that is text makes the addition raise, so no entry is written. */
  lemma TextCountRaises(backlog: Dict, t: string)
    requires "total_violations" in backlog && backlog["total_violations"] == Str(t) && "total_anomalies" !in backlog
    ensures TotalEvents(backlog).None? && Entry(backlog).None?
  {
  }

  /** The history entries of a run of backlogs, one per backlog, in order. */
  function EntryList(backlogs: seq<Dict>): seq<Option<HistoryEntry>>
  {
    seq(|backlogs|, i requires 0 <= i < |backlogs| => Entry(backlogs[i]))
  }

  /** The custom state after records whose entries are `es`, in order. */
  function LoggedAll(c: BacklogCustom, es: seq<Option<HistoryEntry>>, now: string): BacklogCustom
  {
    if es == [] then c
    else Logged(LoggedAll(c, es[..|es| - 1], now), es[|es| - 1], now)
  }

  /** The entries that were written, in order. */
  function Kept(es: seq<Option<HistoryEntry>>): seq<HistoryEntry>
  {
    if es == [] then []
    else Kept(es[..|es| - 1]) + (if es[|es| - 1].Some? then [es[|es| - 1].value] else [])
  }

  /** The custom state after `record_backlog` on each of the backlogs in turn. */
  function RecordedAll(c: BacklogCustom, backlogs: seq<Dict>, now: string): BacklogCustom
  {
    LoggedAll(c, EntryList(backlogs), now)
  }

  /** The entries of the backlogs whose counts add up, in order. */
  function Entries(backlogs: seq<Dict>): seq<HistoryEntry>
  {
    Kept(EntryList(backlogs))
  }

  /** Over any run of records the count grows by the number of calls, those whose
      entry raised included, and the history holds the newest ten entries written. */
  lemma {:induction false} LoggedRun(c: BacklogCustom, es: seq<Option<HistoryEntry>>, now: string)
    requires |c.backlogHistory| <= BacklogHistoryLimit
    ensures var t := LoggedAll(c, es, now);
      t.backlogsGenerated == c.backlogsGenerated + |es|
      && t.backlogHistory == SM.Newest(c.backlogHistory + Kept(es), BacklogHistoryLimit)
  {
    if es == [] {
      assert c.backlogHistory + [] == c.backlogHistory;
    } else {
      var n := |es| - 1;
      LoggedRun(c, es[..n], now);
      var before := c.backlogHistory + Kept(es[..n]);
      match es[n]
      case None =>
      case Some(e) =>
        NewestAppend(before, e, BacklogHistoryLimit);
        assert c.backlogHistory + Kept(es) == before + [e];
    }
  }

  /** The same for a run of backlogs: the count grows by the number of calls, those
      that raise included, and the history holds the newest ten of all entries ever
      written. */
  lemma RecordedRun(c: BacklogCustom, backlogs: seq<Dict>, now: string)
    requires |c.backlogHistory| <= BacklogHistoryLimit
    ensures var t := RecordedAll(c, backlogs, now);
      t.backlogsGenerated == c.backlogsGenerated + |backlogs|
      && t.backlogHistory == SM.Newest(c.backlogHistory + Entries(backlogs), BacklogHistoryLimit)
  {
    LoggedRun(c, EntryList(backlogs), now);
  }

  /** Keeping the newest n after each append is keeping the newest n at the end. */
  lemma NewestAppend<T>(h: seq<T>, x: T, n: nat)
    ensures SM.Newest(SM.Newest(h, n) + [x], n) == SM.Newest(h + [x], n)
  {
    if |h| > n && n > 0 {
      assert (h[|h| - n..] + [x])[1..] == (h + [x])[|h| + 1 - n..];
    }
  }

  lemma StatusCases(shiftStatus: Value)
    ensures Status(shiftStatus) == "critical" <==> shiftStatus == Str("CRITICAL")
    ensures Status(shiftStatus) == "warning" <==> shiftStatus == Str("WARNING")
    ensures Status(shiftStatus) == "active" <==> shiftStatus != Str("CRITICAL") && shiftStatus != Str("WARNING")
  {
  }
}
