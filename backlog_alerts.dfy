// The backlog agent's alert component: a generated shift backlog whose shift status
// is CRITICAL or WARNING becomes an alert, routed when channels are configured and
// published on "alerts/<agent>" when the client is connected. Every failure inside
// the handler is caught and logged, and ends the handling.

module BacklogAlerting {
  import opened PyValues
  import opened AlertRouting

  /** `backlog.get('statistics', {}).get('shift_status', 'NORMAL')`; None where the
      statistics are not a dict, which has no `get`. */
  function ShiftStatus(backlog: Dict): Option<Value>
  {
    match Get(backlog, "statistics", Obj(map[]))
    case Obj(stats) => Some(Get(stats, "shift_status", Str("NORMAL")))
    case _ => None
  }

  /** The shift statuses that raise an alert. */
  const Alerting: seq<Value> := [Str("CRITICAL"), Str("WARNING")]

  /** The alert document for a backlog, given its shift status and the number of
      priority items. */
  function AlertDict(agentId: string, status: Value, backlog: Dict, priorityItems: nat): Dict
  {
    map["agent_id" := Str(agentId),
        "severity" := Str(if status == Str("CRITICAL") then "CRITICAL" else "WARNING"),
        "alert_level" := status,
        "timestamp" := Get(backlog, "generated_at", Null),
        "message" := Str("Shift backlog generated: " + PyStr(Get(backlog, "summary", Str("")))),
        "data" := Obj(map["backlog_id" := Get(backlog, "backlog_id", Null),
                          "total_violations" := Get(backlog, "total_violations", Int(0)),
                          "total_anomalies" := Get(backlog, "total_anomalies", Int(0)),
                          "priority_items_count" := Int(priorityItems)])]
  }

  /** The alert `handle_backlog_generated` builds, or None when the shift is not
      critical or warning, or building the alert raises. */
  function Alert(agentId: string, backlog: Dict): Option<Dict>
  {
    match ShiftStatus(backlog)
    case None => None
    case Some(status) =>
      if status !in Alerting then None
      else
        match Len(Get(backlog, "priority_items", Arr([])))
        case None => None
        case Some(n) => Some(AlertDict(agentId, status, backlog, n))
  }

  /** The channel types the alert reached; with no channels there is no router and the
      alert reaches none. None when there was no alert or the routing raised. */
  function Routed(agentId: string, channels: seq<Dict>, backlog: Dict, raises: (Value, Dict) -> bool): Option<seq<Value>>
  {
    match Alert(agentId, backlog)
    case None => None
    case Some(alert) => RoutedGroups(Grouped(channels), SeverityOf(alert), raises)
  }

  /** The MQTT publishes of one call: the alert on "alerts/<agent>" when it was routed
      without raising and the client is connected. */
  function Published(agentId: string, channels: seq<Dict>, backlog: Dict, client: ClientLink,
                     raises: (Value, Dict) -> bool): seq<Publication>
  {
    match Alert(agentId, backlog)
    case None => []
    case Some(alert) =>
      if RoutedGroups(Grouped(channels), SeverityOf(alert), raises).None? then []
      else if client == Client(true) then [Publication(Str("alerts/" + agentId), alert)]
      else []
  }

  class BacklogAlerts {
    const agentId: string
    /** `config.get('channels')`, absent taken as empty. */
    const channels: seq<Dict>
    /** The router, made only when some channel is configured. */
    const router: AlertRouter?
    /** The MQTT publishes made so far, oldest first. */
    var published: seq<Publication>

    predicate Valid()
    {
      (router == null <==> channels == [])
      && (router != null ==> router.groups == Grouped(channels))
    }

    constructor (agentId: string, channels: seq<Dict>)
      requires HashableTypes(channels)
      ensures Valid() && this.agentId == agentId && this.channels == channels && published == []
    {
      this.agentId := agentId;
      this.channels := channels;
      if channels != [] {
        var r := new AlertRouter(channels);
        router := r;
      } else {
        router := null;
      }
      published := [];
    }

    /** `handle_backlog_generated`: `client` is the MQTT client at the time of the
        call and `raises` says which channel sends raise. */
    method HandleBacklogGenerated(backlog: Dict, client: ClientLink, raises: (Value, Dict) -> bool)
      returns (routed: Option<seq<Value>>)
      requires Valid()
      modifies this
      ensures routed == Routed(agentId, channels, backlog, raises)
      ensures published == old(published) + Published(agentId, channels, backlog, client, raises)
    {
      var status := ShiftStatus(backlog);
      if status.None? || status.value !in Alerting {
        return None;
      }
      var count := Len(Get(backlog, "priority_items", Arr([])));
      if count.None? {
        return None;
      }
      var alert := AlertDict(agentId, status.value, backlog, count.value);
      if router != null {
        routed := router.RouteAlert(alert, raises);
        if routed.None? {
          return;
        }
      } else {
        routed := Some([]);
      }
      if client != NoClient && client.connected {
        published := published + [Publication(Str("alerts/" + agentId), alert)];
      }
    }
  }

  // ---------------------------------------------------------------- properties

  /** Only a CRITICAL or WARNING shift raises an alert, and such a shift always does
      unless the statistics are not a dict or the priority items have no length. */
  lemma AlertRaised(agentId: string, backlog: Dict)
    ensures Alert(agentId, backlog).Some? <==>
      ShiftStatus(backlog).Some? && ShiftStatus(backlog).value in Alerting
      && Len(Get(backlog, "priority_items", Arr([]))).Some?
  {
  }

  /** A backlog without statistics is a NORMAL shift: nothing is routed or published. */
  lemma NoStatisticsSilent(agentId: string, channels: seq<Dict>, backlog: Dict, client: ClientLink,
                           raises: (Value, Dict) -> bool)
    requires "statistics" !in backlog
    ensures ShiftStatus(backlog) == Some(Str("NORMAL"))
    ensures Routed(agentId, channels, backlog, raises).None?
    ensures Published(agentId, channels, backlog, client, raises) == []
  {
  }

  /** The severity is the shift status itself; the alert carries the agent, the
      backlog's time, summary and counts. */
  lemma AlertFields(agentId: string, backlog: Dict)
    requires Alert(agentId, backlog).Some?
    ensures var a := Alert(agentId, backlog).value;
      var status := ShiftStatus(backlog).value;
      a["severity"] == status && a["alert_level"] == status
      && a["agent_id"] == Str(agentId)
      && a["timestamp"] == Get(backlog, "generated_at", Null)
      && a["message"] == Str("Shift backlog generated: " + PyStr(Get(backlog, "summary", Str(""))))
  {
  }

  /** The data holds the backlog id, both totals (0 where missing) and the number of
      priority items (0 where missing). */
  lemma AlertData(agentId: string, backlog: Dict)
    requires Alert(agentId, backlog).Some?
    ensures var data := Alert(agentId, backlog).value["data"];
      data.Obj? && data.fields.Keys == {"backlog_id", "total_violations", "total_anomalies", "priority_items_count"}
      && data.fields["backlog_id"] == Get(backlog, "backlog_id", Null)
      && data.fields["total_violations"] == Get(backlog, "total_violations", Int(0))
      && data.fields["total_anomalies"] == Get(backlog, "total_anomalies", Int(0))
      && Some(data.fields["priority_items_count"].i) == Len(Get(backlog, "priority_items", Arr([])))
      && ("priority_items" !in backlog ==> data.fields["priority_items_count"] == Int(0))
  {
  }

  /** With no channel configured no router exists, and the alert reaches no channel
      but is still published. */
  lemma NoChannels(agentId: string, backlog: Dict, client: ClientLink, raises: (Value, Dict) -> bool)
    requires Alert(agentId, backlog).Some?
    ensures Routed(agentId, [], backlog, raises) == Some([])
    ensures Published(agentId, [], backlog, client, raises) ==
      if client == Client(true) then [Publication(Str("alerts/" + agentId), Alert(agentId, backlog).value)] else []
  {
  }

  /** An alert is published once, on "alerts/<agent>" whatever the channels say,
      exactly when it was routed and the client is connected. */
  lemma PublishedCases(agentId: string, channels: seq<Dict>, backlog: Dict, client: ClientLink,
                       raises: (Value, Dict) -> bool)
    ensures var p := Published(agentId, channels, backlog, client, raises);
      |p| <= 1
      && (p != [] <==> Routed(agentId, channels, backlog, raises).Some? && client == Client(true))
      && (p != [] ==> p[0] == Publication(Str("alerts/" + agentId), Alert(agentId, backlog).value))
  {
  }
}
