// The cyber agent's alert component: a logic output whose level is
// not NORMAL becomes an alert document, which is routed to the configured channels
// and published on the first MQTT channel's topic when the client is connected.
// Every failure inside the handler is caught and logged, and ends the handling.

module CyberAlerting {
  import opened PyValues
  import opened AlertRouting

  /** `_build_alert_message`; None where the anomaly score cannot be formatted with
      `.2f`. */
  function Message(logic: Dict): Option<string>
  {
    match FormatFixed(Get(logic, "anomaly_score", Num(0.0)), 2)
    case None => None
    case Some(score) =>
      Some("[" + PyStr(Get(logic, "alert_level", Str("UNKNOWN"))) + "] Cyber Threat Alert - Threat: "
           + PyStr(Get(logic, "threat_level", Str("UNKNOWN"))) + ", Anomaly Score: " + score)
  }

  /** The alert document built from a logic output, given its severity and message. */
  function AlertDict(agentId: string, severity: string, logic: Dict, message: string): Dict
  {
    map["agent_id" := Str(agentId), "severity" := Str(severity),
        "alert_level" := Get(logic, "alert_level", Str("NORMAL")),
        "timestamp" := Get(logic, "timestamp", Null),
        "message" := Str(message),
        "data" := Obj(map["threat_level" := Get(logic, "threat_level", Null),
                          "anomaly_score" := Get(logic, "anomaly_score", Null),
                          "consecutive_anomalies" := Get(logic, "consecutive_anomalies", Null),
                          "action" := Get(logic, "action", Null)])]
  }

  /** The alert `handle_alerts` builds, or None when the level is NORMAL or building
      the alert raises. */
  function Alert(agentId: string, logic: Dict): Option<Dict>
  {
    var level := Get(logic, "alert_level", Str("NORMAL"));
    if level == Str("NORMAL") then None
    else
      match SeverityOfLevel(level)
      case None => None
      case Some(severity) =>
        match Message(logic)
        case None => None
        case Some(message) => Some(AlertDict(agentId, severity, logic, message))
  }

  /** The channel types the alert reached, or None when there was no alert or the
      routing raised. */
  function Routed(agentId: string, channels: seq<Dict>, logic: Dict, raises: (Value, Dict) -> bool): Option<seq<Value>>
  {
    match Alert(agentId, logic)
    case None => None
    case Some(alert) => RoutedGroups(Grouped(channels), SeverityOf(alert), raises)
  }

  /** The MQTT publishes one call of `handle_alerts` makes: none unless the alert was
      routed without raising. */
  function Published(agentId: string, channels: seq<Dict>, logic: Dict, client: ClientLink,
                     raises: (Value, Dict) -> bool): seq<Publication>
  {
    match Alert(agentId, logic)
    case None => []
    case Some(alert) =>
      if RoutedGroups(Grouped(channels), SeverityOf(alert), raises).None? then []
      else ChannelPublications(channels, agentId, alert, client)
  }

  class CyberAlerts {
    const agentId: string
    /** `config.get('channels', [])`. */
    const channels: seq<Dict>
    const router: AlertRouter
    /** The MQTT publishes made so far, oldest first. */
    var published: seq<Publication>

    predicate Valid()
    {
      router.groups == Grouped(channels)
    }

    constructor (agentId: string, channels: seq<Dict>)
      requires HashableTypes(channels)
      ensures Valid() && this.agentId == agentId && this.channels == channels && published == []
    {
      this.agentId := agentId;
      this.channels := channels;
      var r := new AlertRouter(channels);
      router := r;
      published := [];
    }

    /** `handle_alerts`: `client` is the MQTT client at the time of the call and
        `raises` says which channel sends raise. */
    method HandleAlerts(logic: Dict, client: ClientLink, raises: (Value, Dict) -> bool)
      returns (routed: Option<seq<Value>>)
      requires Valid()
      modifies this
      ensures routed == Routed(agentId, channels, logic, raises)
      ensures published == old(published) + Published(agentId, channels, logic, client, raises)
    {
      var level := Get(logic, "alert_level", Str("NORMAL"));
      if level == Str("NORMAL") {
        return None;
      }
      var severity := SeverityOfLevel(level);
      if severity.None? {
        return None;
      }
      var message := Message(logic);
      if message.None? {
        return None;
      }
      var alert := AlertDict(agentId, severity.value, logic, message.value);
      routed := router.RouteAlert(alert, raises);
      if routed.None? {
        return;
      }
      if client != NoClient {
        var topic := MqttChannelTopic(channels, agentId);
        if topic.Some? && client == Client(true) {
          published := published + [Publication(topic.value, alert)];
        }
      }
    }
  }

  // ---------------------------------------------------------------- properties

  /** A NORMAL level, or a missing one, raises no alert: nothing is routed or
      published. */
  lemma NormalIsSilent(agentId: string, channels: seq<Dict>, logic: Dict, client: ClientLink,
                       raises: (Value, Dict) -> bool)
    requires Get(logic, "alert_level", Str("NORMAL")) == Str("NORMAL")
    ensures Routed(agentId, channels, logic, raises).None?
    ensures Published(agentId, channels, logic, client, raises) == []
  {
  }

  /** An alert is built exactly when the level is not NORMAL, can be a dict key, and
      the anomaly score is a number. */
  lemma AlertRaised(agentId: string, logic: Dict)
    ensures var level := Get(logic, "alert_level", Str("NORMAL"));
      Alert(agentId, logic).Some? <==>
        level != Str("NORMAL") && !level.Arr? && !level.Obj?
        && IsNumber(Get(logic, "anomaly_score", Num(0.0)))
  {
  }

  /** The alert carries the agent, the mapped severity, the level and timestamp of the
      logic output, and its message. */
  lemma AlertFields(agentId: string, logic: Dict)
    requires Alert(agentId, logic).Some?
    ensures "alert_level" in logic
    ensures var level := logic["alert_level"];
      var a := Alert(agentId, logic).value;
      a == AlertDict(agentId, SeverityOfLevel(level).value, logic, Message(logic).value)
      && a["alert_level"] == level
      && a["agent_id"] == Str(agentId)
      && a["severity"] == Str(SeverityOfLevel(level).value)
      && a["severity"].s in Severities && a["severity"] != Str("NORMAL")
      && a["timestamp"] == Get(logic, "timestamp", Null)
  {
    var level := logic["alert_level"];
    SeverityCases(level);
    AlertDictHeader(agentId, SeverityOfLevel(level).value, logic, Message(logic).value);
  }

  lemma AlertDictHeader(agentId: string, severity: string, logic: Dict, message: string)
    ensures var a := AlertDict(agentId, severity, logic, message);
      a["alert_level"] == Get(logic, "alert_level", Str("NORMAL")) && a["agent_id"] == Str(agentId)
      && a["severity"] == Str(severity) && a["timestamp"] == Get(logic, "timestamp", Null)
  {
  }

  /** The alert's data holds the four threat fields of the logic output, null where
      missing, and nothing else. */
  lemma AlertData(agentId: string, severity: string, logic: Dict, message: string)
    ensures var data := AlertDict(agentId, severity, logic, message)["data"];
      data.Obj? && data.fields.Keys ==
        {"threat_level", "anomaly_score", "consecutive_anomalies", "action"}
      && (forall k :: k in data.fields ==> data.fields[k] == Get(logic, k, Null))
  {
  }

  /** The message names the level, the threat and the anomaly score to two decimals;
      a missing score reads as 0.00. */
  lemma MissingScore(logic: Dict)
    requires "anomaly_score" !in logic && "alert_level" in logic && "threat_level" in logic
    ensures Message(logic) == Some("[" + PyStr(logic["alert_level"]) + "] Cyber Threat Alert - Threat: "
                                   + PyStr(logic["threat_level"]) + ", Anomaly Score: 0.00")
  {
    FixedWhole(0, 2);
    assert NatText(0) + ("." + Zeros(2)) == "0.00";
    assert FormatFixed(Get(logic, "anomaly_score", Num(0.0)), 2) == Some("0.00");
    var head := "[" + PyStr(logic["alert_level"]) + "] Cyber Threat Alert - Threat: " + PyStr(logic["threat_level"]);
    assert head + ", Anomaly Score: " + "0.00" == head + ", Anomaly Score: 0.00";
  }

  /** A score half-way between two hundredths is rounded to the even one. */
  lemma TieScore(logic: Dict)
    requires Get(logic, "anomaly_score", Num(0.0)) == Num(0.125)
    ensures Message(logic).Some? && Message(logic).value[|Message(logic).value| - 4..] == "0.12"
  {
    FixedTies();
  }

  /** A text score makes the message raise: no alert is routed or published. */
  lemma TextScoreSilent(agentId: string, channels: seq<Dict>, logic: Dict, client: ClientLink,
                        raises: (Value, Dict) -> bool, s: string)
    requires Get(logic, "anomaly_score", Num(0.0)) == Str(s)
    ensures Routed(agentId, channels, logic, raises).None?
    ensures Published(agentId, channels, logic, client, raises) == []
  {
  }

  /** A routed alert is published once exactly when an MQTT channel is configured and
      the client is connected; a routing failure publishes nothing. */
  lemma PublishedCases(agentId: string, channels: seq<Dict>, logic: Dict, client: ClientLink,
                       raises: (Value, Dict) -> bool)
    ensures var p := Published(agentId, channels, logic, client, raises);
      |p| <= 1
      && (p != [] <==> Routed(agentId, channels, logic, raises).Some? && client == Client(true)
                       && exists i :: 0 <= i < |channels| && TypeOf(channels[i]) == Str("mqtt"))
      && (p != [] ==> p[0].alert == Alert(agentId, logic).value
                      && Some(p[0].topic) == MqttChannelTopic(channels, agentId))
  {
    match Alert(agentId, logic)
    case None =>
    case Some(alert) =>
      PublishGating(channels, agentId, alert, client);
  }
}
