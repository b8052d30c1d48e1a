// The predictive-maintenance agent's alert component: a logic output whose level is
// not NORMAL becomes an alert document, which is routed to the configured channels
// and published on the first MQTT channel's topic when the client is connected.
// Every failure inside the handler is caught and logged, and ends the handling.

module PmAlerting {
  import opened PyValues
  import opened AlertRouting

  /** `_build_alert_message`; None where the remaining life cannot be formatted with
      `.1f`. */
  function Message(logic: Dict): Option<string>
  {
    match FormatFixed(Get(logic, "rul_hours", Num(0.0)), 1)
    case None => None
    case Some(rul) =>
      Some("[" + PyStr(Get(logic, "alert_level", Str("UNKNOWN"))) + "] Predictive Maintenance Alert - RUL: "
           + rul + " hours, Action: " + PyStr(Get(logic, "action", Str("UNKNOWN"))) + ". "
           + PyStr(Get(logic, "recommended_action", Str(""))))
  }

  /** The alert document built from a logic output, given its severity and message. */
  function AlertDict(agentId: string, severity: string, logic: Dict, message: string): Dict
  {
    map["agent_id" := Str(agentId), "severity" := Str(severity),
        "alert_level" := Get(logic, "alert_level", Str("NORMAL")),
        "timestamp" := Get(logic, "timestamp", Null),
        "message" := Str(message),
        "data" := Obj(map["rul_hours" := Get(logic, "rul_hours", Null),
                          "health_score" := Get(logic, "health_score", Null),
                          "failure_probability" := Get(logic, "failure_probability", Null),
                          "action" := Get(logic, "action", Null),
                          "recommended_action" := Get(logic, "recommended_action", Null),
                          "priority" := Get(logic, "priority", Null)])]
  }

  /** The alert `handle_alerts` builds, or None when the level is NORMAL or building
      the alert raises. */
  function Alert(agentId: string, logic: Dict): Option<Dict>
  {
    var level := Get(logic, "alert_level", Str("NORMAL"));
    if level == Str("NORMAL") then None
    else
      match SeverityOfLevel(level)
      case None => None
      case Some(severity) =>
        match Message(logic)
        case None => None
        case Some(message) => Some(AlertDict(agentId, severity, logic, message))
  }

  /** The channel types the alert reached, or None when there was no alert or the
      routing raised. */
  function Routed(agentId: string, channels: seq<Dict>, logic: Dict, raises: (Value, Dict) -> bool): Option<seq<Value>>
  {
    match Alert(agentId, logic)
    case None => None
    case Some(alert) => RoutedGroups(Grouped(channels), SeverityOf(alert), raises)
  }

  /** The MQTT publishes one call of `handle_alerts` makes: none unless the alert was
      routed without raising. */
  function Published(agentId: string, channels: seq<Dict>, logic: Dict, client: ClientLink,
                     raises: (Value, Dict) -> bool): seq<Publication>
  {
    match Alert(agentId, logic)
    case None => []
    case Some(alert) =>
      if RoutedGroups(Grouped(channels), SeverityOf(alert), raises).None? then []
      else ChannelPublications(channels, agentId, alert, client)
  }

  class PmAlerts {
    const agentId: string
    /** `config.get('channels', [])`. */
    const channels: seq<Dict>
    const router: AlertRouter
    /** The MQTT publishes made so far, oldest first. */
    var published: seq<Publication>

    predicate Valid()
    {
      router.groups == Grouped(channels)
    }

    constructor (agentId: string, channels: seq<Dict>)
      requires HashableTypes(channels)
      ensures Valid() && this.agentId == agentId && this.channels == channels && published == []
    {
      this.agentId := agentId;
      this.channels := channels;
      var r := new AlertRouter(channels);
      router := r;
      published := [];
    }

    /** `handle_alerts`: `client` is the MQTT client at the time of the call and
        `raises` says which channel sends raise. */
    method HandleAlerts(logic: Dict, client: ClientLink, raises: (Value, Dict) -> bool)
      returns (routed: Option<seq<Value>>)
      requires Valid()
      modifies this
      ensures routed == Routed(agentId, channels, logic, raises)
      ensures published == old(published) + Published(agentId, channels, logic, client, raises)
    {
      var level := Get(logic, "alert_level", Str("NORMAL"));
      if level == Str("NORMAL") {
        return None;
      }
      var severity := SeverityOfLevel(level);
      if severity.None? {
        return None;
      }
      var message := Message(logic);
      if message.None? {
        return None;
      }
      var alert := AlertDict(agentId, severity.value, logic, message.value);
      routed := router.RouteAlert(alert, raises);
      if routed.None? {
        return;
      }
      if client != NoClient {
        var topic := MqttChannelTopic(channels, agentId);
        if topic.Some? && client == Client(true) {
          published := published + [Publication(topic.value, alert)];
        }
      }
    }
  }

  // ---------------------------------------------------------------- properties

  /** A NORMAL level, or a missing one, raises no alert: nothing is routed or
      published. */
  lemma NormalIsSilent(agentId: string, channels: seq<Dict>, logic: Dict, client: ClientLink,
                       raises: (Value, Dict) -> bool)
    requires Get(logic, "alert_level", Str("NORMAL")) == Str("NORMAL")
    ensures Routed(agentId, channels, logic, raises).None?
    ensures Published(agentId, channels, logic, client, raises) == []
  {
  }

  /** An alert is built exactly when the level is not NORMAL, can be a dict key, and
      the remaining life is a number. */
  lemma AlertRaised(agentId: string, logic: Dict)
    ensures var level := Get(logic, "alert_level", Str("NORMAL"));
      Alert(agentId, logic).Some? <==>
        level != Str("NORMAL") && !level.Arr? && !level.Obj?
        && IsNumber(Get(logic, "rul_hours", Num(0.0)))
  {
  }

  /** The alert carries the agent, the mapped severity, the level and timestamp of the
      logic output, and its message. */
  lemma AlertFields(agentId: string, logic: Dict)
    requires Alert(agentId, logic).Some?
    ensures "alert_level" in logic
    ensures var level := logic["alert_level"];
      var a := Alert(agentId, logic).value;
      a == AlertDict(agentId, SeverityOfLevel(level).value, logic, Message(logic).value)
      && a["alert_level"] == level
      && a["agent_id"] == Str(agentId)
      && a["severity"] == Str(SeverityOfLevel(level).value)
      && a["severity"].s in Severities && a["severity"] != Str("NORMAL")
      && a["timestamp"] == Get(logic, "timestamp", Null)
  {
    var level := logic["alert_level"];
    SeverityCases(level);
    AlertDictHeader(agentId, SeverityOfLevel(level).value, logic, Message(logic).value);
  }

  lemma AlertDictHeader(agentId: string, severity: string, logic: Dict, message: string)
    ensures var a := AlertDict(agentId, severity, logic, message);
      a["alert_level"] == Get(logic, "alert_level", Str("NORMAL")) && a["agent_id"] == Str(agentId)
      && a["severity"] == Str(severity) && a["timestamp"] == Get(logic, "timestamp", Null)
  {
  }

  /** The alert's data holds the six maintenance fields of the logic output, null
      where missing, and nothing else. */
  lemma AlertData(agentId: string, severity: string, logic: Dict, message: string)
    ensures var data := AlertDict(agentId, severity, logic, message)["data"];
      data.Obj? && data.fields.Keys ==
        {"rul_hours", "health_score", "failure_probability", "action", "recommended_action", "priority"}
      && (forall k :: k in data.fields ==> data.fields[k] == Get(logic, k, Null))
  {
  }

  /** The message names the level, the remaining life to one decimal, the action and
      the recommendation, in that order; a whole number of hours ends in ".0". */
  lemma MessageText(logic: Dict, hours: nat)
    requires "alert_level" in logic && "action" in logic && "recommended_action" in logic
    requires Get(logic, "rul_hours", Num(0.0)) in {Num(hours as real), Int(hours)}
    ensures Message(logic) == Some("[" + PyStr(logic["alert_level"]) + "] Predictive Maintenance Alert - RUL: "
                                   + NatText(hours) + ".0 hours, Action: " + PyStr(logic["action"]) + ". "
                                   + PyStr(logic["recommended_action"]))
  {
    WholeHours(hours);
    assert AsReal(Get(logic, "rul_hours", Num(0.0))) == Some(hours as real);
    var head := "[" + PyStr(logic["alert_level"]) + "] Predictive Maintenance Alert - RUL: ";
    var n := NatText(hours);
    assert Message(logic) == Some(head + (n + ".0") + " hours, Action: " + PyStr(logic["action"]) + ". "
                                  + PyStr(logic["recommended_action"]));
    assert head + (n + ".0") + " hours, Action: " == head + n + ".0 hours, Action: ";
  }

  /** A missing remaining life reads as 0.0 hours. */
  lemma MissingRul(logic: Dict)
    requires "rul_hours" !in logic
    ensures Message(logic).Some?
    ensures FormatFixed(Get(logic, "rul_hours", Num(0.0)), 1) == Some("0.0")
  {
    WholeHours(0);
    assert NatText(0) + ".0" == "0.0";
  }

  lemma WholeHours(hours: nat)
    ensures FixedText(hours as real, 1) == NatText(hours) + ".0"
  {
    FixedWhole(hours, 1);
    assert "." + Zeros(1) == ".0";
  }

  /** A non-numeric remaining life makes the message raise: no alert is routed. */
  lemma TextRulSilent(agentId: string, channels: seq<Dict>, logic: Dict, client: ClientLink,
                      raises: (Value, Dict) -> bool, s: string)
    requires Get(logic, "rul_hours", Num(0.0)) == Str(s)
    ensures Routed(agentId, channels, logic, raises).None?
    ensures Published(agentId, channels, logic, client, raises) == []
  {
  }

  /** A routed alert is published once exactly when an MQTT channel is configured and
      the client is connected; a routing failure publishes nothing. */
  lemma PublishedCases(agentId: string, channels: seq<Dict>, logic: Dict, client: ClientLink,
                       raises: (Value, Dict) -> bool)
    ensures var p := Published(agentId, channels, logic, client, raises);
      |p| <= 1
      && (p != [] <==> Routed(agentId, channels, logic, raises).Some? && client == Client(true)
                       && exists i :: 0 <= i < |channels| && TypeOf(channels[i]) == Str("mqtt"))
      && (p != [] ==> p[0].alert == Alert(agentId, logic).value
                      && Some(p[0].topic) == MqttChannelTopic(channels, agentId))
  {
    match Alert(agentId, logic)
    case None =>
    case Some(alert) =>
      PublishGating(channels, agentId, alert, client);
  }
}
