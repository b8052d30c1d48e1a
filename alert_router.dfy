// The alert router the agents share: channel configurations are grouped by their
// "type" in order of first appearance, and an alert goes to every configuration
// whose severity list is empty or names the alert's severity. The senders only log;
// a failing send is skipped without stopping the rest.

module AlertRouting {
  import opened PyValues

  /** The configurations of one channel type, in their configured order. */
  datatype Group = Group(channelType: Value, configs: seq<Dict>)

  /** What `_send_to_channel` does for a channel type; each sender only logs. */
  datatype Delivery =
    | MqttTopic(topic: Value)
    | Email(recipients: Value)
    | Sms(recipients: Value)
    | Database
    | Webhook(url: Value)
    | Scada
    | UnknownChannel(channelType: Value)

  const Severities: seq<string> := ["NORMAL", "CAUTION", "WARNING", "CRITICAL", "EMERGENCY"]
  const ChannelTypes: seq<string> := ["mqtt", "email", "sms", "database", "webhook", "scada"]

  /** `config.get('channels', [])` as the list of channel configurations the router
      iterates; None for a value that is not a list of dicts. */
  function ChannelConfigs(config: Dict): Option<seq<Dict>>
  {
    var v := Get(config, "channels", Arr([]));
    if v.Arr? && forall i :: 0 <= i < |v.items| ==> v.items[i].Obj? then
      Some(seq(|v.items|, i requires 0 <= i < |v.items| => v.items[i].fields))
    else None
  }

  function TypeOf(config: Dict): Value
  {
    Get(config, "type", Null)
  }

  /** Every channel type can be a dict key: no type is a list or a dict. */
  predicate HashableTypes(configs: seq<Dict>)
  {
    forall i :: 0 <= i < |configs| ==> !TypeOf(configs[i]).Arr? && !TypeOf(configs[i]).Obj?
  }

  function Types(gs: seq<Group>): (ts: seq<Value>)
    ensures |ts| == |gs|
  {
    if gs == [] then [] else [gs[0].channelType] + Types(gs[1..])
  }

  /** `channels.setdefault(type, []).append(config)` */
  function AddTo(gs: seq<Group>, config: Dict): (r: seq<Group>)
    ensures |r| == |gs| || |r| == |gs| + 1
  {
    if gs == [] then [Group(TypeOf(config), [config])]
    else if gs[0].channelType == TypeOf(config) then [gs[0].(configs := gs[0].configs + [config])] + gs[1..]
    else [gs[0]] + AddTo(gs[1..], config)
  }

  /** `_parse_channels` */
  function Grouped(configs: seq<Dict>): seq<Group>
  {
    if configs == [] then [] else AddTo(Grouped(configs[..|configs| - 1]), configs[|configs| - 1])
  }

  /** The configurations grouped under type `t`; [] when there is no such group. */
  function GroupFor(gs: seq<Group>, t: Value): seq<Dict>
  {
    if gs == [] then [] else if gs[0].channelType == t then gs[0].configs else GroupFor(gs[1..], t)
  }

  /** The configurations of type `t`, in order. */
  function OfType(configs: seq<Dict>, t: Value): seq<Dict>
  {
    if configs == [] then []
    else OfType(configs[..|configs| - 1], t) + (if TypeOf(configs[|configs| - 1]) == t then [configs[|configs| - 1]] else [])
  }

  function Flatten(gs: seq<Group>): seq<Dict>
  {
    if gs == [] then [] else gs[0].configs + Flatten(gs[1..])
  }

  predicate Distinct(ts: seq<Value>)
  {
    forall i, j :: 0 <= i < j < |ts| ==> ts[i] != ts[j]
  }

  /** Python's `x in container`; None where it raises TypeError. Lists compare with
      `==`, dicts look up their keys, strings look for a substring. */
  function In(x: Value, container: Value): Option<bool>
  {
    match container
    case Arr(items) => Some(x in items)
    case Obj(m) => if x.Arr? || x.Obj? then None else Some(x.Str? && x.s in m)
    case Str(s) => if x.Str? then Some(exists i, j :: 0 <= i <= j <= |s| && s[i..j] == x.s) else None
    case _ => None
  }

  /** `alert.get('severity', 'NORMAL')` */
  function SeverityOf(alert: Dict): Value
  {
    Get(alert, "severity", Str("NORMAL"))
  }

  /** Whether a configuration takes an alert of this severity: its severity list is
      empty (or absent) or contains it; None where the membership test raises. */
  function Receives(config: Dict, severity: Value): Option<bool>
  {
    var allowed := Get(config, "severity", Arr([]));
    if !Truthy(allowed) then Some(true) else In(severity, allowed)
  }

  /** `_send_to_channel` */
  function Send(channelType: Value, config: Dict): Delivery
  {
    if channelType == Str("mqtt") then MqttTopic(Get(config, "topic", Str("alerts/default")))
    else if channelType == Str("email") then Email(Get(config, "recipients", Arr([])))
    else if channelType == Str("sms") then Sms(Get(config, "recipients", Arr([])))
    else if channelType == Str("database") then Database
    else if channelType == Str("webhook") then Webhook(Get(config, "url", Null))
    else if channelType == Str("scada") then Scada
    else UnknownChannel(channelType)
  }

  /** The channel types routed for one group, one per receiving configuration whose
      send does not raise; None where a membership test raises. `raises` stands for
      the senders, which are outside the router. */
  function RoutedGroup(t: Value, configs: seq<Dict>, severity: Value, raises: (Value, Dict) -> bool): Option<seq<Value>>
  {
    if configs == [] then Some([])
    else
      var n := |configs| - 1;
      match RoutedGroup(t, configs[..n], severity, raises)
      case None => None
      case Some(r) =>
        match Receives(configs[n], severity)
        case None => None
        case Some(yes) => Some(if yes && !raises(t, configs[n]) then r + [t] else r)
  }

  function RoutedGroups(gs: seq<Group>, severity: Value, raises: (Value, Dict) -> bool): Option<seq<Value>>
  {
    if gs == [] then Some([])
    else
      var n := |gs| - 1;
      match RoutedGroups(gs[..n], severity, raises)
      case None => None
      case Some(r) =>
        match RoutedGroup(gs[n].channelType, gs[n].configs, severity, raises)
        case None => None
        case Some(s) => Some(r + s)
  }

  class AlertRouter {
    const groups: seq<Group>

    /** `AlertRouter(config)`: the channels grouped by type. */
    constructor (configs: seq<Dict>)
      requires HashableTypes(configs)
      ensures groups == Grouped(configs)
    {
      var gs := ParseChannels(configs);
      groups := gs;
    }

    /** `route_alert`: the channel types that took the alert, in group order; None
        where a severity test raises, which ends the routing. */
    method RouteAlert(alert: Dict, raises: (Value, Dict) -> bool) returns (routed: Option<seq<Value>>)
      ensures routed == RoutedGroups(groups, SeverityOf(alert), raises)
    {
      var severity := Get(alert, "severity", Str("NORMAL"));
      var done: seq<Value> := [];
      for i := 0 to |groups|
        invariant RoutedGroups(groups[..i], severity, raises) == Some(done)
      {
        var t := groups[i].channelType;
        var configs := groups[i].configs;
        var sent: seq<Value> := [];
        for j := 0 to |configs|
          invariant RoutedGroup(t, configs[..j], severity, raises) == Some(sent)
        {
          assert configs[..j + 1][..j] == configs[..j];
          var config := configs[j];
          var allowed := Get(config, "severity", Arr([]));
          var takes: bool;
          if !Truthy(allowed) {
            takes := true;
          } else {
            var test := In(severity, allowed);
            if test.None? {
              GroupFailsFrom(t, configs, j + 1, severity, raises);
              assert groups[..i + 1][..i] == groups[..i];
              GroupsFailFrom(groups, i + 1, severity, raises);
              return None;
            }
            takes := test.value;
          }
          if takes && !raises(t, config) {
            sent := sent + [t];
          }
        }
        assert configs[..|configs|] == configs;
        assert groups[..i + 1][..i] == groups[..i];
        done := done + sent;
      }
      assert groups[..|groups|] == groups;
      routed := Some(done);
    }
  }

  /** `_parse_channels`, as the loop that fills the groups. */
  method ParseChannels(configs: seq<Dict>) returns (gs: seq<Group>)
    ensures gs == Grouped(configs)
  {
    gs := [];
    for i := 0 to |configs|
      invariant gs == Grouped(configs[..i])
    {
      assert configs[..i + 1][..i] == configs[..i];
      gs := AddTo(gs, configs[i]);
    }
    assert configs[..|configs|] == configs;
  }

  // The agents' alert components publish through an MQTT client they may or may not
  // have; these are shared by them.

  /** The component's MQTT client: absent, or present and connected or not. */
  datatype ClientLink = NoClient | Client(connected: bool)

  /** A publish of the JSON of `alert` on `topic` (QoS 1). */
  datatype Publication = Publication(topic: Value, alert: Dict)

  /** The topic of the first configured "mqtt" channel, or `alerts/<agent>` when that
      channel names none; None when no mqtt channel is configured. */
  function MqttChannelTopic(configs: seq<Dict>, agentId: string): Option<Value>
  {
    if configs == [] then None
    else if TypeOf(configs[0]) == Str("mqtt") then Some(Get(configs[0], "topic", Str("alerts/" + agentId)))
    else MqttChannelTopic(configs[1..], agentId)
  }

  /** `_publish_mqtt_alert` of the maintenance and cyber components: a publish on the
      mqtt channel's topic, only when such a channel exists and the client is
      connected. */
  function ChannelPublications(configs: seq<Dict>, agentId: string, alert: Dict, client: ClientLink): seq<Publication>
  {
    match MqttChannelTopic(configs, agentId)
    case None => []
    case Some(topic) => if client == Client(true) then [Publication(topic, alert)] else []
  }

  /** `severity_map.get(alert_level, 'WARNING')` of the maintenance and cyber
      components; None where the level is a list or dict, which cannot be a key. */
  function SeverityOfLevel(level: Value): Option<string>
  {
    if level.Arr? || level.Obj? then None
    else if level in [Str("CAUTION"), Str("WARNING"), Str("CRITICAL"), Str("EMERGENCY")] then Some(level.s)
    else Some("WARNING")
  }

  // ---------------------------------------------------------------- properties

  lemma {:induction false} AddToGroupFor(gs: seq<Group>, config: Dict, t: Value)
    ensures GroupFor(AddTo(gs, config), t) == GroupFor(gs, t) + (if TypeOf(config) == t then [config] else [])
  {
    if gs != [] && gs[0].channelType != TypeOf(config) {
      AddToGroupFor(gs[1..], config, t);
    }
  }

  lemma {:induction false} AddToTypes(gs: seq<Group>, config: Dict)
    ensures Types(AddTo(gs, config)) == if TypeOf(config) in Types(gs) then Types(gs) else Types(gs) + [TypeOf(config)]
  {
    if gs != [] && gs[0].channelType != TypeOf(config) {
      AddToTypes(gs[1..], config);
    }
  }

  lemma {:induction false} AddToFlatten(gs: seq<Group>, config: Dict)
    ensures multiset(Flatten(AddTo(gs, config))) == multiset(Flatten(gs)) + multiset{config}
  {
    if gs == [] {
      assert Flatten(AddTo(gs, config)) == [config] + Flatten([]);
    } else if gs[0].channelType == TypeOf(config) {
      assert AddTo(gs, config)[1..] == gs[1..];
    } else {
      AddToFlatten(gs[1..], config);
      assert AddTo(gs, config)[1..] == AddTo(gs[1..], config);
    }
  }

  /** `_parse_channels` puts under each type exactly the configurations of that type,
      in their order. */
  lemma {:induction false} GroupedByType(configs: seq<Dict>, t: Value)
    ensures GroupFor(Grouped(configs), t) == OfType(configs, t)
  {
    if configs != [] {
      var n := |configs| - 1;
      GroupedByType(configs[..n], t);
      AddToGroupFor(Grouped(configs[..n]), configs[n], t);
    }
  }

  /** The types are listed once each, exactly those that occur, in order of first
      appearance. */
  lemma {:induction false} GroupTypes(configs: seq<Dict>)
    ensures Distinct(Types(Grouped(configs)))
    ensures forall t :: t in Types(Grouped(configs)) <==> exists i :: 0 <= i < |configs| && TypeOf(configs[i]) == t
  {
    if configs != [] {
      var n := |configs| - 1;
      var init := configs[..n];
      GroupTypes(init);
      AddToTypes(Grouped(init), configs[n]);
      forall t
        ensures t in Types(Grouped(configs)) <==> exists i :: 0 <= i < |configs| && TypeOf(configs[i]) == t
      {
        if t in Types(Grouped(configs)) && t != TypeOf(configs[n]) {
          var i :| 0 <= i < n && TypeOf(init[i]) == t;
          assert TypeOf(configs[i]) == t;
        }
        if exists i :: 0 <= i < n && TypeOf(configs[i]) == t {
          var i :| 0 <= i < n && TypeOf(configs[i]) == t;
          assert TypeOf(init[i]) == t;
        }
      }
    }
  }

  /** Every configuration appears in exactly one group. */
  lemma {:induction false} GroupsPartition(configs: seq<Dict>)
    ensures multiset(Flatten(Grouped(configs))) == multiset(configs)
  {
    if configs != [] {
      var n := |configs| - 1;
      GroupsPartition(configs[..n]);
      AddToFlatten(Grouped(configs[..n]), configs[n]);
      assert configs == configs[..n] + [configs[n]];
    }
  }

  /** Once a severity test raises, the routing as a whole raises. */
  lemma {:induction false} GroupFailsFrom(t: Value, configs: seq<Dict>, k: nat, severity: Value,
                                          raises: (Value, Dict) -> bool)
    requires k <= |configs| && RoutedGroup(t, configs[..k], severity, raises).None?
    ensures RoutedGroup(t, configs, severity, raises).None?
    decreases |configs| - k
  {
    if k < |configs| {
      assert configs[..k + 1][..k] == configs[..k];
      GroupFailsFrom(t, configs, k + 1, severity, raises);
    } else {
      assert configs[..k] == configs;
    }
  }

  lemma {:induction false} GroupsFailFrom(gs: seq<Group>, k: nat, severity: Value, raises: (Value, Dict) -> bool)
    requires k <= |gs| && RoutedGroups(gs[..k], severity, raises).None?
    ensures RoutedGroups(gs, severity, raises).None?
    decreases |gs| - k
  {
    if k < |gs| {
      assert gs[..k + 1][..k] == gs[..k];
      GroupsFailFrom(gs, k + 1, severity, raises);
    } else {
      assert gs[..k] == gs;
    }
  }

  /** A configuration with an empty or missing severity list takes every alert; one
      with a list takes an alert exactly when the list names its severity. */
  lemma ReceivesCases(config: Dict, severity: Value)
    ensures "severity" !in config ==> Receives(config, severity) == Some(true)
    ensures Get(config, "severity", Arr([])) == Arr([]) ==> Receives(config, severity) == Some(true)
    ensures forall items :: Get(config, "severity", Arr([])) == Arr(items) ==>
      Receives(config, severity) == Some(items == [] || severity in items)
  {
  }

  /** An alert without a severity is routed as NORMAL. */
  lemma DefaultSeverity(alert: Dict)
    requires "severity" !in alert
    ensures SeverityOf(alert) == Str("NORMAL")
  {
  }

  /** The configurations that take an alert of this severity. */
  function Receivers(configs: seq<Dict>, severity: Value): seq<Dict>
  {
    if configs == [] then []
    else
      var n := |configs| - 1;
      Receivers(configs[..n], severity) + (if Receives(configs[n], severity) == Some(true) then [configs[n]] else [])
  }

  function Repeat(t: Value, k: nat): (r: seq<Value>)
    ensures |r| == k && forall i :: 0 <= i < k ==> r[i] == t
  {
    if k == 0 then [] else Repeat(t, k - 1) + [t]
  }

  /** With every test well defined and no send raising, a group is routed once per
      receiving configuration, under its type. */
  lemma {:induction false} GroupRoutesReceivers(t: Value, configs: seq<Dict>, severity: Value)
    requires forall i :: 0 <= i < |configs| ==> Receives(configs[i], severity).Some?
    ensures RoutedGroup(t, configs, severity, (_, _) => false) == Some(Repeat(t, |Receivers(configs, severity)|))
  {
    if configs != [] {
      var n := |configs| - 1;
      GroupRoutesReceivers(t, configs[..n], severity);
    }
  }

  /** A send that raises only drops its own configuration: the others of the group
      are routed as before. */
  lemma {:induction false} RaisingSendSkipped(t: Value, configs: seq<Dict>, c: Dict, more: seq<Dict>, severity: Value,
                                              raises: (Value, Dict) -> bool)
    requires raises(t, c) && Receives(c, severity).Some?
    ensures RoutedGroup(t, configs + [c] + more, severity, raises) == RoutedGroup(t, configs + more, severity, raises)
  {
    if more == [] {
      assert (configs + [c] + more)[..|configs|] == configs;
      assert configs + [c] + more == configs + [c];
      assert configs + more == configs;
    } else {
      var n := |more| - 1;
      var a, b := configs + [c] + more, configs + more;
      RaisingSendSkipped(t, configs, c, more[..n], severity, raises);
      assert a[..|a| - 1] == configs + [c] + more[..n] && a[|a| - 1] == more[n];
      assert b[..|b| - 1] == configs + more[..n] && b[|b| - 1] == more[n];
    }
  }

  /** Each known type has its sender; any other type is only logged, yet a receiving
      configuration of that type is still counted as routed. */
  lemma UnknownTypeRouted(t: Value, config: Dict, severity: Value)
    requires t !in [Str("mqtt"), Str("email"), Str("sms"), Str("database"), Str("webhook"), Str("scada")]
    requires Receives(config, severity) == Some(true)
    ensures Send(t, config) == UnknownChannel(t)
    ensures RoutedGroup(t, [config], severity, (_, _) => false) == Some([t])
  {
    assert [config][..0] == [];
    assert RoutedGroup(t, [], severity, (_, _) => false) == Some([]);
    assert [] + [t] == [t];
  }

  lemma SendCases(config: Dict)
    ensures Send(Str("mqtt"), config) == MqttTopic(Get(config, "topic", Str("alerts/default")))
    ensures Send(Str("webhook"), config) == Webhook(Get(config, "url", Null))
    ensures Send(Str("email"), config).Email? && Send(Str("sms"), config).Sms?
    ensures Send(Str("database"), config) == Database && Send(Str("scada"), config) == Scada
  {
  }

  /** A string severity list matches by substring, as Python's `in` on a string does:
      "WARNING" is "in" the list "CRITICAL,WARNING". */
  lemma StringSeverityList()
    ensures In(Str("WARNING"), Str("CRITICAL,WARNING")) == Some(true)
    ensures In(Str("CRITICAL"), Int(3)).None?
  {
    var s := "CRITICAL,WARNING";
    assert s[9..16] == "WARNING";
  }

  /** A publish happens exactly when an mqtt channel is configured and the client is
      connected; it goes to the first such channel's topic, else to alerts/<agent>. */
  lemma {:induction false} PublishGating(configs: seq<Dict>, agentId: string, alert: Dict, client: ClientLink)
    ensures |ChannelPublications(configs, agentId, alert, client)| <= 1
    ensures ChannelPublications(configs, agentId, alert, client) != [] <==>
      client == Client(true) && exists i :: 0 <= i < |configs| && TypeOf(configs[i]) == Str("mqtt")
    ensures forall i :: 0 <= i < |configs| && TypeOf(configs[i]) == Str("mqtt")
                        && (forall j :: 0 <= j < i ==> TypeOf(configs[j]) != Str("mqtt")) ==>
      MqttChannelTopic(configs, agentId) == Some(Get(configs[i], "topic", Str("alerts/" + agentId)))
  {
    MqttTopicFound(configs, agentId);
  }

  lemma {:induction false} MqttTopicFound(configs: seq<Dict>, agentId: string)
    ensures MqttChannelTopic(configs, agentId).Some? <==> exists i :: 0 <= i < |configs| && TypeOf(configs[i]) == Str("mqtt")
    ensures forall i :: 0 <= i < |configs| && TypeOf(configs[i]) == Str("mqtt")
                        && (forall j :: 0 <= j < i ==> TypeOf(configs[j]) != Str("mqtt")) ==>
      MqttChannelTopic(configs, agentId) == Some(Get(configs[i], "topic", Str("alerts/" + agentId)))
  {
    if configs != [] {
      MqttTopicFound(configs[1..], agentId);
      if TypeOf(configs[0]) != Str("mqtt") {
        if exists i :: 0 <= i < |configs| && TypeOf(configs[i]) == Str("mqtt") {
          var i :| 0 <= i < |configs| && TypeOf(configs[i]) == Str("mqtt");
          assert TypeOf(configs[1..][i - 1]) == Str("mqtt");
        }
        forall i | 0 <= i < |configs| && TypeOf(configs[i]) == Str("mqtt")
                   && (forall j :: 0 <= j < i ==> TypeOf(configs[j]) != Str("mqtt"))
          ensures MqttChannelTopic(configs, agentId) == Some(Get(configs[i], "topic", Str("alerts/" + agentId)))
        {
          assert i > 0;
          assert configs[1..][i - 1] == configs[i];
          forall j | 0 <= j < i - 1
            ensures TypeOf(configs[1..][j]) != Str("mqtt")
          {
            assert configs[1..][j] == configs[j + 1];
          }
        }
      }
    }
  }

  /** The four non-normal levels keep their name as the severity; any other hashable
      level is a warning, and the severity is always one the router knows. */
  lemma SeverityCases(level: Value)
    ensures SeverityOfLevel(Str("CAUTION")) == Some("CAUTION") && SeverityOfLevel(Str("WARNING")) == Some("WARNING")
    ensures SeverityOfLevel(Str("CRITICAL")) == Some("CRITICAL") && SeverityOfLevel(Str("EMERGENCY")) == Some("EMERGENCY")
    ensures SeverityOfLevel(level).None? <==> level.Arr? || level.Obj?
    ensures !level.Arr? && !level.Obj? && level !in [Str("CAUTION"), Str("WARNING"), Str("CRITICAL"), Str("EMERGENCY")]
            ==> SeverityOfLevel(level) == Some("WARNING")
    ensures SeverityOfLevel(level).Some? ==> SeverityOfLevel(level).value in Severities && SeverityOfLevel(level).value != "NORMAL"
  {
  }
}
