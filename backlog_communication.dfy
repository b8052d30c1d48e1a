// The backlog agent's communication component: alerts from the other agents arrive
// over MQTT and are normalised into shift events for the agent; generated backlogs
// are published on one topic; an HTTP view shows the current shift.

module BacklogCommunicating {
  import opened PyValues
  import BA = BacklogAgentState

  /** The agents whose names are searched for in a topic, in search order. */
  const AgentNames: seq<string> := ["pm_agent", "energy_agent", "cyber_agent", "hazard_agent", "ppe_agent"]

  /** The alert topics subscribed to when none are configured. */
  const DefaultSubscribeTopics: seq<Value> :=
    [Str("alerts/pm_agent"), Str("alerts/energy_agent"), Str("alerts/cyber_agent"),
     Str("alerts/hazard_agent"), Str("alerts/ppe_agent")]

  const DefaultPublishTopics: seq<Value> := [Str("backlogs/shift_backlog")]

  /** The number of newest events `/current_shift` shows. */
  const ShownEvents := 10

  // ---------------------------------------------------------------- settings

  datatype CommSettings = CommSettings(broker: Value, port: Value, subscribeTopics: Value,
                                       publishTopic: Value, apiPort: Value)

  /** `x[0]` of the configured publish topics; None where indexing raises (an empty
      list or text, or anything else). */
  function FirstItem(v: Value): Option<Value>
  {
    match v
    case Arr(items) => if items == [] then None else Some(items[0])
    case Str(s) => if s == [] then None else Some(Str([s[0]]))
    case _ => None
  }

  /** The settings the constructor reads from its configuration; None where it raises
      (a section that is not a dict, or no first publish topic). */
  function Settings(config: Dict): (r: Option<CommSettings>)
    ensures !Get(config, "mqtt", Obj(map[])).Obj? || !Get(config, "api", Obj(map[])).Obj? ==> r.None?
    ensures Get(config, "mqtt", Obj(map[])).Obj?
            && Get(Get(config, "mqtt", Obj(map[])).fields, "publish_topics", Arr(DefaultPublishTopics)) == Arr([])
            ==> r.None?
    ensures Get(config, "mqtt", Obj(map[])).Obj? && Get(config, "api", Obj(map[])).Obj? ==>
      var topics := Get(Get(config, "mqtt", Obj(map[])).fields, "publish_topics", Arr(DefaultPublishTopics));
      topics.Arr? && topics.items != [] ==> r.Some? && r.value.publishTopic == topics.items[0]
  {
    var mqtt := Get(config, "mqtt", Obj(map[]));
    var api := Get(config, "api", Obj(map[]));
    if !mqtt.Obj? || !api.Obj? then None
    else
      match FirstItem(Get(mqtt.fields, "publish_topics", Arr(DefaultPublishTopics)))
      case None => None
      case Some(topic) =>
        Some(CommSettings(Get(mqtt.fields, "broker", Str("localhost")), Get(mqtt.fields, "port", Int(1883)),
                          Get(mqtt.fields, "subscribe_topics", Arr(DefaultSubscribeTopics)),
                          topic, Get(api.fields, "port", Int(8006))))
  }

  // ---------------------------------------------------------------- events

  /** Python's `sub in s` on two strings. */
  predicate Contains(s: string, sub: string)
    decreases |s|
  {
    sub <= s || (s != [] && Contains(s[1..], sub))
  }

  /** The first of `names` that occurs in `topic`. */
  function FirstNamed(topic: string, names: seq<string>): Option<string>
  {
    if names == [] then None
    else if Contains(topic, names[0]) then Some(names[0])
    else FirstNamed(topic, names[1..])
  }

  /** The agent a topic names, or "unknown". */
  function TopicAgent(topic: string): string
  {
    match FirstNamed(topic, AgentNames)
    case None => "unknown"
    case Some(name) => name
  }

  /** The payload of an MQTT message: bytes that are not UTF-8 JSON, or a document. */
  datatype Payload = Undecodable | Document(doc: Value)

  /** The shift event `_on_mqtt_message` builds; None where it raises: the payload
      does not decode, the document is not a dict, or its data is not a dict (whose
      `get` for the fallback time stamp is evaluated even when a time stamp exists). */
  function Event(topic: string, payload: Payload): (e: Option<Dict>)
    ensures e.None? <==>
      (payload.Undecodable? || !payload.doc.Obj? || !Get(payload.doc.fields, "data", Obj(map[])).Obj?)
    ensures e.Some? ==> e.value.Keys == {"agent_id", "alert_level", "timestamp", "message", "data", "topic"}
                        && e.value["topic"] == Str(topic)
                        && e.value["data"] == Get(payload.doc.fields, "data", Obj(map[]))
  {
    match payload
    case Undecodable => None
    case Document(doc) =>
      if !doc.Obj? then None
      else
        var m := doc.fields;
        var data := Get(m, "data", Obj(map[]));
        if !data.Obj? then None
        else
          var id := Get(m, "agent_id", Str("unknown"));
          Some(map["agent_id" := if id == Str("unknown") then Str(TopicAgent(topic)) else id,
                   "alert_level" := Get(m, "alert_level", Get(m, "severity", Str("UNKNOWN"))),
                   "timestamp" := Get(m, "timestamp", Get(data.fields, "timestamp", Null)),
                   "message" := Get(m, "message", Str("")),
                   "data" := data,
                   "topic" := Str(topic)])
  }

  /** The agent-name search of `_on_mqtt_message`, a loop that stops at the first name
      found in the topic. */
  method SearchTopic(topic: string) returns (agent: string)
    ensures agent == TopicAgent(topic)
  {
    agent := "unknown";
    var i := 0;
    while i < |AgentNames|
      invariant 0 <= i <= |AgentNames|
      invariant FirstNamed(topic, AgentNames) == FirstNamed(topic, AgentNames[i..])
    {
      if Contains(topic, AgentNames[i]) {
        agent := AgentNames[i];
        return;
      }
      i := i + 1;
    }
  }

  // ---------------------------------------------------------------- the HTTP view

  /** `xs[-k:]`: the `k` newest items for positive `k`, all of them for 0, and all but
      the first `-k` for negative `k`. */
  function SliceFromEnd<T>(xs: seq<T>, k: int): seq<T>
  {
    if k > 0 then (if k >= |xs| then xs else xs[|xs| - k..])
    else if -k >= |xs| then [] else xs[-k..]
  }

  /** The `/current_shift` response; `now` is the time when no shift start is stored. */
  function CurrentShift(state: Option<BA.BacklogCustom>, now: string): (r: Dict)
    ensures state.None? <==> "error" in r
    ensures state.Some? ==>
      var c := state.value;
      var n := |c.shiftEvents|;
      var shown := if n <= ShownEvents then n else ShownEvents;
      r.Keys == {"shift_start", "events_count", "events"} && r["events_count"] == Int(n)
      && r["events"].Arr? && |r["events"].items| == shown
      && (forall i :: 0 <= i < shown ==> r["events"].items[i] == Obj(c.shiftEvents[n - shown + i]))
      && (c.currentShiftStart != [] ==> r["shift_start"] == Str(c.currentShiftStart))
      && (c.currentShiftStart == [] ==> r["shift_start"] == Str(now))
  {
    match state
    case None => map["error" := Str("State not available")]
    case Some(c) =>
      SliceNewest(c.shiftEvents, ShownEvents);
      var events := c.shiftEvents;
      map["shift_start" := Str(if c.currentShiftStart != [] then c.currentShiftStart else now),
          "events_count" := Int(|events|),
          "events" := Arr(seq(|SliceFromEnd(events, ShownEvents)|, i requires 0 <= i < |SliceFromEnd(events, ShownEvents)| =>
                                Obj(SliceFromEnd(events, ShownEvents)[i])))]
  }

  // ---------------------------------------------------------------- the component

  /** A publish of the JSON of `message` on `topic` (QoS 1). */
  datatype Publication = Publication(topic: Value, message: Dict)

  class BacklogCommunication {
    const agentId: string
    const settings: CommSettings
    /** Whether an event callback was given. */
    const hasCallback: bool
    /** The events handed to the callback so far, oldest first. */
    var events: seq<Dict>
    /** The backlogs published so far, oldest first. */
    var published: seq<Publication>

    constructor (agentId: string, settings: CommSettings, hasCallback: bool)
      ensures this.agentId == agentId && this.settings == settings && this.hasCallback == hasCallback
      ensures events == [] && published == []
    {
      this.agentId := agentId;
      this.settings := settings;
      this.hasCallback := hasCallback;
      events := [];
      published := [];
    }

    /** `_on_mqtt_message`: the event goes to the callback when there is one. */
    method OnMqttMessage(topic: string, payload: Payload)
      modifies this
      ensures events == old(events) + (if hasCallback && Event(topic, payload).Some? then [Event(topic, payload).value] else [])
      ensures published == old(published)
    {
      if payload.Undecodable? || !payload.doc.Obj? {
        return;
      }
      var m := payload.doc.fields;
      var data := Get(m, "data", Obj(map[]));
      if !data.Obj? {
        return;
      }
      var id := Get(m, "agent_id", Str("unknown"));
      if id == Str("unknown") {
        var name := SearchTopic(topic);
        id := Str(name);
      }
      var event := map["agent_id" := id,
                       "alert_level" := Get(m, "alert_level", Get(m, "severity", Str("UNKNOWN"))),
                       "timestamp" := Get(m, "timestamp", Get(data.fields, "timestamp", Null)),
                       "message" := Get(m, "message", Str("")),
                       "data" := data,
                       "topic" := Str(topic)];
      if hasCallback {
        events := events + [event];
      }
    }

    /** `publish_backlog`: the backlog with the agent and its generation time, on the
        configured topic. */
    method PublishBacklog(backlog: Dict)
      modifies this
      ensures published == old(published) + [Publication(settings.publishTopic,
        map["agent_id" := Str(agentId), "timestamp" := Get(backlog, "generated_at", Null), "backlog" := Obj(backlog)])]
      ensures events == old(events)
    {
      var message := map["agent_id" := Str(agentId), "timestamp" := Get(backlog, "generated_at", Null),
                         "backlog" := Obj(backlog)];
      published := published + [Publication(settings.publishTopic, message)];
    }
  }

  // ---------------------------------------------------------------- properties

  /** The searched name is the first of the five agents whose name occurs in the
      topic; "unknown" exactly when none occurs. */
  lemma {:induction false} FirstNamedFound(topic: string, names: seq<string>)
    ensures FirstNamed(topic, names).Some? <==> exists i :: 0 <= i < |names| && Contains(topic, names[i])
    ensures FirstNamed(topic, names).Some? ==>
      exists i :: 0 <= i < |names| && names[i] == FirstNamed(topic, names).value && Contains(topic, names[i])
                  && forall j :: 0 <= j < i ==> !Contains(topic, names[j])
  {
    if names != [] {
      FirstNamedFound(topic, names[1..]);
      if !Contains(topic, names[0]) {
        if exists i :: 0 <= i < |names| && Contains(topic, names[i]) {
          var i :| 0 <= i < |names| && Contains(topic, names[i]);
          assert names[1..][i - 1] == names[i];
        }
        if FirstNamed(topic, names).Some? {
          var i :| 0 <= i < |names[1..]| && names[1..][i] == FirstNamed(topic, names).value
                   && Contains(topic, names[1..][i]) && forall j :: 0 <= j < i ==> !Contains(topic, names[1..][j]);
          forall j | 0 <= j < i + 1
            ensures !Contains(topic, names[j])
          {
            if j > 0 {
              assert names[j] == names[1..][j - 1];
            }
          }
        }
      }
    }
  }

  /** Text that starts with a name contains it, wherever it sits in a longer text. */
  lemma {:induction false} ContainsAfter(prefix: string, name: string, rest: string)
    ensures Contains(prefix + name + rest, name)
    decreases |prefix|
  {
    if prefix == [] {
      assert prefix + name + rest == name + rest;
      assert name <= name + rest;
    } else {
      assert (prefix + name + rest)[1..] == prefix[1..] + name + rest;
      ContainsAfter(prefix[1..], name, rest);
    }
  }

  /** A message on an agent's default alert topic with no agent id is attributed to
      that agent: no earlier name in the search order occurs in its topic. */
  lemma DefaultTopicAgents()
    ensures forall i :: 0 <= i < |AgentNames| ==> TopicAgent("alerts/" + AgentNames[i]) == AgentNames[i]
  {
    forall i | 0 <= i < |AgentNames|
      ensures TopicAgent("alerts/" + AgentNames[i]) == AgentNames[i]
    {
      var topic := "alerts/" + AgentNames[i];
      if i == 0 {
        PmTopic(topic);
      } else if i == 1 {
        EnergyTopic(topic);
      } else if i == 2 {
        CyberTopic(topic);
      } else if i == 3 {
        HazardTopic(topic);
      } else {
        PpeTopic(topic);
      }
    }
  }

  lemma PmTopic(topic: string)
    requires topic == "alerts/" + AgentNames[0]
    ensures TopicAgent(topic) == AgentNames[0]
  {
    ContainsAfter("alerts/", AgentNames[0], "");
    assert topic + "" == topic;
    FirstNamedAt(topic, AgentNames, 0);
  }

  lemma EnergyTopic(topic: string)
    requires topic == "alerts/" + AgentNames[1]
    ensures TopicAgent(topic) == AgentNames[1]
  {
    ContainsAfter("alerts/", AgentNames[1], "");
    assert topic + "" == topic;
    LacksLetter(AgentNames[1], 'm');
    MissingLetter(topic, "pm_agent", 'm');
    FirstNamedAt(topic, AgentNames, 1);
  }

  lemma CyberTopic(topic: string)
    requires topic == "alerts/" + AgentNames[2]
    ensures TopicAgent(topic) == AgentNames[2]
  {
    ContainsAfter("alerts/", AgentNames[2], "");
    assert topic + "" == topic;
    LacksLetter(AgentNames[2], 'm');
    MissingLetter(topic, "pm_agent", 'm');
    NotContained(topic, "energy_agent");
    FirstNamedAt(topic, AgentNames, 2);
  }

  lemma HazardTopic(topic: string)
    requires topic == "alerts/" + AgentNames[3]
    ensures TopicAgent(topic) == AgentNames[3]
  {
    ContainsAfter("alerts/", AgentNames[3], "");
    assert topic + "" == topic;
    LacksLetter(AgentNames[3], 'm');
    LacksLetter(AgentNames[3], 'y');
    LacksLetter(AgentNames[3], 'c');
    MissingLetter(topic, "pm_agent", 'm');
    MissingLetter(topic, "energy_agent", 'y');
    MissingLetter(topic, "cyber_agent", 'c');
    FirstNamedAt(topic, AgentNames, 3);
  }

  lemma PpeTopic(topic: string)
    requires topic == "alerts/" + AgentNames[4]
    ensures TopicAgent(topic) == AgentNames[4]
  {
    ContainsAfter("alerts/", AgentNames[4], "");
    assert topic + "" == topic;
    PpeTopicLacks(topic);
    FirstNamedAt(topic, AgentNames, 4);
  }

  /** The PPE topic names none of the other four agents. */
  lemma PpeTopicLacks(topic: string)
    requires topic == "alerts/" + AgentNames[4]
    ensures forall j :: 0 <= j < 4 ==> !Contains(topic, AgentNames[j])
  {
    LacksLetter(AgentNames[4], 'm');
    LacksLetter(AgentNames[4], 'y');
    LacksLetter(AgentNames[4], 'c');
    LacksLetter(AgentNames[4], 'h');
    MissingLetter(topic, "pm_agent", 'm');
    MissingLetter(topic, "energy_agent", 'y');
    MissingLetter(topic, "cyber_agent", 'c');
    MissingLetter(topic, "hazard_agent", 'h');
  }

  lemma {:induction false} FirstNamedAt(topic: string, names: seq<string>, k: nat)
    requires k < |names| && Contains(topic, names[k])
    requires forall j :: 0 <= j < k ==> !Contains(topic, names[j])
    ensures FirstNamed(topic, names) == Some(names[k])
  {
    if k > 0 {
      assert names[1..][k - 1] == names[k];
      forall j | 0 <= j < k - 1
        ensures !Contains(topic, names[1..][j])
      {
        assert names[1..][j] == names[j + 1];
      }
      FirstNamedAt(topic, names[1..], k - 1);
    }
  }

  /** A letter missing from a name and from the topic prefix is missing from the
      name's topic. */
  lemma LacksLetter(name: string, c: char)
    requires c !in "alerts/" && c !in name
    ensures c !in "alerts/" + name
  {
  }

  /** A name with a letter the text lacks is not in the text. */
  lemma {:induction false} MissingLetter(s: string, name: string, c: char)
    requires c in name && c !in s
    ensures !Contains(s, name)
    decreases |s|
  {
    if s != [] {
      assert c !in s[1..];
      MissingLetter(s[1..], name, c);
    }
  }

  /** A name is not in a text when at no position where it would fit do its first
      two letters occur. */
  lemma {:induction false} NotContained(s: string, name: string)
    requires |name| >= 2
    requires forall i :: 0 <= i && i + |name| <= |s| ==> !(s[i] == name[0] && s[i + 1] == name[1])
    ensures !Contains(s, name)
    decreases |s|
  {
    if s != [] {
      assert !(name <= s) by {
        if |name| <= |s| {
          assert !(s[0] == name[0] && s[1] == name[1]);
        }
      }
      forall i | 0 <= i && i + |name| <= |s[1..]|
        ensures !(s[1..][i] == name[0] && s[1..][i + 1] == name[1])
      {
        assert s[1..][i] == s[i + 1] && s[1..][i + 1] == s[i + 2];
      }
      NotContained(s[1..], name);
    }
  }

  /** The event's agent is the message's, unless that is missing or "unknown", when
      it is the agent named in the topic. */
  lemma EventAgent(topic: string, m: Dict)
    requires Get(m, "data", Obj(map[])).Obj?
    ensures Event(topic, Document(Obj(m))).Some?
    ensures var e := Event(topic, Document(Obj(m))).value;
      (("agent_id" !in m || m["agent_id"] == Str("unknown")) ==> e["agent_id"] == Str(TopicAgent(topic)))
      && ("agent_id" in m && m["agent_id"] != Str("unknown") ==> e["agent_id"] == m["agent_id"])
  {
  }

  /** The level falls back to the severity, then to UNKNOWN; the time stamp falls back
      to the data's; message and data default to empty; the topic is recorded. */
  lemma EventFallbacks(topic: string, m: Dict)
    requires Get(m, "data", Obj(map[])).Obj?
    ensures var e := Event(topic, Document(Obj(m))).value;
      e.Keys == {"agent_id", "alert_level", "timestamp", "message", "data", "topic"}
      && ("alert_level" in m ==> e["alert_level"] == m["alert_level"])
      && ("alert_level" !in m && "severity" in m ==> e["alert_level"] == m["severity"])
      && ("alert_level" !in m && "severity" !in m ==> e["alert_level"] == Str("UNKNOWN"))
      && ("timestamp" in m ==> e["timestamp"] == m["timestamp"])
      && ("timestamp" !in m && "data" in m ==> e["timestamp"] == Get(m["data"].fields, "timestamp", Null))
      && ("timestamp" !in m && "data" !in m ==> e["timestamp"] == Null)
      && ("message" !in m ==> e["message"] == Str(""))
      && ("data" !in m ==> e["data"] == Obj(map[]))
      && e["topic"] == Str(topic)
  {
  }


  /** Without configuration the component listens on the five agents' alert topics
      and publishes on backlogs/shift_backlog. */
  lemma DefaultTopics()
    ensures Settings(map[]).Some?
    ensures var s := Settings(map[]).value;
      s.subscribeTopics == Arr(DefaultSubscribeTopics)
      && s.publishTopic == Str("backlogs/shift_backlog")
      && s.apiPort == Int(8006) && s.broker == Str("localhost") && s.port == Int(1883)
  {
  }

  /** The default subscriptions are the alert topics of the five agents, in the
      search order. */
  lemma DefaultSubscriptions()
    ensures |DefaultSubscribeTopics| == |AgentNames|
    ensures forall i :: 0 <= i < |AgentNames| ==> DefaultSubscribeTopics[i] == Str("alerts/" + AgentNames[i])
  {
    forall i | 0 <= i < |AgentNames|
      ensures DefaultSubscribeTopics[i] == Str("alerts/" + AgentNames[i])
    {
      AlertTopicText(i);
    }
  }

  lemma AlertTopicText(i: nat)
    requires i < |AgentNames|
    ensures DefaultSubscribeTopics[i].s == "alerts/" + AgentNames[i]
  {
    if i == 0 {
      assert "alerts/" + "pm_agent" == "alerts/pm_agent";
    } else if i == 1 {
      assert "alerts/" + "energy_agent" == "alerts/energy_agent";
    } else if i == 2 {
      assert "alerts/" + "cyber_agent" == "alerts/cyber_agent";
    } else if i == 3 {
      assert "alerts/" + "hazard_agent" == "alerts/hazard_agent";
    } else {
      assert "alerts/" + "ppe_agent" == "alerts/ppe_agent";
    }
  }


  /** The positive-k slice keeps the k newest items, in order. */
  lemma SliceNewest<T>(xs: seq<T>, k: nat)
    requires k > 0
    ensures var r := SliceFromEnd(xs, k);
      |r| == (if |xs| <= k then |xs| else k)
      && forall i :: 0 <= i < |r| ==> r[i] == xs[|xs| - |r| + i]
  {
  }

  /** `xs[-0:]` is the whole list. */
  lemma SliceZero<T>(xs: seq<T>)
    ensures SliceFromEnd(xs, 0) == xs
  {
  }
}
