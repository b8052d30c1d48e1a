// The SCADA bridge's MQTT ingest client: an inbound message on "predictions/<agent>"
// is parsed and handed to every registered callback in registration order, each
// callback's failure isolated from the rest; configuration updates are published
// on "config/<agent>".

module MqttClient {
  import opened PyValues
  import DT = DataTransformer

  /** A registered callback, known by the order of its registration. */
  type CallbackId = nat

  /** One callback invocation: which callback, with which arguments, and whether it
      raised (the exception is logged and the loop goes on). */
  datatype Call = Call(callback: CallbackId, agent: string, data: Value, raised: bool)

  /** The payload bytes of a message: either not UTF-8 (`decode` raises), or text that
      `json.loads` either rejects or turns into a document. */
  datatype Body = NotUtf8 | Text(json: DT.Payload)

  datatype Message = Message(topic: string, body: Body)

  /** An outbound publish: topic and the document that is JSON-encoded as its body. */
  datatype Publication = Publication(topic: string, data: Value)

  const ConfigTopicPrefix := "config/"

  /** The agent id of a topic: its second '/'-separated segment, or None (message
      dropped) when the topic has fewer than two segments. */
  function AgentOfTopic(topic: string): (r: Option<string>)
    ensures r.Some? ==> '/' !in r.value
  {
    var parts := Split(topic, '/');
    SplitSegmentsClean(topic, '/');
    if |parts| < 2 then None else Some(parts[1])
  }

  /** The parsed prediction of a message body, or None when decoding or parsing fails. */
  function BodyData(body: Body): Option<Value>
  {
    match body
    case NotUtf8 => None
    case Text(p) => DT.ParseMqttPrediction(p)
  }

  /** Every callback, in order, with the same arguments; `raises` says which of them
      raise for these arguments. */
  function FanOut(callbacks: seq<CallbackId>, agent: string, data: Value,
                  raises: (CallbackId, string, Value) -> bool): (calls: seq<Call>)
    ensures |calls| == |callbacks|
  {
    seq(|callbacks|, i requires 0 <= i < |callbacks| =>
      Call(callbacks[i], agent, data, raises(callbacks[i], agent, data)))
  }

  /** The callback invocations `_on_message` makes for one message. */
  function Delivered(callbacks: seq<CallbackId>, msg: Message,
                     raises: (CallbackId, string, Value) -> bool): seq<Call>
  {
    match AgentOfTopic(msg.topic)
    case None => []
    case Some(agent) =>
      match BodyData(msg.body)
      case None => []
      case Some(data) => FanOut(callbacks, agent, data, raises)
  }

  class MqttBridgeClient {
    var connected: bool
    var callbacks: seq<CallbackId>
    /** The callback invocations made so far, oldest first. */
    var calls: seq<Call>
    /** The configuration publishes attempted so far, oldest first. */
    var published: seq<Publication>

    constructor ()
      ensures !connected && callbacks == [] && calls == [] && published == []
    {
      connected := false;
      callbacks := [];
      calls := [];
      published := [];
    }

    method AddMessageCallback(callback: CallbackId)
      modifies this
      ensures callbacks == old(callbacks) + [callback]
      ensures connected == old(connected) && calls == old(calls) && published == old(published)
    {
      callbacks := callbacks + [callback];
    }

    /** `_on_connect`: return code 0 means connected. */
    method OnConnect(rc: int)
      modifies this
      ensures connected <==> rc == 0
      ensures callbacks == old(callbacks) && calls == old(calls) && published == old(published)
    {
      if rc == 0 {
        connected := true;
      } else {
        connected := false;
      }
    }

    method OnDisconnect(rc: int)
      modifies this
      ensures !connected
      ensures callbacks == old(callbacks) && calls == old(calls) && published == old(published)
    {
      connected := false;
    }

    /** `_on_message`: `raises` stands for the registered callables, which the client
        cannot see into. */
    method OnMessage(msg: Message, raises: (CallbackId, string, Value) -> bool)
      modifies this
      ensures calls == old(calls) + Delivered(callbacks, msg, raises)
      ensures callbacks == old(callbacks) && connected == old(connected) && published == old(published)
    {
      var agent := AgentOfTopic(msg.topic);
      if agent.None? {
        return;
      }
      var data := BodyData(msg.body);
      if data.None? {
        return;
      }
      for i := 0 to |callbacks|
        invariant callbacks == old(callbacks) && connected == old(connected) && published == old(published)
        invariant calls == old(calls) + FanOut(callbacks[..i], agent.value, data.value, raises)
      {
        var failed := raises(callbacks[i], agent.value, data.value);
        calls := calls + [Call(callbacks[i], agent.value, data.value, failed)];
        assert FanOut(callbacks[..i + 1], agent.value, data.value, raises)
            == FanOut(callbacks[..i], agent.value, data.value, raises)
               + [Call(callbacks[i], agent.value, data.value, failed)];
      }
      assert callbacks[..|callbacks|] == callbacks;
    }

    method Stop()
      modifies this
      ensures !connected
      ensures callbacks == old(callbacks) && calls == old(calls) && published == old(published)
    {
      connected := false;
    }

    /** `publish_config`: one publish of the JSON of `data` on "config/<agent>";
        a failed publish is only logged. */
    method PublishConfig(agent: string, data: Value)
      modifies this
      ensures published == old(published) + [Publication(ConfigTopicPrefix + agent, data)]
      ensures callbacks == old(callbacks) && calls == old(calls) && connected == old(connected)
    {
      var topic := ConfigTopicPrefix + agent;
      published := published + [Publication(topic, data)];
    }
  }

  // ---------------------------------------------------------------- properties

  /** A topic without '/' has a single segment: the message is dropped. */
  lemma ShortTopicDropped(callbacks: seq<CallbackId>, msg: Message, raises: (CallbackId, string, Value) -> bool)
    requires '/' !in msg.topic
    ensures AgentOfTopic(msg.topic).None?
    ensures Delivered(callbacks, msg, raises) == []
  {
    SplitCount(msg.topic, '/');
  }

  /** A topic with a '/' always yields an agent id. */
  lemma SlashedTopicHasAgent(topic: string)
    requires '/' in topic
    ensures AgentOfTopic(topic).Some?
  {
    SplitCount(topic, '/');
  }

  /** The agent id is the text between the first and second '/', whatever follows. */
  lemma {:induction false} TopicAgent(prefix: string, agent: string, rest: string)
    requires '/' !in prefix && '/' !in agent
    ensures AgentOfTopic(prefix + "/" + agent) == Some(agent)
    ensures AgentOfTopic(prefix + "/" + agent + "/" + rest) == Some(agent)
  {
    SplitNoSep(prefix, '/');
    SplitNoSep(agent, '/');
    SplitAppend(prefix, '/', agent);
    assert prefix + "/" + agent == prefix + ['/'] + agent;
    SplitAppend(prefix, '/', agent + "/" + rest);
    SplitAppend(agent, '/', rest);
    assert prefix + "/" + agent + "/" + rest == prefix + ['/'] + (agent + ['/'] + rest);
  }

  /** A payload that is not UTF-8, is malformed JSON or is the document null reaches
      no callback. */
  lemma UnparsedBodyDropped(callbacks: seq<CallbackId>, msg: Message, raises: (CallbackId, string, Value) -> bool)
    requires msg.body.NotUtf8? || msg.body == Text(DT.Malformed) || msg.body == Text(DT.Parsed(Null))
    ensures Delivered(callbacks, msg, raises) == []
  {
  }

  /** For a message that parses, each registered callback is called exactly once, in
      registration order, with the topic's agent id and the parsed document; which
      callbacks raise has no influence on which are called. */
  lemma {:induction false} FanOutCallsEveryCallback(callbacks: seq<CallbackId>, agent: string, data: Value,
                                                    raises: (CallbackId, string, Value) -> bool,
                                                    others: (CallbackId, string, Value) -> bool)
    ensures var calls := FanOut(callbacks, agent, data, raises);
      |calls| == |callbacks|
      && (forall i :: 0 <= i < |calls| ==>
            calls[i].callback == callbacks[i] && calls[i].agent == agent && calls[i].data == data)
      && Callees(calls) == Callees(FanOut(callbacks, agent, data, others)) == callbacks
  {
    CalleesOfFanOut(callbacks, agent, data, raises);
    CalleesOfFanOut(callbacks, agent, data, others);
  }

  function Callees(calls: seq<Call>): (ids: seq<CallbackId>)
    ensures |ids| == |calls|
  {
    seq(|calls|, i requires 0 <= i < |calls| => calls[i].callback)
  }

  lemma CalleesOfFanOut(callbacks: seq<CallbackId>, agent: string, data: Value,
                        raises: (CallbackId, string, Value) -> bool)
    ensures Callees(FanOut(callbacks, agent, data, raises)) == callbacks
  {
  }

  /** A message on "predictions/<agent>" whose body parses reaches every callback. */
  lemma {:induction false} PredictionReachesCallbacks(callbacks: seq<CallbackId>, agent: string, doc: Value,
                                                      raises: (CallbackId, string, Value) -> bool)
    requires '/' !in agent && doc != Null
    ensures Delivered(callbacks, Message("predictions/" + agent, Text(DT.Parsed(doc))), raises)
         == FanOut(callbacks, agent, doc, raises)
  {
    TopicAgent("predictions", agent, "");
    assert "predictions/" + agent == "predictions" + "/" + agent;
  }
}
