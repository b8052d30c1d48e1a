// The SCADA bridge's DNP3 outstation, which is a stub: a flag fixed at construction
// gates every operation, an enabled server only computes (and logs) the points it
// would publish, and it never reaches the running state.

module Dnp3Server {
  import opened PyValues
  import DT = DataTransformer

  /** The points an enabled stub computes for a prediction; a translation that raises
      is caught and yields nothing. */
  function ComputedPoints(agent: string, data: Value): (r: Option<DT.Dnp3Points>)
    ensures r.Some? <==> DT.ToDnp3(agent, data).Ok?
  {
    match DT.ToDnp3(agent, data)
    case Raised => None
    case Ok(points) => Some(points)
  }

  class Dnp3BridgeServer {
    const enabled: bool
    var running: bool

    /** `running` is never true: no operation sets it. */
    predicate Valid()
      reads this
    {
      !running
    }

    /** `enabled` comes from the DNP3_ENABLED flag. */
    constructor (dnp3Enabled: bool)
      ensures enabled == dnp3Enabled && Valid()
    {
      enabled := dnp3Enabled;
      running := false;
    }

    /** `update_from_mqtt`: the returned points are what the enabled stub logs; a
        disabled one returns at once. Nothing is stored either way. */
    method UpdateFromMqtt(agent: string, data: Value) returns (logged: Option<DT.Dnp3Points>)
      ensures !enabled ==> logged.None?
      ensures enabled ==> logged == ComputedPoints(agent, data)
    {
      if !enabled {
        return None;
      }
      logged := ComputedPoints(agent, data);
    }

    method Start()
      requires Valid()
      modifies this
      ensures Valid()
      ensures !enabled ==> running == old(running)
    {
      if !enabled {
        return;
      }
      running := false;
    }

    method Stop()
      requires Valid()
      modifies this
      ensures Valid()
      ensures !enabled ==> running == old(running)
    {
      if !enabled {
        return;
      }
      running := false;
    }
  }

  /** An enabled stub logs the to_dnp3 points, which always carry both point maps,
      each agent filling its own indices. */
  lemma {:induction false} EnabledLogsAgentPoints(agent: string, p: Dict)
    requires agent in DT.KnownAgents
    ensures var logged := ComputedPoints(agent, Obj(map["prediction" := Obj(p)]));
      logged == Some(DT.Dnp3Fields(agent, p))
      && (agent == "pm_agent" ==> logged.value.analog.Keys == {0, 1} && logged.value.binary.Keys == {0})
      && (agent == "energy_agent" ==> logged.value.analog.Keys == {2, 3} && logged.value.binary.Keys == {})
      && (agent == "cyber_agent" ==> logged.value.analog.Keys == {4} && logged.value.binary.Keys == {1})
      && (agent == "hazard_agent" ==> logged.value.analog.Keys == {5} && logged.value.binary.Keys == {2})
      && (agent == "ppe_agent" ==> logged.value.analog.Keys == {6} && logged.value.binary.Keys == {3})
  {
    var data := map["prediction" := Obj(p)];
    assert DT.PredictionOf(Obj(data)) == DT.Ok(Obj(p));
  }

  /** A payload that is not a JSON object makes `to_dnp3` raise; the stub catches it. */
  lemma NonObjectPayloadCaught(agent: string, data: Value)
    requires !data.Obj?
    ensures ComputedPoints(agent, data).None?
  {
  }
}
