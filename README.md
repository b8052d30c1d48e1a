# Factory monitoring agents and SCADA bridge — a Dafny model

The repository is a multi-agent factory monitoring system. Five monitoring agents each
turn sensor readings into a prediction, run it through a threshold ladder and keep
per-agent state:

- predictive maintenance (remaining useful life and health);
- energy (consumption, efficiency and anomaly);
- cyber (network threat level);
- hazard (gas, fire and noise safety);
- PPE (helmet, vest and gloves compliance).

A backlog agent gathers their alerts per shift and turns them into a shift backlog.
A planner maps alert types to actions, and an orchestrator keeps the newest alerts
and decisions. A SCADA bridge receives the agents' predictions over MQTT and
translates them into three views: an OPC UA node table, a Modbus holding-register
bank and DNP3 points.

This project models, one Dafny module per source file:

- the bridge's translation layer (`DataTransformer`), the Modbus register bank, the
  OPC UA node table, the MQTT message fan-out, the DNP3 stub and the environment
  configuration;
- each agent's decision ladder (`logic.py`), the deterministic parts of each
  agent's model (feature extraction, bounded buffers, heuristics, smoothing, the
  rules applied to the ML outputs) and each agent's state class;
- the shared `StateManager`, the alert router, the agents' alert components and the
  recursive configuration merge;
- the backlog agent's event normalisation, shift aggregation and backlog
  generation around the LLM call;
- the planner's priority table and the orchestrator's bounded lists.

The Python object model the code relies on (dicts of JSON values, `dict.get`,
truthiness, `float()` and `int()` coercions, ASCII case mapping, `strip` and
`split`) is defined once in `py_values.dfy`. Code that updates fields in place is
modelled by classes:

- the Modbus bank is an `array<int>`;
- the OPC UA node table, the MQTT client, the DNP3 stub, the model buffers, the
  state managers and the orchestrator are classes whose methods state their whole
  new state.

Code built from expressions is modelled by functions, and lemmas state its
properties. Machine-learning models, the LLM, clocks and the network are parameters
of the operations that use them.

## Model

| member | source | states |
|---|---|---|
| StateManagement.CombinedEntries | Backend/agents/ppe/state.py:43 | the merged record has every key of both inputs plus timestamp; the logic output's value wins over the prediction's and the time stamp over both |
| StateManagement.StateManager.constructor | Backend/agents/utils/state_manager.py:18-50 | a new manager is initializing, with zero counters and metrics, empty history, no last prediction and no custom state |
| StateManagement.StateManager.Update | Backend/agents/utils/state_manager.py:52-69 | the new state is `Updated` of the old one and the history stays within the buffer (`Valid`); `Updated` and `ConsistentAfterUpdates` state what that means for the counters |
| StateManagement.StateManager.Uptime | Backend/agents/utils/state_manager.py:71-73 | the uptime is the time since the start |
| StateManagement.StateManager.AsDict | Backend/agents/utils/state_manager.py:75-93 | the saved dictionary is `ToDict` of the state |
| StateManagement.StateManager.LoadDict | Backend/agents/utils/state_manager.py:95-113 | the new state is `FromDict` of the old one and the dictionary, with the history within the buffer |
| StateManagement.StateManager.ResetState | Backend/agents/utils/state_manager.py:146-160 | the new state is `Reset` of the old one, within the buffer (`Valid`); `Reset` and `FreshStatesConsistent` state what that state is |
| StateManagement.ConsistentAfterUpdates | Backend/agents/utils/state_manager.py:60-69 | over any run of updates, total = successful + failed = predictions made, and errors = failed, when they held at the start |
| StateManagement.FreshStatesConsistent | Backend/agents/utils/state_manager.py:32-47 | construction and reset give consistent counters (also lines 146-159) |
| StateManagement.HistoryBounded | Backend/agents/utils/state_manager.py:38-66 | the history never exceeds the buffer, and appending to a full one drops its oldest entry |
| StateManagement.RoundTrip | Backend/agents/utils/state_manager.py:75-113 | saving then restoring gives back agent id, status, counters, last prediction, history, metrics and custom state |
| StateManagement.RestoreDefaults | Backend/agents/utils/state_manager.py:102-113 | restoring an empty dictionary keeps the agent id and metrics, sets status "unknown" and empties everything else |
| StateManagement.RestoreKeepsNewest | Backend/agents/utils/state_manager.py:109-110 | a saved history longer than the buffer is cut to its newest buffer-size entries |
| StateManagement.Updated | Backend/agents/utils/state_manager.py:52-69 | every update counts one prediction; a success is counted, remembered and appended last; a failure is counted as failed and as an error and leaves history and last prediction alone; identity, status and custom state are kept; consistent counters stay consistent |
| StateManagement.ToDict | Backend/agents/utils/state_manager.py:75-93 | the saved dictionary has every key, and its uptime is the time since the start |
| StateManagement.FromDict | Backend/agents/utils/state_manager.py:95-113 | the restored history is a suffix of the saved one within the buffer (empty when absent); an absent agent id or metrics keeps the current ones, an absent status is "unknown"; the uptime clock is not restored |
| StateManagement.Reset | Backend/agents/utils/state_manager.py:146-160 | reset keeps only the agent id: status active, the clock restarted, zero counters and metrics, no history, no last prediction, no custom state; the counters are consistent |
| PpeAgentState.PpeState.constructor | Backend/agents/ppe/state.py:19-36 | a fresh manager in the initializing state, and the initial PPE state: level NORMAL, no workers, no violations, no denials, overall rate 100 |
| PpeAgentState.PpeState.Update | Backend/agents/ppe/state.py:41-91 | the manager records the merged prediction and the status follows the level; the PPE state becomes `Updated` of the old one and stays coherent |
| PpeAgentState.PpeState.UpdateCustom | Backend/agents/ppe/state.py:46-81 | the PPE fields become `Updated` of the old ones, each worker still listed once and the overall rate the mean of their rates |
| PpeAgentState.PpeState.Reset | Backend/agents/ppe/state.py:148-157 | the manager is reset and the PPE state is the initial one |
| PpeAgentState.RecordedLookup | Backend/agents/ppe/state.py:51-72 | writing a worker's entry makes it that worker's entry and leaves every other worker's alone |
| PpeAgentState.RecordedIds | Backend/agents/ppe/state.py:51-56 | a new worker is added after the known ones; a known one adds nothing |
| PpeAgentState.LookupIds | Backend/agents/ppe/state.py:51 | a worker has an entry exactly when its id is listed |
| PpeAgentState.DistinctRecorded | Backend/agents/ppe/state.py:51-56 | writing an entry keeps every worker id listed once |
| PpeAgentState.UpdateCoherent | Backend/agents/ppe/state.py:49-77 | an update keeps every worker once and the overall rate the mean of the workers' rates |
| PpeAgentState.WorkerIdSource | Backend/agents/ppe/state.py:43-50 | the worker is the logic's worker_id, else the prediction's, else "unknown" |
| PpeAgentState.WorkerEntry | Backend/agents/ppe/state.py:50-72 | a first-seen worker starts at 0 violations, none last, rate 100; the entry gains one violation stamped now exactly when violations_count > 0, and takes the prediction's rate, 100 when absent |
| PpeAgentState.OtherWorkersUnchanged | Backend/agents/ppe/state.py:49-72 | every other worker's entry is left as it was |
| PpeAgentState.Counters | Backend/agents/ppe/state.py:46-81 | the violation log grows by one record exactly when violations were counted; denials are counted exactly when access_denied is truthy; the level is remembered |
| PpeAgentState.StatusCases | Backend/agents/ppe/state.py:84-89 | the status is critical, warning or active exactly for CRITICAL, WARNING or any other level |
| PpeAgentState.OverallRateBounds | Backend/agents/ppe/state.py:74-77 | with every worker's rate a percentage, the overall rate is one too |
| PpeAgentState.FirstUpdate | Backend/agents/ppe/state.py:49-77 | the first update of a fresh state lists one worker, whose rate is the overall rate |
| CyberAgentState.CyberState.constructor | Backend/agents/cyber/state.py:26-35 | a fresh manager and the initial cyber state: level NORMAL, no blocked addresses, no threats |
| CyberAgentState.CyberState.Update | Backend/agents/cyber/state.py:40-59 | the manager records the merged prediction and the status follows the level; the cyber state becomes `Updated` of the old one |
| CyberAgentState.CyberState.Reset | Backend/agents/cyber/state.py:116-125 | the manager is reset and the cyber state is the initial one |
| CyberAgentState.UpdateEffects | Backend/agents/cyber/state.py:45-50 | the threat count grows by one and the threat time is stamped exactly for WARNING or CRITICAL; the level is remembered; blocked_ips is never touched |
| CyberAgentState.MissingLevel | Backend/agents/cyber/state.py:45 | a logic output without a level counts as NORMAL: no threat, status active |
| CyberAgentState.StatusCases | Backend/agents/cyber/state.py:52-57 | the status is critical, warning or active exactly for CRITICAL, WARNING or any other level, CAUTION included |
| CyberAgentState.ThreatCountIsThreats | Backend/agents/cyber/state.py:40-59 | over any run of updates the threat count grows by the number of WARNING or CRITICAL outputs, and blocked_ips stays as it was |
| HazardAgentState.HazardState.constructor | Backend/agents/safety/state.py:26-36 | a fresh manager and the initial hazard state: level NORMAL, no hazards, empty zones, no evacuations |
| HazardAgentState.HazardState.Update | Backend/agents/safety/state.py:41-70 | the manager records the merged prediction and the status follows the level; the hazard state becomes `Updated` of the old one with no hazard listed twice |
| HazardAgentState.HazardState.UpdateCustom | Backend/agents/safety/state.py:46-58 | the hazard fields become `Updated` of the old ones, and no hazard is listed twice |
| HazardAgentState.HazardState.Reset | Backend/agents/safety/state.py:127-137 | the manager is reset and the hazard state is the initial one |
| HazardAgentState.HazardsTracked | Backend/agents/safety/state.py:49-53 | at WARNING or above the hazard type (UNKNOWN when absent) is listed afterwards and appended only when new; below, the list is unchanged; nothing is removed |
| HazardAgentState.UpdateKeepsNoDuplicates | Backend/agents/safety/state.py:52-53 | an update never lists a hazard type twice |
| HazardAgentState.EvacuationsCounted | Backend/agents/safety/state.py:46-58 | evacuations are counted and stamped exactly when evacuation_required is truthy; the level is remembered; zone status is untouched |
| HazardAgentState.StatusCases | Backend/agents/safety/state.py:61-68 | the status is emergency, critical, warning or active exactly for EMERGENCY, CRITICAL, WARNING or any other level |
| HazardAgentState.HazardsAccumulate | Backend/agents/safety/state.py:41-58 | over any run of updates the list only grows, never repeats, and holds the type of every WARNING-or-above output |
| BacklogAgentState.BacklogState.constructor | Backend/agents/backlog/state.py:24-51 | a fresh manager with a 1000-entry history, and a shift starting now with no events, no backlogs and an empty history |
| BacklogAgentState.BacklogState.AddEvent | Backend/agents/backlog/state.py:57-69 | the event joins the end of the shift's events, stamped now only when it has no time stamp; nothing else changes |
| BacklogAgentState.BacklogState.StartNewShift | Backend/agents/backlog/state.py:75-86 | the shift starts now with no events, the start is returned, and nothing else changes |
| BacklogAgentState.BacklogState.RecordBacklog | Backend/agents/backlog/state.py:95-116 | the state becomes `Recorded` of the old one; `raised` is set exactly when the counts cannot be added |
| BacklogAgentState.BacklogState.Update | Backend/agents/backlog/state.py:118-129 | the manager records the merged prediction and the shift status sets the status; the backlog fields are untouched |
| BacklogAgentState.BacklogState.Reset | Backend/agents/backlog/state.py:212-222 | the manager is reset and a fresh shift starts with no events, no backlogs and an empty history |
| BacklogAgentState.StampedEvent | Backend/agents/backlog/state.py:65-66 | an existing time stamp is kept, a missing one becomes now, and no other key changes |
| BacklogAgentState.RecordedHistory | Backend/agents/backlog/state.py:102-114 | a record counts exactly one backlog and stamps the time; the history keeps at most ten entries with the new one last and the older ones in order; a raising addition leaves the history as it was |
| BacklogAgentState.NewestPush | Backend/agents/backlog/state.py:108-114 | appending to a history of at most n and keeping the newest n adds the entry last and drops the oldest only when full |
| BacklogAgentState.EntryTotals | Backend/agents/backlog/state.py:102-112 | the entry's total adds both counts, a missing one counting 0, and the id defaults to "unknown" |
| BacklogAgentState.TextCountRaises | Backend/agents/backlog/state.py:112 | a text count makes the addition raise, so no entry is written |
| BacklogAgentState.LoggedRun | Backend/agents/backlog/state.py:103-114 | over any run of records the count grows by the number of calls, raising ones included, and the history is the newest ten entries written |
| BacklogAgentState.RecordedRun | Backend/agents/backlog/state.py:95-114 | over any run of backlogs the count grows by their number, and the history is the newest ten of all entries written |
| BacklogAgentState.NewestAppend | Backend/agents/backlog/state.py:114 | trimming to the newest n after each append equals trimming once at the end |
| BacklogAgentState.StatusCases | Backend/agents/backlog/state.py:123-129 | the status is critical, warning or active exactly for CRITICAL, WARNING or any other shift status |
| BacklogLogic.CompleteStaysComplete | Backend/agents/backlog/logic.py:43-44 | a shift counts as complete once its duration in seconds has elapsed, and a complete shift stays complete at every later time |
| BacklogLogic.NextShiftBoundary | Backend/agents/backlog/logic.py:56-74 | for a shift of one to 24 hours the next start exists, lies on the hour at an hour that is a multiple of the shift length, strictly after now and at most one day later |
| BacklogLogic.EventsPerHour | Backend/agents/backlog/logic.py:160 | the rate times the shift length is the number of events for a shift of positive length, and 0 otherwise |
| BacklogLogic.CalculateStatistics | Backend/agents/backlog/logic.py:129-161 | it raises exactly when some event's agent id is a list or a dict; otherwise the totals are the list lengths, the severity counts count each level in each list, the agent counts are accumulated over violations then anomalies, and the rate is events per hour of the shift |
| BacklogLogic.AggregateShiftData | Backend/agents/backlog/logic.py:90-123 | it raises exactly when some event's agent id is a list or a dict; otherwise the violations and anomalies are exactly the selections of the events, in order, and the statistics are those of the two lists |
| BacklogLogic.ApplyLogic | Backend/agents/backlog/logic.py:173-202 | the total is the number of events of both lists, and attention is required exactly when some event is critical or there are more than five violations |
| BacklogLogic.SelectSplits | Backend/agents/backlog/logic.py:93-112 | every event lands in exactly one list: together the two lists are a rearrangement of the events and their lengths add up |
| BacklogLogic.SelectedMembers | Backend/agents/backlog/logic.py:93-112 | the violations are exactly the events that are violations and the anomalies exactly the others |
| BacklogLogic.SelectAppend | Backend/agents/backlog/logic.py:93-112 | the split keeps the events' relative order: splitting a concatenation concatenates the splits |
| BacklogLogic.Categories | Backend/agents/backlog/logic.py:94-112 | PPE and hazard events are violations, cyber and energy events anomalies, PM events violations exactly at CRITICAL or EMERGENCY, and an event without an agent id an anomaly |
| BacklogLogic.CountLevelSplits | Backend/agents/backlog/logic.py:130-142 | the count of a level over the violations plus that over the anomalies is its count over all events |
| BacklogLogic.AgentCountsTotal | Backend/agents/backlog/logic.py:145-148 | the per-agent counts add up to the number of events |
| BacklogLogic.AgentCountsKeys | Backend/agents/backlog/logic.py:145-148 | exactly the agent ids of the events (with "unknown" for a missing one) have a count |
| BacklogLogic.ShiftCritical | Backend/agents/backlog/logic.py:178-183 | after aggregation the critical count is the number of CRITICAL or EMERGENCY events, the total is the number of events, and the shift is CRITICAL exactly when one such event exists |
| BacklogLogic.Ladder | Backend/agents/backlog/logic.py:183-194 | the status is CRITICAL with any critical event, else WARNING above 20 events, CAUTION above 10, NORMAL otherwise; priority 1 exactly for CRITICAL, and always between 1 and 4 |
| BacklogLogic.NextShiftStart | Backend/agents/backlog/logic.py:56-74 | the next start cannot be computed (the code raises) exactly for a shift length of zero or of more than 24 hours; negative lengths follow Python's floor division and still give an hour of the day |
| BacklogLogic.ShiftHourInRange | Backend/agents/backlog/logic.py:58-68 | the number of shifts a day is zero exactly for shifts longer than a day; any other non-zero length gives a next shift hour in 0..23, so `replace` never raises |
| BacklogModel.BacklogIdShape | Backend/agents/backlog/model.py:258 | a text shift start gives the id "backlog_" followed by the start with every ':' made '-' and every ' ' made '_', of the same length, keeping every other character (also line 202) |
| BacklogModel.IsoBacklogId | Backend/agents/backlog/model.py:258 | an ISO start such as 2024-01-01T08:00:00 gives the id backlog_2024-01-01T08-00-00 |
| BacklogModel.FencedReply | Backend/agents/backlog/model.py:188-195 | a JSON object fenced as a json code block, as a bare code block, or unfenced is read as the object's text |
| BacklogModel.BucketMembers | Backend/agents/backlog/model.py:235-246 | the mock's critical, warning and caution buckets hold exactly the events of their levels (CRITICAL or EMERGENCY for critical), no event is in two buckets, and other levels are in none |
| BacklogModel.RecommendationOrder | Backend/agents/backlog/model.py:249-255 | each of the three recommendations is present exactly when its condition holds, in the fixed order, with no others |
| BacklogModel.PriorityItemsOnCritical | Backend/agents/backlog/model.py:267-274 | the mock has one priority item exactly when some violation is CRITICAL or EMERGENCY, and none otherwise |
| BacklogModel.PromptLimits | Backend/agents/backlog/model.py:106-132 | the prompt states both full totals but lists at most fifty events of each kind, numbered from 1 in order |
| BacklogModel.ItemPlaceholders | Backend/agents/backlog/model.py:122-125 | an event without fields is listed as [unknown] UNKNOWN - No message at time unknown and without details |
| BacklogModel.BacklogId | Backend/agents/backlog/model.py:258 | the id cannot be built (replace raises) exactly when a shift start is present and is not text; otherwise it begins with "backlog_" |
| BacklogModel.MockBacklog | Backend/agents/backlog/model.py:229-280 | the mock fails exactly when the id cannot be built; otherwise it carries the id, the shift period, the statistics, both full totals and the current time |
| BacklogModel.ParseResponse | Backend/agents/backlog/model.py:175-227 | fails exactly when the id cannot be built; a parsed backlog carries the id, shift period, statistics, full totals and the current time; a reply that does not parse to a JSON object gives the mock |
| BacklogModel.GenerateBacklog | Backend/agents/backlog/model.py:84-102 | generation fails exactly when a shift start is present and is not text; on every path (no model, failing call, parsed or unparsable reply) the backlog carries the id, shift period, statistics, full totals and the current time; without a model it is the mock |
| AlertRouting.AlertRouter.constructor | Backend/agents/utils/alert_router.py:35-43 | the router holds the channel configurations grouped by type |
| AlertRouting.AlertRouter.RouteAlert | Backend/agents/utils/alert_router.py:65-90 | the nested loops over groups and configurations return exactly `RoutedGroups`: the type once per receiving configuration whose send does not raise, in group order, and None once a severity test raises |
| AlertRouting.ParseChannels | Backend/agents/utils/alert_router.py:45-63 | the loop that fills the dict of lists computes the grouping `Grouped` defines |
| AlertRouting.AddToGroupFor | Backend/agents/utils/alert_router.py:58-61 | adding a configuration appends it to its own type's list and to no other |
| AlertRouting.AddToTypes | Backend/agents/utils/alert_router.py:59-60 | a new type opens a group at the end; a known type opens none |
| AlertRouting.AddToFlatten | Backend/agents/utils/alert_router.py:57-61 | adding a configuration adds it once to the grouped configurations |
| AlertRouting.GroupedByType | Backend/agents/utils/alert_router.py:55-63 | each type's list is the configurations of that type, in their original order |
| AlertRouting.GroupTypes | Backend/agents/utils/alert_router.py:55-63 | the groups have distinct types, and a type has a group exactly when some configuration has that type |
| AlertRouting.GroupsPartition | Backend/agents/utils/alert_router.py:55-63 | every configuration appears in the groups exactly once |
| AlertRouting.GroupFailsFrom | Backend/agents/utils/alert_router.py:79-83 | once a severity test raises inside a group, that group's routing raises |
| AlertRouting.GroupsFailFrom | Backend/agents/utils/alert_router.py:78-83 | once a group's routing raises, the whole routing raises |
| AlertRouting.ReceivesCases | Backend/agents/utils/alert_router.py:81-83 | a configuration without a severity list, or with an empty one, takes every alert; with a list it takes the alert exactly when the list names the severity |
| AlertRouting.DefaultSeverity | Backend/agents/utils/alert_router.py:75 | an alert without a severity is routed as NORMAL |
| AlertRouting.GroupRoutesReceivers | Backend/agents/utils/alert_router.py:78-90 | with no test raising and no send raising, a group yields its type once per receiving configuration |
| AlertRouting.RaisingSendSkipped | Backend/agents/utils/alert_router.py:84-88 | a send that raises drops only its own configuration; the rest of the group is routed as before |
| AlertRouting.UnknownTypeRouted | Backend/agents/utils/alert_router.py:86-114 | a type outside the six known ones is only logged, yet a receiving configuration of it is counted as routed |
| AlertRouting.SendCases | Backend/agents/utils/alert_router.py:101-150 | each known type goes to its own sender; mqtt uses the configured topic (default alerts/default), webhook the configured url |
| AlertRouting.StringSeverityList | Backend/agents/utils/alert_router.py:81-83 | a severity list written as a string is tested by substring, and a non-container list makes the test raise |
| AlertRouting.PublishGating | Backend/agents/maint/alerts.py:109-125 | at most one publish, and one exactly when an mqtt channel is configured and the client is connected; it goes to the first mqtt channel's topic, else to alerts/<agent> |
| AlertRouting.MqttTopicFound | Backend/agents/maint/alerts.py:113-116 | a topic is found exactly when some channel has type mqtt, and it is the first such channel's topic or alerts/<agent> |
| AlertRouting.SeverityCases | Backend/agents/maint/alerts.py:54-60 | CAUTION, WARNING, CRITICAL and EMERGENCY keep their names as severity, any other hashable level becomes WARNING, and every severity is a known non-NORMAL one |
| BacklogAlerting.BacklogAlerts.constructor | Backend/agents/backlog/alerts.py:16-22 | a router exists exactly when channels are configured, grouped as the router groups them; nothing is published yet |
| BacklogAlerting.BacklogAlerts.HandleBacklogGenerated | Backend/agents/backlog/alerts.py:24-72 | the channels reached are those `Routed` gives, and the publishes added are exactly `Published`: the alert on alerts/<agent> when it was built and routed without raising and the client is connected |
| BacklogAlerting.AlertRaised | Backend/agents/backlog/alerts.py:33-49 | an alert is built exactly when the statistics are a dict, the shift status is CRITICAL or WARNING, and the priority items have a length |
| BacklogAlerting.NoStatisticsSilent | Backend/agents/backlog/alerts.py:33-35 | a backlog without statistics is a NORMAL shift: nothing is routed or published |
| BacklogAlerting.AlertFields | Backend/agents/backlog/alerts.py:37-44 | severity and alert_level are the shift status, and the alert carries the agent, the backlog's time and its summary in the message |
| BacklogAlerting.AlertData | Backend/agents/backlog/alerts.py:45-50 | the data holds exactly the backlog id, both totals (0 where missing) and the number of priority items (0 where missing) |
| BacklogAlerting.NoChannels | Backend/agents/backlog/alerts.py:21-58 | with no channels there is no router: the alert reaches no channel but is still published when the client is connected |
| BacklogAlerting.PublishedCases | Backend/agents/backlog/alerts.py:57-68 | at most one publish, on alerts/<agent>, and one exactly when the alert was routed and the client is connected |
| PmAlerting.PmAlerts.constructor | Backend/agents/maint/alerts.py:21-35 | the component keeps the agent, its channels and a router over them; nothing is published yet |
| PmAlerting.PmAlerts.HandleAlerts | Backend/agents/maint/alerts.py:39-89 | the channels reached are `Routed` and the publishes added are exactly `Published`: nothing for NORMAL, for an alert that cannot be built, or for a routing that raises |
| PmAlerting.NormalIsSilent | Backend/agents/maint/alerts.py:47-51 | a NORMAL or missing level routes and publishes nothing |
| PmAlerting.AlertRaised | Backend/agents/maint/alerts.py:47-107 | an alert is built exactly when the level is not NORMAL, can be a dict key, and the remaining life can be formatted as a number |
| PmAlerting.AlertFields | Backend/agents/maint/alerts.py:54-68 | the alert carries the agent, the mapped severity (a known non-NORMAL one), the level, the timestamp and the message |
| PmAlerting.AlertDictHeader | Backend/agents/maint/alerts.py:63-68 | the alert's header fields are the agent, the given severity, the logic's level and its timestamp |
| PmAlerting.AlertData | Backend/agents/maint/alerts.py:69-76 | the data holds exactly the six maintenance fields of the logic output, null where missing |
| PmAlerting.MessageText | Backend/agents/maint/alerts.py:91-107 | the message names the level, the remaining life to one decimal, the action and the recommendation, in that order |
| PmAlerting.MissingRul | Backend/agents/maint/alerts.py:102 | a missing remaining life reads as 0.0 hours |
| PmAlerting.TextRulSilent | Backend/agents/maint/alerts.py:68-107 | a text remaining life makes the message raise, so nothing is routed or published |
| PmAlerting.PublishedCases | Backend/agents/maint/alerts.py:80-125 | one publish at most, and one exactly when the alert was routed, an mqtt channel exists and the client is connected; it goes to that channel's topic |
| CyberAlerting.CyberAlerts.constructor | Backend/agents/cyber/alerts.py:16-22 | the component keeps the agent, its channels and a router over them; nothing is published yet |
| CyberAlerting.CyberAlerts.HandleAlerts | Backend/agents/cyber/alerts.py:24-59 | the channels reached are `Routed` and the publishes added are exactly `Published` |
| CyberAlerting.NormalIsSilent | Backend/agents/cyber/alerts.py:27-29 | a NORMAL or missing level routes and publishes nothing |
| CyberAlerting.AlertRaised | Backend/agents/cyber/alerts.py:27-66 | an alert is built exactly when the level is not NORMAL, can be a dict key, and the anomaly score is a number |
| CyberAlerting.AlertFields | Backend/agents/cyber/alerts.py:31-44 | known levels keep their name as severity and others become WARNING; the alert carries agent, level, timestamp and message |
| CyberAlerting.AlertDictHeader | Backend/agents/cyber/alerts.py:39-44 | the alert's header fields are the agent, the given severity, the logic's level and its timestamp |
| CyberAlerting.AlertData | Backend/agents/cyber/alerts.py:45-50 | the data holds exactly threat_level, anomaly_score, consecutive_anomalies and action, null where missing |
| CyberAlerting.MissingScore | Backend/agents/cyber/alerts.py:61-66 | the message names the level and the threat, and a missing score reads as 0.00 |
| CyberAlerting.TieScore | Backend/agents/cyber/alerts.py:66 | a score half-way between two hundredths is written with the even one (0.125 gives 0.12) |
| CyberAlerting.TextScoreSilent | Backend/agents/cyber/alerts.py:44-66 | a text anomaly score makes the message raise, so nothing is routed or published |
| CyberAlerting.PublishedCases | Backend/agents/cyber/alerts.py:53-79 | one publish at most, and one exactly when the alert was routed, an mqtt channel exists and the client is connected |
| PmAlerting.WholeHours | Backend/agents/maint/alerts.py:107 | a whole number of hours is printed with one zero decimal |
| BacklogCommunicating.SearchTopic | Backend/agents/backlog/communication.py:155-158 | the loop's answer is the first of the five agent names that occurs in the topic, "unknown" when none does |
| BacklogCommunicating.BacklogCommunication.constructor | Backend/agents/backlog/communication.py:26-70 | the component keeps its agent id, the settings read from its configuration and whether a callback exists, and has handled and published nothing |
| BacklogCommunicating.BacklogCommunication.OnMqttMessage | Backend/agents/backlog/communication.py:141-184 | a message whose event can be built is handed to the callback when there is one; a message that raises is dropped; nothing is published |
| BacklogCommunicating.BacklogCommunication.PublishBacklog | Backend/agents/backlog/communication.py:186-207 | one publish on the configured topic of the agent id, the backlog's generation time and the backlog |
| BacklogCommunicating.FirstNamedFound | Backend/agents/backlog/communication.py:153-158 | a name is found exactly when some name occurs in the topic, and the one found is the first that occurs, in search order |
| BacklogCommunicating.DefaultTopicAgents | Backend/agents/backlog/communication.py:155-158 | a message without an agent id on one of the five default alert topics is attributed to that topic's own agent (also lines 52-58) |
| BacklogCommunicating.EventAgent | Backend/agents/backlog/communication.py:152-162 | the event's agent is the message's own unless missing or "unknown", in which case it is the agent named by the topic |
| BacklogCommunicating.EventFallbacks | Backend/agents/backlog/communication.py:161-168 | the event has exactly six fields; the level falls back to the severity then UNKNOWN, the time stamp to the data's, message and data to empty, and the topic is recorded |
| BacklogCommunicating.DefaultTopics | Backend/agents/backlog/communication.py:41-64 | without configuration the broker is localhost:1883, the five alert topics are subscribed, backlogs go to backlogs/shift_backlog and the API port is 8006 |
| BacklogCommunicating.DefaultSubscriptions | Backend/agents/backlog/communication.py:52-58 | the default subscriptions are alerts/ followed by each of the five agent names, in the search order |
| BacklogCommunicating.SliceNewest | Backend/agents/backlog/communication.py:100 | a positive end slice keeps the k newest items in order, or all items when there are fewer |
| BacklogCommunicating.SliceZero | Backend/agents/backlog/communication.py:110 | a history limit of 0 shows the whole history |
| BacklogCommunicating.Settings | Backend/agents/backlog/communication.py:41-64 | construction raises when the mqtt or api section is not a dict or the publish topic list is empty; with a non-empty topic list it publishes on the first topic |
| BacklogCommunicating.Event | Backend/agents/backlog/communication.py:141-184 | no event exactly when the payload does not decode, the document is not a dict, or its data is not a dict; an event has exactly six fields, records the topic and carries the data |
| BacklogCommunicating.CurrentShift | Backend/agents/backlog/communication.py:91-102 | without state the view is an error; otherwise it counts every event of the shift, shows the ten newest in order, and reports the stored shift start or else the current time |
| ConfigLoading.MergeConfigs | Backend/agents/utils/config_loader.py:62-82 | the loop over the override's keys, with a recursive call where both sides hold a dict, computes exactly the merge `Merged` defines; the inputs are values and are left as they were |
| ConfigLoading.Merged | Backend/agents/utils/config_loader.py:74-82 | the merge has exactly the keys of both sides |
| ConfigLoading.MergedEntries | Backend/agents/utils/config_loader.py:74-80 | keys only in the base keep the base value; an override value wins unless both sides hold a dict, which are merged recursively |
| ConfigLoading.MergeIdentities | Backend/agents/utils/config_loader.py:74-82 | merge(b, {}) = b and merge({}, o) = o |
| ConfigLoading.MergeSelf | Backend/agents/utils/config_loader.py:74-82 | merging a configuration into itself changes nothing |
| ConfigLoading.MergeTwice | Backend/agents/utils/config_loader.py:74-82 | applying the same override twice equals applying it once |
| ConfigLoading.AgentPrecedence | Backend/agents/utils/config_loader.py:97-110 | agent values take precedence over common ones except where both hold a dict, common keys the agent lacks are kept, and without a common file the agent's configuration is used unchanged |
| ConfigLoading.AgentConfig | Backend/agents/utils/config_loader.py:97-110 | a missing agent file is an error whatever the common file holds; otherwise the configuration has exactly the agent's keys and the common file's |
| ConfigLoading.CheckedPasses | Backend/agents/utils/config_loader.py:52-59 | validation passes exactly when every required section is a key of the configuration |
| ConfigLoading.CheckedReportsFirst | Backend/agents/utils/config_loader.py:54-56 | a reported section is missing from the configuration and every section before it is present |
| ConfigLoading.ValidateConfig | Backend/agents/utils/config_loader.py:52-59 | validation passes exactly when the schema's required sections can be iterated and each is a text that is a key of the configuration; a schema without required_sections accepts every configuration |
| Planning.PriorityTable | Backend/agents/planner/main.py:13-22 | each of the four table types has its own priority 1-4, every other type gets 5, and every priority lies in 1..5 |
| Planning.ExactTypes | Backend/agents/planner/main.py:13-22 | type matching is exact: "ddos_risk", "DDOS_RISK" and "ppe_violation" get priority 5 |
| Planning.PriorityOrder | Backend/agents/planner/main.py:12-18 | safety outranks cyber, cyber maintenance, maintenance energy, and energy every unlisted type |
| Planning.ActionCases | Backend/agents/planner/main.py:24-32 | priorities 1-4 map to their four pairwise different actions; a priority is LOG_ONLY exactly when it is outside 1..4 |
| Planning.CreatePlan | Backend/agents/planner/main.py:21-38 | the plan echoes the alert and its priority, which lies in 1..5, and it is LOG_ONLY exactly for a type outside the table |
| Planning.PlanDocFields | Backend/agents/planner/main.py:34-38 | the answer document carries the action, the priority and the alert's fields |
| Orchestration.Orchestrator.constructor | Backend/agents/orchestrator/main.py:34-38 | the service starts with empty alert and decision lists, no notification, and the start time as last update |
| Orchestration.Orchestrator.ReceiveAlert | Backend/agents/orchestrator/main.py:41-78 | a failed planner call leaves the lists unchanged and answers an error with its text; an answer pushes the alert and the decision to the front of the 50-bounded lists before the action is read; a plan without an action answers the lookup error; otherwise the answer is handled with the action, and the notifier is called once exactly for a CRITICAL level in any letter case; decisions stay paired with their alerts |
| Orchestration.Orchestrator.GetSystemState | Backend/agents/orchestrator/main.py:81-84 | only the last-update time changes, and the snapshot holds both lists and the new time |
| Orchestration.PushedNewestFirst | Backend/agents/orchestrator/main.py:57-62 | after an insert at index 0 and trimming, the new entry is first, the older ones follow in order, and the length is min(n+1, 50) |
| Orchestration.PushedDropsOldest | Backend/agents/orchestrator/main.py:57-62 | a full list loses exactly its oldest entry |
| Orchestration.ReceivedNewest | Backend/agents/orchestrator/main.py:57-62 | from empty, any run of answered alerts leaves the newest min(n, 50) of them, newest first |
| Orchestration.CriticalCases | Backend/agents/orchestrator/main.py:67-72 | "CRITICAL" and "critical" notify, "WARNING" does not, and any notifying level has 8 letters |
| Orchestration.PlannerAnswer | Backend/agents/orchestrator/main.py:48-74 | with the planner's own answer the reported action is the planner's action for the alert's type |
| Orchestration.MissingActionRecorded | Backend/agents/orchestrator/main.py:57-64 | an answer without "action" raises KeyError('action') after the lists were updated |
| AgentBridge.LadderLevels | Backend/agents/maint/logic.py:60-88 | the maintenance ladder, its fallback included, only ever chooses EMERGENCY, CRITICAL, WARNING, CAUTION or NORMAL |
| AgentBridge.LevelOnRegister | Backend/scada_bridge/data_transformer.py:164-165 | for a published level the ladder can choose, Modbus register 2 is 2 exactly for CRITICAL and 1 exactly for WARNING, while EMERGENCY reads as 0 like CAUTION and NORMAL (also lines 14-19) |
| AgentBridge.PmLevelOnRegister | Backend/agents/maint/main.py:177-187 | the maintenance agent's own level, merged into the document it publishes, reaches register 2 as above: EMERGENCY is reported to Modbus clients as 0 |
| BridgeConfig.WhitelistEntries | Backend/scada_bridge/config.py:34-35 | every whitelist entry is a non-empty, stripped segment of the configured text |
| BridgeConfig.WhitelistKeeps | Backend/scada_bridge/config.py:35 | every non-blank segment is kept, stripped, in the order of the text |
| BridgeConfig.WhitelistConcat | Backend/scada_bridge/config.py:35 | the whitelist of two texts joined by a comma is the first's whitelist followed by the second's |
| BridgeConfig.WhitelistSingle | Backend/scada_bridge/config.py:34-35 | a text without commas is a one-address whitelist when not blank, and an empty one (allow all) when blank |
| BridgeConfig.FlagCases | Backend/scada_bridge/config.py:24-38 | a flag is on exactly for the word true in any letter case: "1", "yes", "" and " true" leave it off |
| BridgeConfig.Defaults | Backend/scada_bridge/config.py:12-43 | an empty environment gives localhost:1883 with keep-alive 60 and retry 5, OPC UA 4840 anonymous, Modbus 502 unit 1 with an empty whitelist, DNP3 off on 20000, log level INFO |
| BridgeConfig.EndpointPort | Backend/scada_bridge/config.py:19 | the OPC UA endpoint is the fixed prefix and suffix around the port's text, which reads back as the port |
| BridgeConfig.PortSetting | Backend/scada_bridge/config.py:18 | a port set in the environment as an integer's text is read as that integer |
| BridgeConfig.MqttIntDefaults | Backend/scada_bridge/config.py:13-15 | with no environment the MQTT port, keep-alive and retry delay are 1883, 60 and 5 |
| BridgeConfig.ServerIntDefaults | Backend/scada_bridge/config.py:18-39 | with no environment the OPC UA, Modbus and DNP3 ports are 4840, 502 and 20000 and the unit id is 1 |
| BridgeConfig.TextDefaults | Backend/scada_bridge/config.py:24-43 | the default flag texts read as true and false, the log level stays INFO and the empty whitelist allows all |
| CyberLogic.ApplyLogic | Backend/agents/cyber/logic.py:22-56 | outside the error fallback the threat level, score, count and flag are echoed from the prediction with their defaults, and the priority is always 1 to 4 |
| CyberLogic.DefaultThresholds | Backend/agents/cyber/logic.py:16-18 | an empty configuration gives a consecutive threshold of 5 and score thresholds 0.9 and 0.7 |
| CyberLogic.Ladder | Backend/agents/cyber/logic.py:61-94 | on a text label and numbers, CRITICAL exactly for the CRITICAL label or a count at the threshold, else WARNING exactly for HIGH, else CAUTION exactly for MEDIUM or a flagged anomaly, else NORMAL, with priorities 1 to 4 |
| CyberLogic.LabelsCaseSensitive | Backend/agents/cyber/logic.py:61-71 | labels match exactly: lower-case high or critical below the threshold gives at most CAUTION |
| CyberLogic.ScoreNeverDecides | Backend/agents/cyber/logic.py:58-94 | the decision is the same whatever the anomaly score's value and whatever the two configured score thresholds (also lines 17-18) |
| CyberLogic.MoreAnomaliesMoreUrgent | Backend/agents/cyber/logic.py:61 | more consecutive anomalies never give a less urgent priority |
| CyberLogic.EmptyPrediction | Backend/agents/cyber/logic.py:25-28 | an empty prediction is NORMAL with MONITOR and priority 4, label LOW and count 0, whenever the threshold is positive (also lines 89-94) |
| CyberLogic.Fallback | Backend/agents/cyber/logic.py:45-61 | a count that is not a number under a label that is not CRITICAL makes the comparison raise, giving WARNING, INVESTIGATE, priority 3 and fixed LOW, 0.0, 0, False |
| CyberModel.ExtractFeatures | Backend/agents/cyber/model.py:104-115 | every feature of a reading that converts is at most 1 |
| CyberModel.CyberModel.constructor | Backend/agents/cyber/model.py:23-40 | an empty buffer bounded by the sequence length and no consecutive anomalies |
| CyberModel.CyberModel.Preprocess | Backend/agents/cyber/model.py:68-92 | the features of a reading that converts are appended to the bounded buffer, dropping the oldest when full; a reading that raises leaves the buffer; the counter is untouched |
| CyberModel.CyberModel.Predict | Backend/agents/cyber/model.py:117-208 | the counter counts the run of anomalies and resets on a normal sample, the threat comes from the score and the counter; the mock flags latency above 0.5 with confidence 0.70, the forest flags label -1 with a normalised score and confidence 0.85 once the buffer holds more than five samples; an exception gives the fixed error prediction and leaves the counter |
| CyberModel.CyberModel.ResetConsecutive | Backend/agents/cyber/model.py:210-212 | the counter is 0 and the buffer is unchanged |
| CyberModel.FeatureScaling | Backend/agents/cyber/model.py:104-113 | each feature is its reading over its scale (100 ms, 100 %, 1000 Mbps, 1000 connections), capped at 1, the reading taken under its name or dataset alias |
| CyberModel.DefaultFeatures | Backend/agents/cyber/model.py:104-107 | a reading without fields gives the features 0.05, 0, 0.1 and 0.01 |
| CyberModel.ThreatLadder | Backend/agents/cyber/model.py:176-185 | each threat label exactly under its condition on the count (5, 3, 1) and the score (0.9, 0.7, 0.5), in order |
| CyberModel.ThreatMonotone | Backend/agents/cyber/model.py:176-185 | a higher score or a longer run never lowers the threat |
| CyberModel.ScoreRange | Backend/agents/cyber/model.py:142-178 | an anomaly's normalised score lies in [0, 1]; a normal sample's is never negative but reaches 1, hence a CRITICAL threat, from a decision value of 0 upwards |
| CyberModel.RunOfFive | Backend/agents/cyber/model.py:148-178 | the fifth anomaly in a row makes the threat CRITICAL whatever the score |
| CyberLogic.DetermineAlert | Backend/agents/cyber/logic.py:58-94 | a decision pairs CRITICAL / IMMEDIATE_RESPONSE / 1, WARNING / INVESTIGATE / 2, CAUTION / MONITOR / 3 or NORMAL / MONITOR / 4; a count that is not a number under a label other than CRITICAL raises; with a numeric score and a CRITICAL label or numeric count it never raises; a non-numeric score gets through only to NORMAL |
| DataTransformer.SafeGet | Backend/scada_bridge/data_transformer.py:38-48 | a missing key, a None value or a conversion that raises ValueError or TypeError gives the default; otherwise the converted value |
| DataTransformer.ParseMqttPrediction | Backend/scada_bridge/data_transformer.py:50-59 | no document exactly for malformed JSON or the JSON null, otherwise the parsed document itself |
| DataTransformer.OpcuaWritesAgentNames | Backend/scada_bridge/data_transformer.py:61-149 | a translation that succeeds writes exactly the agent's node names, and an unknown agent gets no values whatever its prediction holds |
| DataTransformer.OpcuaEmptyPrediction | Backend/scada_bridge/data_transformer.py:67-147 | a payload without a prediction, or with an empty one, yields every node's default (0, 100, normal, low, No action required, False) |
| DataTransformer.OpcuaKinds | Backend/scada_bridge/data_transformer.py:70-147 | whatever the prediction holds, each value written has the variant type of that node's default |
| DataTransformer.ToOpcua | Backend/scada_bridge/data_transformer.py:61-149 | the translation raises exactly when the payload, or for a known agent its prediction, is not a JSON object; it never writes the status or threshold nodes |
| DataTransformer.ModbusWritesAgentBlock | Backend/scada_bridge/data_transformer.py:151-200 | a translation that succeeds writes exactly the agent's fixed register block (none for an unknown agent), all below the status block at 500 |
| DataTransformer.ModbusScaling | Backend/scada_bridge/data_transformer.py:162-173 | failure probability is scaled by 100 and the consumption figures by 10, truncated toward zero; register 103 is 1 exactly when is_anomaly is present and truthy, else 0 |
| DataTransformer.FailurePercent | Backend/scada_bridge/data_transformer.py:166 | a numeric failure probability lands in register 3 as its percentage truncated toward zero, within 1 of it |
| DataTransformer.ModbusEmptyPrediction | Backend/scada_bridge/data_transformer.py:157-198 | an empty prediction gives 100 in the network-health, safety-score and three PPE-rate registers and 0 in every other register of the block |
| DataTransformer.LabelCodeNonZero | Backend/scada_bridge/data_transformer.py:14-36 | a label register is non-zero exactly when the field is text whose lower-case form has a non-zero table entry; booleans, numbers and containers always give 0 (also lines 164-165, 178-179 and 186-187) |
| DataTransformer.AlertRegister | Backend/scada_bridge/data_transformer.py:164-165 | register 2 is 1 exactly for warning and 2 exactly for critical in any letter case, and 0 otherwise (also lines 14-19) |
| DataTransformer.Dnp3Binary | Backend/scada_bridge/data_transformer.py:211-234 | the PM binary point is set exactly for a critical level in any letter case, the cyber, hazard and PPE points exactly for a positive count, and energy sets none |
| DataTransformer.Dnp3EmptyPrediction | Backend/scada_bridge/data_transformer.py:208-234 | with no prediction fields no binary point is raised |
| DataTransformer.ModbusFieldsOfNothing | Backend/scada_bridge/data_transformer.py:151-200 | an empty prediction gives each known agent its default register values |
| DataTransformer.RegisterOfNothing | Backend/scada_bridge/data_transformer.py:151-200 | from an empty prediction every register of a known agent reads 0, except 203, 302, 400, 403 and 404, which read 100 |
| DataTransformer.TableKeysAreWords | Backend/scada_bridge/data_transformer.py:14-36 | every key of the three label tables is a lower-case word other than the texts of True, False and None |
| DataTransformer.ToModbus | Backend/scada_bridge/data_transformer.py:151-200 | the translation raises exactly when the payload, or for a known agent its prediction, is not a JSON object; every register it writes lies below the status block at 500 |
| DataTransformer.ToDnp3 | Backend/scada_bridge/data_transformer.py:205-236 | the translation raises exactly when the payload, or for a known agent its prediction, is not a JSON object; analog indices lie in 0..6 and binary ones in 0..3, and an unknown agent gets no points |
| Dnp3Server.ComputedPoints | Backend/scada_bridge/dnp3_server.py:39-49 | points are computed exactly when the DNP3 translation does not raise; a raising one is caught |
| Dnp3Server.Dnp3BridgeServer.constructor | Backend/scada_bridge/dnp3_server.py:21-24 | the enabled flag is the DNP3_ENABLED setting and the stub is not running |
| Dnp3Server.Dnp3BridgeServer.UpdateFromMqtt | Backend/scada_bridge/dnp3_server.py:31-49 | a disabled stub does nothing; an enabled one only computes the points it logs, and stores nothing |
| Dnp3Server.Dnp3BridgeServer.Start | Backend/scada_bridge/dnp3_server.py:51-59 | the stub never reaches the running state, and a disabled one is left as it was |
| Dnp3Server.Dnp3BridgeServer.Stop | Backend/scada_bridge/dnp3_server.py:61-67 | the stub is not running afterwards, and a disabled one is left as it was |
| Dnp3Server.EnabledLogsAgentPoints | Backend/scada_bridge/dnp3_server.py:41-46 | an enabled stub logs the agent's DNP3 points, each agent filling exactly its own analog and binary indices |
| Dnp3Server.NonObjectPayloadCaught | Backend/scada_bridge/dnp3_server.py:48-49 | a payload that is not a JSON object raises inside the translation and is caught, so nothing is computed |
| ModbusServer.Clamp16 | Backend/scada_bridge/modbus_server.py:66-73 | the stored value is always a signed 16-bit word: values in range are kept, larger ones become 32767 and smaller ones -32768 |
| ModbusServer.StatusCode | Backend/scada_bridge/modbus_server.py:98-106 | register 503 is 0 exactly for a health of at least 50, 1 exactly between 25 and 50, 2 exactly below 25 |
| ModbusServer.ModbusBridgeServer.constructor | Backend/scada_bridge/modbus_server.py:23-30 | a fresh bank of 1000 registers, all 0, not running |
| ModbusServer.ModbusBridgeServer.UpdateFromMqtt | Backend/scada_bridge/modbus_server.py:55-82 | the bank becomes the function that defines one update: the clamped translated values stored, the status block recomputed, or nothing when the translation raises |
| ModbusServer.ModbusBridgeServer.StoreTranslation | Backend/scada_bridge/modbus_server.py:63-82 | the loop stores every translated address clamped and leaves every other register, then recomputes the status block; every register stays a 16-bit word |
| ModbusServer.ModbusBridgeServer.UpdateSystemStatus | Backend/scada_bridge/modbus_server.py:84-108 | register 500 becomes the floored mean of registers 1 and 302 when either is positive, 501 becomes 5 and 503 the status code of 500 |
| ModbusServer.ModbusBridgeServer.Stop | Backend/scada_bridge/modbus_server.py:135-141 | the server is not running and the bank is the same |
| ModbusServer.StoreFrame | Backend/scada_bridge/modbus_server.py:66-108 | only the translated addresses and registers 500, 501 and 503 change, and each translated address holds its clamped value |
| ModbusServer.ApplyFrame | Backend/scada_bridge/modbus_server.py:61-82 | a translation that raises leaves the bank as it was; one that succeeds changes only its addresses and the status block |
| ModbusServer.SystemRegisters | Backend/scada_bridge/modbus_server.py:88-108 | after a store, 501 is 5, 500 is the floored mean of registers 1 and 302 when either is positive and otherwise kept, and 503 is the status code of 500 |
| ModbusServer.ApplyKeepsInt16 | Backend/scada_bridge/modbus_server.py:66-92 | every register of a 16-bit bank stays a 16-bit word after an update, the mean of 500 included |
| ModbusServer.StatusIdempotent | Backend/scada_bridge/modbus_server.py:84-108 | recomputing the status block a second time changes nothing |
| ModbusServer.ApplyIdempotent | Backend/scada_bridge/modbus_server.py:66-79 | storing the same translation a second time changes nothing |
| ModbusServer.UpdateIdempotent | Backend/scada_bridge/modbus_server.py:55-82 | applying the same prediction twice gives the same bank as applying it once |
| ModbusServer.TranslationInAgentBlock | Backend/scada_bridge/modbus_server.py:63-79 | every address a successful translation writes lies in the block of the agent that sent it |
| ModbusServer.HalfSumInRange | Backend/scada_bridge/modbus_server.py:92 | the floor mean of two 16-bit words is again a 16-bit word |
| MqttClient.AgentOfTopic | Backend/scada_bridge/mqtt_client.py:65-70 | the agent id, when the topic has one, is a single segment: it contains no '/' |
| MqttClient.FanOut | Backend/scada_bridge/mqtt_client.py:83-87 | one call per registered callback, whichever of them raise |
| MqttClient.MqttBridgeClient.constructor | Backend/scada_bridge/mqtt_client.py:22-29 | not connected, no callbacks, nothing delivered or published |
| MqttClient.MqttBridgeClient.AddMessageCallback | Backend/scada_bridge/mqtt_client.py:35-40 | the callback is appended after those already registered; nothing else changes |
| MqttClient.MqttBridgeClient.OnConnect | Backend/scada_bridge/mqtt_client.py:42-53 | connected exactly when the return code is 0; nothing else changes |
| MqttClient.MqttBridgeClient.OnDisconnect | Backend/scada_bridge/mqtt_client.py:55-59 | not connected afterwards whatever the return code; nothing else changes |
| MqttClient.MqttBridgeClient.OnMessage | Backend/scada_bridge/mqtt_client.py:61-90 | the loop appends exactly the deliveries of the message: every callback in order with the topic's agent and the parsed document, none for a short topic or a payload that does not parse |
| MqttClient.MqttBridgeClient.Stop | Backend/scada_bridge/mqtt_client.py:112-118 | not connected afterwards; nothing else changes |
| MqttClient.MqttBridgeClient.PublishConfig | Backend/scada_bridge/mqtt_client.py:120-137 | one publish of the configuration on config/ followed by the agent id; nothing else changes |
| MqttClient.ShortTopicDropped | Backend/scada_bridge/mqtt_client.py:65-68 | a topic without '/' has no agent id and its message reaches no callback |
| MqttClient.SlashedTopicHasAgent | Backend/scada_bridge/mqtt_client.py:65-70 | a topic with a '/' always yields an agent id |
| MqttClient.TopicAgent | Backend/scada_bridge/mqtt_client.py:65-70 | the agent id is the text between the first and the second '/', whatever follows |
| MqttClient.UnparsedBodyDropped | Backend/scada_bridge/mqtt_client.py:73-90 | a payload that is not UTF-8, is malformed JSON or is the JSON null reaches no callback |
| MqttClient.FanOutCallsEveryCallback | Backend/scada_bridge/mqtt_client.py:83-87 | each callback is called exactly once, in registration order, with the same agent and document, and which callbacks raise does not change which are called |
| MqttClient.PredictionReachesCallbacks | Backend/scada_bridge/mqtt_client.py:61-87 | a message on predictions/ followed by an agent id, whose body parses, reaches every callback with that agent id |
| OpcuaServer.WithSystemStatus | Backend/scada_bridge/opcua_server.py:271-287 | recomputing the status adds and removes no node; ActiveAgents becomes 5 and OverallHealth the mean of PM.HealthScore and Safety.SafetyScore |
| OpcuaServer.OpcuaBridgeServer.constructor | Backend/scada_bridge/opcua_server.py:21-28 | before `init` the node table is empty |
| OpcuaServer.OpcuaBridgeServer.Init | Backend/scada_bridge/opcua_server.py:30-75 | the six folders are created in order and the table is the well-typed initial table: every node of every folder, each holding a value of its variant type, exactly the two PM thresholds writable |
| OpcuaServer.OpcuaBridgeServer.SetWritableAll | Backend/scada_bridge/opcua_server.py:92-133 | each listed node gets the writable flag, nothing else changes |
| OpcuaServer.OpcuaBridgeServer.SetFolderReadOnly | Backend/scada_bridge/opcua_server.py:157-231 | the prefix loop makes read-only exactly the nodes whose key starts with the folder's name and a dot |
| OpcuaServer.OpcuaBridgeServer.CreateSystemStatusNodes | Backend/scada_bridge/opcua_server.py:77-95 | adds OverallHealth 100.0, ActiveAgents 0 and TotalAlerts 0, all read-only |
| OpcuaServer.OpcuaBridgeServer.CreatePmNodes | Backend/scada_bridge/opcua_server.py:97-135 | adds the five read-only prediction nodes and the writable thresholds 20.0 and 50.0 |
| OpcuaServer.OpcuaBridgeServer.CreateEnergyNodes | Backend/scada_bridge/opcua_server.py:137-161 | adds the five energy nodes with their initial values and makes the Energy folder read-only |
| OpcuaServer.OpcuaBridgeServer.CreateCyberNodes | Backend/scada_bridge/opcua_server.py:163-184 | adds the four cyber nodes with their initial values and makes the Cyber folder read-only |
| OpcuaServer.OpcuaBridgeServer.CreateSafetyNodes | Backend/scada_bridge/opcua_server.py:186-207 | adds the four safety nodes with their initial values and makes the Safety folder read-only |
| OpcuaServer.OpcuaBridgeServer.CreatePpeNodes | Backend/scada_bridge/opcua_server.py:209-233 | adds the five PPE nodes with their initial values and makes the PPE folder read-only |
| OpcuaServer.OpcuaBridgeServer.UpdateFromMqtt | Backend/scada_bridge/opcua_server.py:235-269 | the table stays well typed and becomes the function that defines one update: a raising translation or an unknown agent changes nothing, otherwise the translated values are written and the status recomputed |
| OpcuaServer.OpcuaBridgeServer.WriteValues | Backend/scada_bridge/opcua_server.py:259-263 | every translated name whose node exists in the folder is written, every other node is left |
| OpcuaServer.OpcuaBridgeServer.UpdateSystemStatus | Backend/scada_bridge/opcua_server.py:271-287 | the table becomes the recomputed status of the old one |
| OpcuaServer.FolderPrefix | Backend/scada_bridge/opcua_server.py:157-231 | `key.startswith("<Folder>.")` holds exactly for the keys of that folder |
| OpcuaServer.FolderNameInjective | Backend/scada_bridge/opcua_server.py:81-231 | different folders have different key prefixes |
| OpcuaServer.InitialNodesWellTyped | Backend/scada_bridge/opcua_server.py:48-233 | the created table holds exactly the nodes of the six folders, each with a value of its declared variant type, and only the PM thresholds are writable |
| OpcuaServer.InitialValues | Backend/scada_bridge/opcua_server.py:81-198 | the table starts with OverallHealth 100, HealthScore 0, AlertLevel "normal", thresholds 20 and 50, SafetyScore 100, later folders leaving earlier ones as they were |
| OpcuaServer.LaterFoldersKeep | Backend/scada_bridge/opcua_server.py:137-233 | creating the four later folders leaves the SystemStatus and PM nodes as they were |
| OpcuaServer.AgentFolderDefaults | Backend/scada_bridge/opcua_server.py:102-231 | each known agent's translation targets exactly its folder's nodes minus the thresholds, and its defaults have the nodes' variant types |
| OpcuaServer.TranslationKinds | Backend/scada_bridge/opcua_server.py:242-262 | every translated value has the variant type of the node it is written to, and names a node of the agent's folder |
| OpcuaServer.UpdateKeepsTypes | Backend/scada_bridge/opcua_server.py:235-287 | an update keeps the set of nodes, their variant types and their writable flags |
| OpcuaServer.UnchangedWithoutWrite | Backend/scada_bridge/opcua_server.py:253-269 | a translation that raises or an unknown agent id changes no node |
| OpcuaServer.KnownAgentFolders | Backend/scada_bridge/opcua_server.py:245-256 | exactly the five agent ids have a folder; pm_agent maps to PM, hazard_agent to Safety, none to SystemStatus |
| OpcuaServer.UpdateFrame | Backend/scada_bridge/opcua_server.py:235-287 | an update adds or removes no node, changes no writable flag, and outside the agent's folder changes only ActiveAgents and OverallHealth |
| OpcuaServer.WriteThenStatus | Backend/scada_bridge/opcua_server.py:259-287 | each written value lands on its node, then ActiveAgents is 5 and OverallHealth is the mean of the new HealthScore and SafetyScore |
| OpcuaServer.UpdateWrites | Backend/scada_bridge/opcua_server.py:235-287 | after a translated update by a known agent every translated name is an existing node holding its translated value, ActiveAgents is 5 and OverallHealth is the mean of the two scores |
| OpcuaServer.ThresholdsNeverWritten | Backend/scada_bridge/opcua_server.py:118-133 | the writable PM thresholds are never changed by any update (also lines 259-262) |
| OpcuaServer.UpdateIdempotent | Backend/scada_bridge/opcua_server.py:235-287 | applying the same prediction twice leaves the table as applying it once |
| OpcuaServer.OverallHealthValue | Backend/scada_bridge/opcua_server.py:81-83 | OverallHealth is created as a read-only 100.0 |
| OpcuaServer.PmValues | Backend/scada_bridge/opcua_server.py:105-133 | the PM step creates HealthScore 0.0, AlertLevel "normal" read-only, the thresholds 20.0 and 50.0 writable, and keeps OverallHealth |
| OpcuaServer.SafetyScoreValue | Backend/scada_bridge/opcua_server.py:196-231 | SafetyScore is created as a read-only 100.0 and the PPE step keeps it |
| OpcuaServer.WrittenKeepsTypes | Backend/scada_bridge/opcua_server.py:259-262 | writing values of the nodes' own types keeps the table well typed |
| OpcuaServer.StatusKeepsTypes | Backend/scada_bridge/opcua_server.py:271-287 | recomputing the status keeps the table well typed |
| OpcuaServer.WrittenFrame | Backend/scada_bridge/opcua_server.py:259-287 | writing into a folder and recomputing the status keeps every key and flag and, outside the folder, every node but ActiveAgents and OverallHealth |
| OpcuaServer.WrittenIdempotent | Backend/scada_bridge/opcua_server.py:259-263 | writing the same values again after the status update changes nothing |
| OpcuaServer.StatusIdempotent | Backend/scada_bridge/opcua_server.py:271-287 | recomputing the status twice is recomputing it once |
| EnergyLogic.Deviation | Backend/agents/energy/logic.py:108-129 | the reported deviation is the consumption's excess over the baseline as a percentage of the baseline, and 0 when the baseline is not positive |
| EnergyLogic.ApplyLogic | Backend/agents/energy/logic.py:38-94 | the anomaly score is always echoed; outside the fallback the efficiency, consumption and flag are echoed with defaults 50, 100 and False; the fallback is WARNING / INVESTIGATE / 3 with no recommendations, 0.0 defaults and no anomaly |
| EnergyLogic.DefaultThresholds | Backend/agents/energy/logic.py:31-33 | an empty configuration gives thresholds 40, 60 and 0.7 |
| EnergyLogic.Ladder | Backend/agents/energy/logic.py:96-172 | on numbers, CRITICAL exactly for efficiency below the critical threshold or a flagged score above 0.8, else WARNING exactly for efficiency below the warning threshold or a flagged score above the anomaly threshold, else CAUTION exactly below 80, else NORMAL; priorities 1 to 4 with 4, 4, 2 and 0 recommendations |
| EnergyLogic.ScoreIgnoredWithoutFlag | Backend/agents/energy/logic.py:107-128 | without a truthy anomaly flag the anomaly score is never compared, so any two scores give the same decision |
| EnergyLogic.LowerEfficiencyMoreUrgent | Backend/agents/energy/logic.py:107-149 | a lower efficiency never gives a less urgent priority |
| EnergyLogic.EmptyPrediction | Backend/agents/energy/logic.py:59-63 | an empty prediction reads as efficiency 50 without anomaly and gives WARNING / OPTIMIZE_CONSUMPTION / 2 when 50 lies between the two thresholds (also lines 128-146) |
| EnergyLogic.Fallback | Backend/agents/energy/logic.py:82-107 | a non-numeric efficiency raises at the first comparison and falls back to INVESTIGATE |
| EnergyLogic.DetermineAlert | Backend/agents/energy/logic.py:96-172 | a decision pairs CRITICAL / IMMEDIATE_OPTIMIZATION / 1, WARNING / OPTIMIZE_CONSUMPTION / 2, CAUTION / MONITOR / 3 or NORMAL / MAINTAIN / 4, with 4, 4, 2 and 0 optimisations; a non-numeric efficiency raises; CRITICAL and WARNING need numeric consumption and baseline; all-numeric inputs never raise |
| EnergyModel.NormalisedProduction | Backend/agents/energy/model.py:175-176 | the production feature always lies in [0, 1] and is production / 200 inside [0, 200] |
| EnergyModel.ExtractFeatures | Backend/agents/energy/model.py:150-178 | a converted sample carries the given hour and a production feature in [0, 1]; a value `float()` rejects gives no sample |
| EnergyModel.MockConsumptionBounds | Backend/agents/energy/model.py:316 | the heuristic's consumption, the window's average power, lies between the lowest and highest power in the window |
| EnergyModel.EnergyModel.constructor | Backend/agents/energy/model.py:24-46 | empty window and history, baseline 100 kW |
| EnergyModel.EnergyModel.Preprocess | Backend/agents/energy/model.py:108-183 | a converted sample joins the window (bounded by the sequence length) and its power the history (bounded by 43200), the baseline becomes the history's mean, and the window is returned exactly once full; a failed conversion changes nothing |
| EnergyModel.EnergyModel.Predict | Backend/agents/energy/model.py:185-257 | a failing network gives the safe defaults with confidence 0; otherwise the consumption is the first output (100 if none) or the mock's mean power, scored for efficiency and anomaly against the current baseline, confidence 0.85 only for a network with more than 1000 history entries (also lines 313-331) |
| EnergyModel.EnergyModel.ResetBuffer | Backend/agents/energy/model.py:333-336 | only the window is cleared; history and baseline are kept |
| EnergyModel.EfficiencyRange | Backend/agents/energy/model.py:286-311 | the efficiency score always lies in [0, 100] |
| EnergyModel.EfficiencyMonotone | Backend/agents/energy/model.py:300-309 | a higher consumption-to-baseline ratio never scores higher |
| EnergyModel.EfficiencyContinuous | Backend/agents/energy/model.py:302-309 | the score falls by at most 100 per unit of ratio, so the four pieces join |
| EnergyModel.AnomalyMeansScoreAboveSixTenths | Backend/agents/energy/model.py:272-282 | with a non-zero baseline both detectors flag an anomaly exactly when the score exceeds 0.6; a zero baseline with zero consumption scores 1 without a flag |
| EnergyModel.AnomalyScoreBounds | Backend/agents/energy/model.py:273-281 | the anomaly score is at most 1, and the forest's is at least 0 |
| EnergyModel.AtBaseline | Backend/agents/energy/model.py:280-305 | consumption equal to the baseline scores 80 and is not anomalous |
| EnergyModel.ForestScoreMonotone | Backend/agents/energy/model.py:270-273 | a higher forest decision value never gives a lower anomaly score |
| EnergyModel.DefaultFeatures | Backend/agents/energy/model.py:162-178 | an empty reading gives 100 kW, 20 C and production 0.5 |
| MaintLogic.ApplyLogic | Backend/agents/maint/logic.py:40-88 | the RUL, health score and failure probability are echoed with default 0.0 on both paths, and the priority is the level's own except in the INVESTIGATE fallback |
| MaintLogic.DefaultThresholds | Backend/agents/maint/logic.py:32-35 | an empty configuration gives thresholds 24, 72, 168 hours and probability 0.8 |
| MaintLogic.Ladder | Backend/agents/maint/logic.py:90-147 | on numbers, EMERGENCY exactly at or above the probability threshold, else CRITICAL, WARNING, CAUTION, NORMAL exactly in the successive RUL bands; priorities 1, 1, 2, 3, 4 |
| MaintLogic.ShorterRulMoreUrgent | Backend/agents/maint/logic.py:108-147 | a shorter RUL never gives a less urgent priority |
| MaintLogic.EmergencyIgnoresHealth | Backend/agents/maint/logic.py:98-105 | a probability at the threshold is an emergency whatever the health score holds |
| MaintLogic.EmptyPrediction | Backend/agents/maint/logic.py:59-116 | an empty prediction reads as RUL 0 and probability 0 and is CRITICAL / IMMEDIATE_MAINTENANCE / 1 under positive thresholds |
| MaintLogic.Fallback | Backend/agents/maint/logic.py:78-98 | a non-numeric probability falls back to WARNING / INVESTIGATE / 3, still echoing the inputs |
| MaintLogic.DetermineAlert | Backend/agents/maint/logic.py:90-147 | the ladder raises exactly when the probability or the RUL is not a number, or the health score is not one and the probability is below its threshold; a decision pairs each level with its one action and priority: EMERGENCY_SHUTDOWN 1, IMMEDIATE_MAINTENANCE 1, SCHEDULE_72H 2, PLAN_1WEEK 3, MONITOR 4 |
| MaintModel.ExtractFeatures | Backend/agents/maint/model.py:126-140 | a converted sample has exactly six features; a value `float()` rejects gives no sample |
| MaintModel.ZScore | Backend/agents/maint/model.py:113-115 | the normalised window keeps the window's shape: as many samples, six features each |
| MaintModel.Health | Backend/agents/maint/model.py:202-253 | the health score always lies in [0, 100] |
| MaintModel.FailureFromHealth | Backend/agents/maint/model.py:206-254 | the derived failure probability always lies in [0, 1] |
| MaintModel.PmModel.constructor | Backend/agents/maint/model.py:24-48 | an empty window with the given length and scaler |
| MaintModel.PmModel.Preprocess | Backend/agents/maint/model.py:81-124 | a converted sample joins the bounded window, and the window is returned exactly once full, with the scaler's output or, without a scaler, the column z-scores; a failed conversion changes nothing |
| MaintModel.PmModel.ResetBuffer | Backend/agents/maint/model.py:264-267 | the window is emptied |
| MaintModel.DefaultFeatures | Backend/agents/maint/model.py:133-140 | an empty reading gives 50, 0.5, 100, 1500, 50 and 0 |
| MaintModel.RegressedPrediction | Backend/agents/maint/model.py:156-221 | outputs below 1000 are hours and larger ones days; health is RUL over a week as a percentage, clamped to [0, 100]; the failure probability is the model's class probability unless that is 0.5 (or absent), then one minus health; confidence 0.85 above 72 hours, 0.75 above 24, else 0.90 |
| MaintModel.HealthMonotone | Backend/agents/maint/model.py:202-206 | more remaining life never lowers health nor raises the derived failure probability |
| MaintModel.MockRange | Backend/agents/maint/model.py:233-262 | the heuristic gives 72 hours less 20, 15 and 10 for high vibration, temperature and tool wear, between 27 and 72, with consistent health and probability and confidence 0.70 |
| MaintModel.ZScoreMeansZero | Backend/agents/maint/model.py:113-115 | every feature of the z-scored window averages to zero |
| MaintModel.MockIgnoresReadings | Backend/agents/maint/model.py:239-252 | without a scaler the heuristic, as written, always sees zero averages and reports 72 hours whatever the machine reads (also lines 110-115) |
| MaintModel.HotMachine | Backend/agents/maint/model.py:239-252 | for a hot, vibrating, worn machine the heuristic on the readings gives 27 hours, and as written it gives 72 (also lines 110-115) |
| MaintModel.ColumnMeanBounds | Backend/agents/maint/model.py:239 | each feature's window average lies between the lowest and highest value of that feature in the window (also line 115) |
| MaintModel.Predict | Backend/agents/maint/model.py:142-231 | health always lies in [0, 100]; a failed inference reports 48 hours, health 50, probability 0.5, confidence 0; without a regressor the heuristic gives 27 to 72 hours, a probability in [0, 1] and confidence 0.70; a regressor's hours set health and one of the three confidence bands |
| MaintModel.MockAsWritten | Backend/agents/maint/model.py:233-262 | the heuristic as the code runs it also reports 27 to 72 hours, a probability in [0, 1] and confidence 0.70 (also line 239) |
| PpeLogic.Violations | Backend/agents/ppe/logic.py:33-39 | at most three violations are listed |
| PpeLogic.ApplyLogic | Backend/agents/ppe/logic.py:23-71 | violations_count is the list's length, the rate is echoed with default 0.0, access is denied exactly at CRITICAL; outside the fallback the list holds the required items with falsy flags and overall compliance is echoed |
| PpeLogic.DefaultThresholds | Backend/agents/ppe/logic.py:16-18 | an empty configuration gives rates 50 and 75 and the items helmet, vest, gloves |
| PpeLogic.ViolationsExactly | Backend/agents/ppe/logic.py:33-39 | an item is listed exactly when it is required and its flag is falsy, each at most once, in the order helmet, vest, gloves |
| PpeLogic.UnrequiredNeverViolated | Backend/agents/ppe/logic.py:34-38 | an item that is not required is never listed |
| PpeLogic.Ladder | Backend/agents/ppe/logic.py:73-115 | on a numeric rate, CRITICAL / DENY_ACCESS exactly for two violations or a rate below the critical threshold, else WARNING / WARN_WORKER for one violation or a rate below the warning threshold, else CAUTION below 90, else NORMAL / ALLOW_ACCESS; access denied only at CRITICAL |
| PpeLogic.WorseComplianceMoreUrgent | Backend/agents/ppe/logic.py:77-115 | a lower rate or more violations never gives a less urgent priority |
| PpeLogic.EmptyPrediction | Backend/agents/ppe/logic.py:26-39 | an empty prediction under the defaults lists all three items and is CRITICAL with access denied (also lines 16-18 and 77-85) |
| PpeLogic.Fallback | Backend/agents/ppe/logic.py:59-82 | a non-numeric rate falls back to WARNING / INVESTIGATE / 3 with no violations and access allowed |
| PpeLogic.DetermineAlert | Backend/agents/ppe/logic.py:73-115 | raises exactly when the rate is not a number; a decision pairs CRITICAL / DENY_ACCESS / 1 with access denied, WARNING / WARN_WORKER / 2, CAUTION / MONITOR / 3 or NORMAL / ALLOW_ACCESS / 4; two violations deny access and one gives at least WARNING |
| PpeModel.Votes | Backend/agents/ppe/model.py:264-266 | an item never has more votes than the buffer has entries |
| PpeModel.ExtractFeatures | Backend/agents/ppe/model.py:136-158 | a converted reading has exactly six features |
| PpeModel.Report | Backend/agents/ppe/model.py:300-310 | overall compliance holds exactly when all three items are compliant, and the rate is the share of compliant items in percent (also lines 227-240) |
| PpeModel.PpeModel.constructor | Backend/agents/ppe/model.py:23-53 | both buffers empty, with the given bounds |
| PpeModel.PpeModel.Preprocess | Backend/agents/ppe/model.py:96-134 | a converted reading joins the bounded window, which is returned exactly once full; the vote buffer is untouched and a failed conversion changes nothing |
| PpeModel.PpeModel.Predict | Backend/agents/ppe/model.py:160-310 | a failing classifier reports all false with rate and confidence 0 and buffers nothing; otherwise the new vote (the mock's or the classifier's) joins the bounded buffer and the majority of the buffer is reported, with confidence 0.85 only for a classifier whose buffer is full |
| PpeModel.PpeModel.ResetBuffer | Backend/agents/ppe/model.py:312-316 | both buffers are emptied |
| PpeModel.MajorityVote | Backend/agents/ppe/model.py:253-275 | an item is smoothed to compliant exactly when more than half of the buffered votes are for it; a tie is not compliant |
| PpeModel.Unanimous | Backend/agents/ppe/model.py:253-275 | a unanimous non-empty buffer is reported as it voted |
| PpeModel.SmoothingWidth | Backend/agents/ppe/model.py:218-225 | with a buffer of one the newest vote is reported as is; with a buffer of zero nothing is ever compliant (also line 50) |
| PpeModel.RateValues | Backend/agents/ppe/model.py:229 | the rate is 0, a third, two thirds or 100, and 100 exactly when overall compliance holds (also line 301) |
| PpeModel.OutputLayout | Backend/agents/ppe/model.py:197-215 | three or more outputs give one probability per item, two give the second for all, one gives itself for all, none gives 0.5 and so no compliance |
| PpeModel.DefaultFeatures | Backend/agents/ppe/model.py:151-158 | missing per-axis fields read as 0.0 |
| PpeModel.SensorsList | Backend/agents/ppe/model.py:145-148 | a 'sensors' list of at least six numbers gives its first six |
| SafetyLogic.ApplyLogic | Backend/agents/safety/logic.py:24-57 | the hazard score, hazard type and safety score are echoed with defaults 0.0, "NONE" and 100.0 on both paths, and evacuation is required exactly at EMERGENCY |
| SafetyLogic.DefaultThresholds | Backend/agents/safety/logic.py:16-19 | an empty configuration gives thresholds 0.8, 0.5, 0.9 and safety score 40 |
| SafetyLogic.Ladder | Backend/agents/safety/logic.py:59-115 | on numbers, EMERGENCY / EVACUATE exactly at or above the evacuation threshold, else CRITICAL for a critical hazard or a low safety score, else WARNING at the warning score, else CAUTION above 0.2, else NORMAL; evacuation only at EMERGENCY |
| SafetyLogic.WorseScoresMoreUrgent | Backend/agents/safety/logic.py:62-115 | a higher hazard score or a lower safety score never gives a less urgent priority |
| SafetyLogic.EmptyPrediction | Backend/agents/safety/logic.py:27-29 | an empty prediction reads as hazard 0 and safety 100 and is NORMAL without evacuation under positive thresholds (also lines 108-115) |
| SafetyLogic.Fallback | Backend/agents/safety/logic.py:46-68 | a non-numeric safety score falls back to WARNING / INVESTIGATE / 3 without evacuation |
| SafetyLogic.DetermineAlert | Backend/agents/safety/logic.py:59-115 | raises exactly when either score is not a number; a decision pairs EMERGENCY / EVACUATE / 1 with evacuation, CRITICAL / IMMEDIATE_RESPONSE / 1, WARNING / INVESTIGATE / 2, CAUTION / MONITOR / 3 or NORMAL / MONITOR / 4, all without evacuation |
| SafetyModel.Preprocess | Backend/agents/safety/model.py:71-99 | a converted reading has exactly six features; a value `float()` rejects gives none |
| SafetyModel.MockScore | Backend/agents/safety/model.py:158 | the heuristic's hazard score always lies in [0, 1] |
| SafetyModel.DefaultFeatures | Backend/agents/safety/model.py:92-99 | an empty reading gives 20, 0.5, 100, 0, 60 and 0 |
| SafetyModel.ScoreRanges | Backend/agents/safety/model.py:121-159 | the hazard score stays in [0, 1] and the safety score in [0, 100], for the classifier when its probabilities do |
| SafetyModel.MockMonotone | Backend/agents/safety/model.py:158 | a hotter or gassier reading never lowers the heuristic's hazard score |
| SafetyModel.MockTypes | Backend/agents/safety/model.py:161-163 | the heuristic names a hazard exactly above 0.7: a fire risk exactly above 80 degrees, else a gas leak |
| SafetyModel.HotReading | Backend/agents/safety/model.py:152-170 | at 100 degrees and 20 ppm the heuristic scores 1, a fire risk with safety 0 |
| SafetyModel.ClassifiedLadder | Backend/agents/safety/model.py:124-134 | the classifier path's types: UNKNOWN up to 0.7, then fire risk, gas leak, noise hazard, general hazard, each exactly under its condition in order |
| SafetyModel.ProbabilityChoice | Backend/agents/safety/model.py:117-150 | with two or more classes the score is the second probability, with one the first, and with none the error prediction |
| SafetyModel.DefaultReadingsSafe | Backend/agents/safety/model.py:152-170 | the default readings score 0 with no hazard type and safety 100 |
| SafetyModel.Predict | Backend/agents/safety/model.py:101-150 | on every path, the error path included, the safety score is 100 times one minus the hazard score; confidence is 0 exactly when the classifier raises or gives no probability, 0.70 for the heuristic (whose score lies in [0, 1]) and 0.85 for the classifier |
| PyValues.Push | Backend/agents/energy/model.py:126-130 | appending to a bounded deque keeps its newest entries, at most the bound, the new one last (also lines 42 and 46) |
| PyValues.Trunc | Backend/scada_bridge/data_transformer.py:162-189 | `int()` of a float truncates toward zero: the result is within one of the value, on the zero side |
| PyValues.IntTextRoundTrip | Backend/scada_bridge/config.py:13-19 | reading back the text of an integer with `int()` gives the integer |
| PyValues.SplitCount | Backend/scada_bridge/config.py:35 | `split` gives two or more parts exactly when the separator occurs |
| PyValues.SplitSegmentsClean | Backend/scada_bridge/config.py:35 | no part of a `split` holds the separator |
| PyValues.SplitAppend | Backend/scada_bridge/config.py:35 | splitting a joined text splits each side separately |
| PyValues.StripEnds | Backend/scada_bridge/config.py:35 | a stripped text has no whitespace at either end |
| PyValues.CaseMapping | Backend/agents/orchestrator/main.py:67 | upper-casing is idempotent and gives the same text whether or not it was lower-cased first (and the other way round), leaves no ASCII lower-case letter, and changes nothing in a text without one |
| PyValues.FixedTies | Backend/agents/maint/alerts.py:107 | `.Nf` formatting rounds ties to the even digit and keeps the sign of a negative value that rounds to zero |

## Left out

- Network transport is not modelled. This covers the paho MQTT connect, retry and loop threads (with their sleeps), the asyncua server and its node I/O, the pymodbus TCP server, FastAPI routes and WebSocket broadcasts, httpx calls, and Twilio inside the SMS notifier. Where an operation depends on a connection, its state is a parameter: the MQTT client is passed to each call as connected, disconnected or absent, the planner's reply is an input, and the notifier calls are recorded rather than sent.
- Machine-learning inference and artifact loading are not modelled: `load_model`, pickle, Keras, scalers, label encoders and their file paths. The regressor, classifier, forecaster and isolation-forest outputs, and the LLM reply, are inputs that may also be failures.
- The energy model's sin/cos encoding of the hour is not modelled; the hour is kept as given.
- `MaintModel.PmModel.Preprocess`: the per-feature standard deviations of the window (numpy square roots) are inputs.
- `PpeModel.PpeModel.Predict`: without a classifier, the window's variance (`np.var` over the samples, averaged over the features) is an input, carried by `Mock(variance)`. The model does not compute it from the window.
- `PpeModel.PpeModel.Preprocess`: the scaler transform is not modelled, and the window is handed on as buffered.
- `PpeModel.ExtractFeatures`: a 'sensors' list holding non-numbers is refused at once. numpy would buffer it and fail later in `predict`, with the same error prediction.
- Python `round()` is not modelled; values are kept at full precision. This covers the model outputs, the backlog shift duration and event rate, and the cyber score rounded to 3 places.
- Numbers are exact reals and unbounded integers. IEEE effects such as int(0.29*100) == 28 and non-finite JSON numbers are not modelled.
- `float()` of text accepts a sign, digits and an optional decimal point. Exponents, inf, nan and underscores are not accepted.
- `PyValues.ParseIntText`: `int()` of text accepts a sign and digits only. Python also accepts underscores between digits, as in `int('1_883')`, which the model refuses.
- `PyValues.IsSpace`: `strip()` removes the ASCII whitespace, U+001C to U+001F, U+0085 and U+00A0 only. Python also strips U+1680, U+2000 to U+200A, U+2028, U+2029, U+202F, U+205F and U+3000.
- `PyValues.FloatText`: `str()` of a float matches Python only for integral values below 1e16 written with ".0". Python switches to exponent notation from 1e16 ("1e+16", where the model writes "10000000000000000.0") and below 1e-4. Other values get up to 17 fractional digits, not Python's shortest round-trip form. Messages that embed floats are therefore approximate.
- `PyValues.PyStr`: `str()` of a list or a dict is rendered as "[...]" or "{...}", not as Python's element-by-element text. This reaches the backlog alert message (a summary that is a list or dict), the PM and cyber alert messages, and the OPC UA text nodes read through `DataTransformer.GetStr` (an alert level, action or threat level that is a list or dict).
- `.upper()` and `.lower()` map only ASCII letters.
- The free-text `recommended_action` strings, the `:.1f` message formatting and the wording of the LLM prompt are not modelled. What the prompt contains is modelled.
- Clocks are parameters: integer seconds or timestamp strings, read once per update.
- File persistence is not modelled: `StateManager.save`/`load`, the checkpoint loops, `save_backlog` and YAML `load_config`. Only the in-memory `to_dict`/`from_dict` are modelled.
- The agents' run/start/stop loops, the bridge coordinator's asyncio coroutines and the process launcher are not modelled. The DNP3 stub has no outstation; the model keeps its enabled and running flags and its logged points.
- The OPC UA write callbacks are not modelled, because the code only sets writable flags. The `TotalAlerts` node is never updated by the code, and the model keeps it so.
- `StateManagement`: custom state is a JSON value rather than the agents' typed dicts. Python's merging of equal-but-different numbers in dict keys (1 == 1.0 == True) is not modelled. The same holds for the backlog's `agent_counts` (agent ids 1, 1.0 and True are one key in Python and three in the model), the PPE state's worker ids, and the alert router's channel types.
- `BacklogAgentState.BacklogState.AddEvent`: the event is copied with its timestamp. The source's in-place update of the caller's dict is not visible in the model.
- `PpeAgentState.PpeState.Update`: requires a numeric `violations_count`, a numeric `compliance_rate` and a hashable worker id. Otherwise the source raises a TypeError out of `update`, and the model has no such path.
- `PmAlerting.PmAlerts.constructor`, `CyberAlerting.CyberAlerts.constructor`, `BacklogAlerting.BacklogAlerts.constructor`: require every configured channel type to be usable as a dict key, as the router they build does. Otherwise the source raises a TypeError at construction, which is not modelled.
- `AlertRouting.AlertRouter.constructor`: requires every channel type to be usable as a dict key. Otherwise the source raises a TypeError at construction, which is not modelled.
- `AlertRouting.AlertRouter.RouteAlert`: the channel senders (Twilio, HTTP, MQTT) are abstracted to a predicate saying which sends raise. A malformed channel list that makes iteration itself raise is not modelled.
- `ConfigLoading.CheckedPasses`: a `required_sections` given as a dict is treated as raising. Python would iterate its keys.
- `ConfigLoading.MergeConfigs`: the configuration is a JSON-like dict. Non-dict YAML documents, and the aliasing of nested dicts shared between the merged result and the override, are not modelled.
- `EnergyModel.EnergyModel.Predict`: without a forecaster, it requires a non-empty window. numpy's mean of an empty window would give nan.
- `Orchestration.Orchestrator.ReceiveAlert`: the notifier is assumed to return. `send_alert` catches only Twilio's own exception; any other failure propagates to the handler's `except`, which answers an error after the lists were updated. The model always answers Handled for a CRITICAL alert with an action.
- The `Backend/protocol_gateway/main.py` service is not part of this model: it does not parse.

## Findings

| source | as written | input that shows it | evidently intended | confidence | as-written member | corrected member |
|---|---|---|---|---|---|---|
| Backend/agents/maint/model.py:239-252 | Without a scaler, `preprocess` z-scores the window (lines 110-115). `_mock_predict` then averages that window, and the averages are always 0, so the heuristic reports 72 hours whatever the machine reads | one buffered reading [temperature 90, vibration 0.9, pressure 100, rpm 1500, torque 50, tool wear 0.8] with no model and no scaler: 72 hours (`MaintModel.HotMachine`; in general `MaintModel.MockIgnoresReadings`) | the heuristic reads the averages of the readings, giving 72 - 20 - 15 - 10 = 27 hours for that reading | not executed | MaintModel.MockAsWritten | MaintModel.Predict |
