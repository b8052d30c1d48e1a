// The planner service: an alert's type is looked up in a fixed priority table
// (safety before cyber before maintenance before energy, everything else last) and
// the priority chooses the action; the plan echoes the alert.

module Planning {
  import opened PyValues

  /** The alert body both services accept; every field is text. */
  datatype Alert = Alert(level: string, alertType: string, source: string, details: string)

  /** `alert.dict()`. */
  function AlertDoc(a: Alert): Dict
  {
    map["level" := Str(a.level), "type" := Str(a.alertType), "source" := Str(a.source), "details" := Str(a.details)]
  }

  const PriorityMap: map<string, int> :=
    map["PPE_VIOLATION" := 1, "DDoS_RISK" := 2, "RUL_LOW" := 3, "ENERGY_OPTIMIZATION" := 4]

  /** The priority of types missing from the table. */
  const DefaultPriority := 5

  function Priority(alertType: string): int
  {
    if alertType in PriorityMap then PriorityMap[alertType] else DefaultPriority
  }

  function ActionFor(priority: int): string
  {
    if priority == 1 then "STOP_MACHINE_IMMEDIATE"
    else if priority == 2 then "ISOLATE_NETWORK_SEGMENT"
    else if priority == 3 then "SCHEDULE_MAINTENANCE_NEXT_SHIFT"
    else if priority == 4 then "ADJUST_POWER_PROFILE"
    else "LOG_ONLY"
  }

  datatype Plan = Plan(action: string, priorityLevel: int, originalAlert: Alert)

  /** `create_plan`: the plan echoes the alert and its priority, and only a type in the
      table leads to more than logging. */
  function CreatePlan(a: Alert): (plan: Plan)
    ensures plan.originalAlert == a && plan.priorityLevel == Priority(a.alertType)
    ensures 1 <= plan.priorityLevel <= 5
    ensures plan.action == "LOG_ONLY" <==> a.alertType !in PriorityMap
  {
    var p := Priority(a.alertType);
    PriorityTable(a.alertType);
    ActionCases(p);
    Plan(ActionFor(p), p, a)
  }

  /** The plan as the JSON document the service answers with. */
  function PlanDoc(p: Plan): Value
  {
    Obj(map["action" := Str(p.action), "priority_level" := Int(p.priorityLevel),
            "original_alert" := Obj(AlertDoc(p.originalAlert))])
  }

  // ---------------------------------------------------------------- properties

  /** Each table entry has its own priority, and every other type gets 5. */
  lemma PriorityTable(t: string)
    ensures Priority(t) == 1 <==> t == "PPE_VIOLATION"
    ensures Priority(t) == 2 <==> t == "DDoS_RISK"
    ensures Priority(t) == 3 <==> t == "RUL_LOW"
    ensures Priority(t) == 4 <==> t == "ENERGY_OPTIMIZATION"
    ensures Priority(t) == 5 <==> t !in PriorityMap
    ensures 1 <= Priority(t) <= 5
  {
  }

  /** Type matching is exact: a differently written type gets the default. */
  lemma ExactTypes()
    ensures Priority("ddos_risk") == 5 && Priority("DDOS_RISK") == 5 && Priority("ppe_violation") == 5
  {
  }

  /** Safety outranks cyber, cyber maintenance, maintenance energy, energy the rest. */
  lemma PriorityOrder(t: string)
    requires t !in PriorityMap
    ensures Priority("PPE_VIOLATION") < Priority("DDoS_RISK") < Priority("RUL_LOW")
            < Priority("ENERGY_OPTIMIZATION") < Priority(t)
  {
  }

  /** Priorities 1 to 4 have their own actions, pairwise different; any other
      priority only logs. */
  lemma ActionCases(p: int)
    ensures ActionFor(1) == "STOP_MACHINE_IMMEDIATE" && ActionFor(2) == "ISOLATE_NETWORK_SEGMENT"
    ensures ActionFor(3) == "SCHEDULE_MAINTENANCE_NEXT_SHIFT" && ActionFor(4) == "ADJUST_POWER_PROFILE"
    ensures ActionFor(p) == "LOG_ONLY" <==> !(1 <= p <= 4)
    ensures forall q :: 1 <= q <= 4 && q != p ==> ActionFor(q) != ActionFor(p)
  {
  }

  /** The answer carries the action, the priority and the alert's four fields. */
  lemma PlanDocFields(a: Alert)
    ensures var d := PlanDoc(CreatePlan(a));
      d.Obj? && d.fields["action"] == Str(ActionFor(Priority(a.alertType)))
      && d.fields["priority_level"] == Int(Priority(a.alertType))
      && d.fields["original_alert"] == Obj(AlertDoc(a))
      && AlertDoc(a)["details"] == Str(a.details) && AlertDoc(a)["type"] == Str(a.alertType)
  {
  }
}
