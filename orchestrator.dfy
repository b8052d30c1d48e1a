// The orchestrator service: each alert is sent to the planner; the alert and the
// decision (time, alert, plan) are put at the front of two in-memory lists kept to
// their 50 newest entries, and a critical alert is passed to the SMS notifier.

module Orchestration {
  import opened PyValues
  import P = Planning

  /** The most entries either list keeps. */
  const ListLimit := 50

  datatype Decision = Decision(timestamp: string, alert: P.Alert, plan: Value)

  /** A call of `notifier.send_alert`. */
  datatype Notification = Notification(severity: string, message: string, sourceAgent: string)

  /** What the planner call gave: an exception (from the HTTP call or from decoding
      the answer), or the decoded answer. */
  datatype PlannerReply = CallFailed(error: string) | Answered(plan: Value)

  datatype Response = Handled(action: Value) | Error(details: string)

  /** The snapshot `/system-state` returns. */
  datatype SystemState = SystemState(alerts: seq<P.Alert>, decisions: seq<Decision>, lastUpdate: string)

  /** `xs.insert(0, x)` followed by `xs = xs[:50]`. */
  function Pushed<T>(xs: seq<T>, x: T): (r: seq<T>)
  {
    var all := [x] + xs;
    if |all| <= ListLimit then all else all[..ListLimit]
  }

  /** `plan['action']`; None where it raises. */
  function ActionOf(plan: Value): Option<Value>
  {
    if plan.Obj? && "action" in plan.fields then Some(plan.fields["action"]) else None
  }

  /** `str(e)` of the exception `plan['action']` raises (CPython 3.11 wording). */
  function LookupError(plan: Value): string
  {
    match plan
    case Obj(_) => "'action'"
    case Arr(_) => "list indices must be integers or slices, not str"
    case Str(_) => "string indices must be integers, not 'str'"
    case Null => "'NoneType' object is not subscriptable"
    case Bool(_) => "'bool' object is not subscriptable"
    case Int(_) => "'int' object is not subscriptable"
    case Num(_) => "'float' object is not subscriptable"
  }

  /** Whether the notifier is called: the level is CRITICAL in any letter case. */
  predicate IsCritical(a: P.Alert)
  {
    Upper(a.level) == "CRITICAL"
  }

  class Orchestrator {
    /** `system_state["alerts"]`, newest first. */
    var alerts: seq<P.Alert>
    /** `system_state["decisions"]`, newest first. */
    var decisions: seq<Decision>
    var lastUpdate: string
    /** The notifier calls made so far, oldest first. */
    var notifications: seq<Notification>

    /** Both lists are bounded, equally long, and the i-th decision is about the i-th
        alert. */
    predicate Valid()
      reads this
    {
      |alerts| <= ListLimit && |decisions| == |alerts|
      && forall i :: 0 <= i < |decisions| ==> decisions[i].alert == alerts[i]
    }

    constructor (now: string)
      ensures Valid() && alerts == [] && decisions == [] && lastUpdate == now && notifications == []
    {
      alerts := [];
      decisions := [];
      lastUpdate := now;
      notifications := [];
    }

    /** `receive_alert` with the planner's reply given; `now` is the decision time.
        The lists are updated before the plan's action is read, so a plan without an
        action still leaves its decision recorded. */
    method ReceiveAlert(alert: P.Alert, reply: PlannerReply, now: string) returns (response: Response)
      requires Valid()
      modifies this
      ensures Valid()
      ensures lastUpdate == old(lastUpdate)
      ensures reply.CallFailed? ==>
        response == Error(reply.error) && alerts == old(alerts) && decisions == old(decisions)
        && notifications == old(notifications)
      ensures reply.Answered? ==>
        alerts == Pushed(old(alerts), alert)
        && decisions == Pushed(old(decisions), Decision(now, alert, reply.plan))
      ensures reply.Answered? && ActionOf(reply.plan).None? ==>
        response == Error(LookupError(reply.plan)) && notifications == old(notifications)
      ensures reply.Answered? && ActionOf(reply.plan).Some? ==>
        response == Handled(ActionOf(reply.plan).value)
        && notifications == old(notifications)
             + (if IsCritical(alert) then [Notification(alert.level, alert.details, alert.source)] else [])
    {
      if reply.CallFailed? {
        return Error(reply.error);
      }
      var plan := reply.plan;
      decisions := [Decision(now, alert, plan)] + decisions;
      alerts := [alert] + alerts;
      if |decisions| > ListLimit {
        decisions := decisions[..ListLimit];
      }
      if |alerts| > ListLimit {
        alerts := alerts[..ListLimit];
      }
      var action := ActionOf(plan);
      if action.None? {
        return Error(LookupError(plan));
      }
      if Upper(alert.level) == "CRITICAL" {
        notifications := notifications + [Notification(alert.level, alert.details, alert.source)];
      }
      response := Handled(action.value);
    }

    /** `get_system_state`: stamps the state with `now` and returns it. */
    method GetSystemState(now: string) returns (snapshot: SystemState)
      modifies this
      ensures lastUpdate == now
      ensures alerts == old(alerts) && decisions == old(decisions) && notifications == old(notifications)
      ensures snapshot == SystemState(alerts, decisions, now)
    {
      lastUpdate := now;
      snapshot := SystemState(alerts, decisions, lastUpdate);
    }
  }

  // ---------------------------------------------------------------- properties

  /** The pushed entry is first, the older entries follow in order, and at most 50
      are kept. */
  lemma PushedNewestFirst<T>(xs: seq<T>, x: T)
    ensures var r := Pushed(xs, x);
      |r| == (if |xs| + 1 <= ListLimit then |xs| + 1 else ListLimit)
      && r[0] == x
      && (forall i :: 0 < i < |r| ==> r[i] == xs[i - 1])
  {
  }

  /** A list that was full loses exactly its oldest entry. */
  lemma PushedDropsOldest<T>(xs: seq<T>, x: T)
    requires |xs| == ListLimit
    ensures Pushed(xs, x) == [x] + xs[..ListLimit - 1]
  {
  }

  /** A sequence of answered alerts leaves the newest 50 of them, newest first. */
  function Received(alerts: seq<P.Alert>, incoming: seq<P.Alert>): seq<P.Alert>
  {
    if incoming == [] then alerts else Pushed(Received(alerts, incoming[..|incoming| - 1]), incoming[|incoming| - 1])
  }

  /** Starting empty, the list is the newest min(n, 50) alerts, newest first. */
  lemma {:induction false} ReceivedNewest(incoming: seq<P.Alert>)
    ensures var r := Received([], incoming);
      |r| == (if |incoming| <= ListLimit then |incoming| else ListLimit)
      && forall i :: 0 <= i < |r| ==> r[i] == incoming[|incoming| - 1 - i]
  {
    if incoming != [] {
      var init := incoming[..|incoming| - 1];
      ReceivedNewest(init);
      var before := Received([], init);
      PushedNewestFirst(before, incoming[|incoming| - 1]);
      var r := Received([], incoming);
      forall i | 0 < i < |r|
        ensures r[i] == incoming[|incoming| - 1 - i]
      {
        assert r[i] == before[i - 1];
        assert before[i - 1] == init[|init| - 1 - (i - 1)];
      }
    }
  }

  /** The notifier is called exactly for a CRITICAL level, in any letter case, with
      the alert's level, details and source. */
  lemma CriticalCases(a: P.Alert)
    ensures a.level == "CRITICAL" ==> IsCritical(a)
    ensures a.level == "critical" ==> IsCritical(a)
    ensures a.level == "WARNING" ==> !IsCritical(a)
    ensures IsCritical(a) ==> |a.level| == 8
  {
    if a.level == "critical" {
      assert Upper("critical") == "CRITICAL";
    }
    if a.level == "WARNING" {
      assert Upper("WARNING") == "WARNING";
    }
  }

  /** With the planner's own answer the orchestrator reports the planner's action, and
      the decision records the whole plan. */
  lemma PlannerAnswer(a: P.Alert)
    ensures ActionOf(P.PlanDoc(P.CreatePlan(a))) == Some(Str(P.ActionFor(P.Priority(a.alertType))))
  {
  }

  /** An answer without an action raises after the lists were updated. */
  lemma MissingActionRecorded(plan: Value)
    requires plan.Obj? && "action" !in plan.fields
    ensures ActionOf(plan).None? && LookupError(plan) == "'action'"
  {
  }
}
