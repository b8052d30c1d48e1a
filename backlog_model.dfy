// The backlog agent's report generator: a prompt built from the shift's violations
// and anomalies is sent to a language model, whose reply (fenced JSON) becomes the
// backlog; without a model, or when its reply does not parse, a mock backlog is
// built from the events by severity. The model's reply and the JSON parser are
// inputs; the clock is the text of the current time.

module BacklogModel {
  import opened PyValues
  import BL = BacklogLogic

  type Event = BL.Event

  /** The shift data handed in, as produced by the aggregation: `shiftStart` is None
      when the key is absent; an absent event list is empty. */
  datatype ShiftInput = ShiftInput(
    shiftStart: Option<Value>, shiftEnd: Value, violations: seq<Event>, anomalies: seq<Event>,
    summaryStats: Value)

  /** `s.replace(a, b)` for single characters. */
  function ReplaceChar(s: string, a: char, b: char): (r: string)
    ensures |r| == |s| && forall i :: 0 <= i < |s| ==> r[i] == (if s[i] == a then b else s[i])
  {
    seq(|s|, i requires 0 <= i < |s| => if s[i] == a then b else s[i])
  }

  /** "backlog_" and the shift start (the current time when absent) with ':' made '-'
      and ' ' made '_'; None when the start is not text (`replace` raises). */
  function BacklogId(input: ShiftInput, now: string): (id: Option<string>)
    ensures id.None? <==> input.shiftStart.Some? && !input.shiftStart.value.Str?
    ensures id.Some? ==> |id.value| >= 8 && id.value[..8] == "backlog_"
  {
    var start := match input.shiftStart case None => Str(now) case Some(v) => v;
    if start.Str? then Some("backlog_" + ReplaceChar(ReplaceChar(start.s, ':', '-'), ' ', '_'))
    else None
  }

  // ------------------------------------------------------------------ the prompt

  const PromptLimit := 50

  /** One numbered event of the prompt. */
  datatype PromptItem = PromptItem(
    number: nat, agentId: Value, alertLevel: Value, message: Value, timestamp: Value, details: Option<Value>)

  function Item(number: nat, e: Event): PromptItem
  {
    var data := Get(e, "data", Null);
    PromptItem(number, Get(e, "agent_id", Str("unknown")), Get(e, "alert_level", Str("UNKNOWN")),
               Get(e, "message", Str("No message")), Get(e, "timestamp", Str("unknown")),
               if Truthy(data) then Some(data) else None)
  }

  /** The first fifty events, numbered from 1. */
  function PromptItems(events: seq<Event>): (items: seq<PromptItem>)
  {
    var n := if |events| < PromptLimit then |events| else PromptLimit;
    seq(n, i requires 0 <= i < n => Item(i + 1, events[i]))
  }

  /** `_build_prompt`: the content of the prompt (its wording is not modelled). */
  datatype Prompt = Prompt(
    shiftStart: Value, shiftEnd: Value, stats: Value,
    violationTotal: nat, violations: seq<PromptItem>, anomalyTotal: nat, anomalies: seq<PromptItem>)

  function BuildPrompt(input: ShiftInput): Prompt
  {
    Prompt(match input.shiftStart case None => Str("") case Some(v) => v, input.shiftEnd, input.summaryStats,
           |input.violations|, PromptItems(input.violations), |input.anomalies|, PromptItems(input.anomalies))
  }

  // ------------------------------------------------------------------ the reply

  predicate StartsWith(s: string, p: string) { |p| <= |s| && s[..|p|] == p }
  predicate EndsWith(s: string, p: string) { |p| <= |s| && s[|s| - |p|..] == p }

  /** `_parse_response`'s clean-up: strip, drop a leading "```json", then a leading
      "```", then a trailing "```", and strip again. */
  function StripFences(content: string): string
  {
    var c := Strip(content);
    var c := if StartsWith(c, "```json") then c[7..] else c;
    var c := if StartsWith(c, "```") then c[3..] else c;
    var c := if EndsWith(c, "```") then c[..|c| - 3] else c;
    Strip(c)
  }

  /** The backlog report. Fields the language model supplies are JSON values. */
  datatype Backlog = Backlog(
    backlogId: string, shiftStart: Value, shiftEnd: Value,
    summary: Value, violations: Value, anomalies: Value, recommendations: Value,
    priorityItems: Value, trends: Value, statistics: Value, generatedAt: string,
    totalViolations: nat, totalAnomalies: nat)

  function StartField(input: ShiftInput): Value
  {
    match input.shiftStart case None => Null case Some(v) => v
  }

  /** What every backlog carries whichever path built it: the id, the shift period and
      statistics, both full totals, and the current time. */
  predicate Stamped(b: Backlog, input: ShiftInput, now: string)
  {
    BacklogId(input, now) == Some(b.backlogId)
    && b.shiftStart == StartField(input) && b.shiftEnd == input.shiftEnd
    && b.statistics == input.summaryStats && b.generatedAt == now
    && b.totalViolations == |input.violations| && b.totalAnomalies == |input.anomalies|
  }

  // ------------------------------------------------------------------ the mock

  predicate IsCritical(e: Event) { Get(e, "alert_level", Null) in [Str("CRITICAL"), Str("EMERGENCY")] }
  predicate IsWarning(e: Event) { Get(e, "alert_level", Null) == Str("WARNING") }
  predicate IsCaution(e: Event) { Get(e, "alert_level", Null) == Str("CAUTION") }

  /** The events by severity, in their order. */
  datatype Buckets = Buckets(critical: seq<Event>, warning: seq<Event>, caution: seq<Event>)

  function Categorise(events: seq<Event>): Buckets
  {
    Buckets(BL.Filter(events, IsCritical), BL.Filter(events, IsWarning), BL.Filter(events, IsCaution))
  }

  function Objects(events: seq<Event>): (vs: seq<Value>)
    ensures |vs| == |events|
  {
    seq(|events|, i requires 0 <= i < |events| => Obj(events[i]))
  }

  function BucketsValue(b: Buckets): Value
  {
    Obj(map["critical" := Arr(Objects(b.critical)), "warning" := Arr(Objects(b.warning)),
            "caution" := Arr(Objects(b.caution))])
  }

  const AddressCritical := "Address critical violations immediately"
  const InvestigateCritical := "Investigate critical anomalies"
  const ReviewProcedures := "Review operational procedures to reduce violation frequency"

  function Recommendations(violations: seq<Event>, anomalies: seq<Event>): seq<string>
  {
    (if Categorise(violations).critical != [] then [AddressCritical] else [])
    + (if Categorise(anomalies).critical != [] then [InvestigateCritical] else [])
    + (if |violations| > 10 then [ReviewProcedures] else [])
  }

  function PriorityItems(violations: seq<Event>): seq<Value>
  {
    var critical := Categorise(violations).critical;
    if critical == [] then []
    else [Obj(map["priority" := Str("HIGH"),
                  "item" := Str("Review " + IntText(|critical|) + " critical violations"),
                  "agent" := Str("multiple"),
                  "action_required" := Str("Immediate attention required")])]
  }

  function Strs(ss: seq<string>): (vs: seq<Value>)
    ensures |vs| == |ss|
  {
    seq(|ss|, i requires 0 <= i < |ss| => Str(ss[i]))
  }

  /** `_mock_generate_backlog`; None where the backlog id cannot be built. */
  function MockBacklog(input: ShiftInput, now: string): (r: Option<Backlog>)
    ensures r.None? <==> BacklogId(input, now).None?
    ensures r.Some? ==> Stamped(r.value, input, now)
  {
    match BacklogId(input, now)
    case None => None
    case Some(id) =>
      var v := |input.violations|;
      var a := |input.anomalies|;
      Some(Backlog(id, StartField(input), input.shiftEnd,
        Str("Shift completed with " + IntText(v) + " violations and " + IntText(a)
            + " anomalies detected across all monitoring agents."),
        BucketsValue(Categorise(input.violations)), BucketsValue(Categorise(input.anomalies)),
        Arr(Strs(Recommendations(input.violations, input.anomalies))),
        Arr(PriorityItems(input.violations)),
        Str("Total of " + IntText(v) + " violations and " + IntText(a) + " anomalies detected during this shift."),
        input.summaryStats, now, v, a))
  }

  /** The language model: absent (no API key or client), or what it does with a prompt. */
  datatype Reply = Replied(content: string) | CallFails

  /** `_parse_response`: the cleaned reply must parse to a JSON object, whose fields
      fill the backlog (with fixed fallbacks); anything else gives the mock. */
  function ParseResponse(content: string, input: ShiftInput, now: string,
                         parse: string -> Option<Value>): (r: Option<Backlog>)
    ensures r.None? <==> BacklogId(input, now).None?
    ensures r.Some? ==> Stamped(r.value, input, now)
    ensures !(parse(StripFences(content)).Some? && parse(StripFences(content)).value.Obj?)
            ==> r == MockBacklog(input, now)
  {
    match parse(StripFences(content))
    case Some(Obj(m)) =>
      (match BacklogId(input, now)
       case None => None
       case Some(id) =>
         Some(Backlog(id, StartField(input), input.shiftEnd,
           Get(m, "summary", Str("No summary generated")), Get(m, "violations", Obj(map[])),
           Get(m, "anomalies", Obj(map[])), Get(m, "recommendations", Arr([])),
           Get(m, "priority_items", Arr([])), Get(m, "trends", Str("No trend analysis available")),
           input.summaryStats, now, |input.violations|, |input.anomalies|)))
    case _ => MockBacklog(input, now)
  }

  /** `generate_backlog`: None when it raises, which happens exactly when the backlog
      id cannot be built (the mock fallback raises again). */
  function GenerateBacklog(input: ShiftInput, llm: Option<Prompt -> Reply>, now: string,
                           parse: string -> Option<Value>): (r: Option<Backlog>)
    ensures r.None? <==> input.shiftStart.Some? && !input.shiftStart.value.Str?
    ensures r.Some? ==> Stamped(r.value, input, now)
    ensures llm.None? ==> r == MockBacklog(input, now)
  {
    match llm
    case None => MockBacklog(input, now)
    case Some(model) =>
      match model(BuildPrompt(input))
      case CallFails => MockBacklog(input, now)
      case Replied(content) => ParseResponse(content, input, now, parse)
  }

  // ---------------------------------------------------------------- properties

  /** The backlog id is built from the shift start exactly when that is text, and it
      then contains neither ':' nor ' '. */
  lemma BacklogIdShape(input: ShiftInput, now: string, s: string)
    requires input.shiftStart == Some(Str(s))
    ensures BacklogId(input, now).Some?
    ensures var id := BacklogId(input, now).value;
      |id| == 8 + |s| && id[..8] == "backlog_" && ':' !in id[8..] && ' ' !in id[8..]
      && (forall i :: 0 <= i < |s| && s[i] != ':' && s[i] != ' ' ==> id[8 + i] == s[i])
  {
    var id := BacklogId(input, now).value;
    assert id[8..] == ReplaceChar(ReplaceChar(s, ':', '-'), ' ', '_');
  }

  /** An ISO timestamp: its colons become dashes. */
  lemma IsoBacklogId()
    ensures BacklogId(ShiftInput(Some(Str("2024-01-01T08:00:00")), Null, [], [], Obj(map[])), "")
         == Some("backlog_2024-01-01T08-00-00")
  {
    assert ReplaceChar("2024-01-01T08:00:00", ':', '-') == "2024-01-01T08-00-00";
    assert ReplaceChar("2024-01-01T08-00-00", ' ', '_') == "2024-01-01T08-00-00";
    assert "backlog_" + "2024-01-01T08-00-00" == "backlog_2024-01-01T08-00-00";
  }

  lemma StripClean(s: string)
    requires s != [] && !IsSpace(s[0]) && !IsSpace(s[|s| - 1])
    ensures Strip(s) == s
  {
  }

  lemma StripNewlines(b: string)
    requires b != [] && !IsSpace(b[0]) && !IsSpace(b[|b| - 1])
    ensures Strip("\n" + b + "\n") == b
  {
    var s := "\n" + b + "\n";
    assert s[1..] == b + "\n";
    assert (b + "\n")[0] == b[0];
    assert StripLeft(s) == StripLeft(b + "\n") == b + "\n";
    assert (b + "\n")[..|b|] == b;
    assert StripRight(b) == b;
    assert StripRight(b + "\n") == StripRight(b);
  }

  /** A reply fenced as a JSON code block, or as a bare code block, is read as its
      body; a bare body is read as it is. */
  lemma FencedReply(b: string)
    requires b != [] && b[0] == '{' && b[|b| - 1] == '}'
    ensures StripFences("```json\n" + b + "\n```") == b
    ensures StripFences("```\n" + b + "\n```") == b
    ensures StripFences(b) == b
  {
    StripClean(b);
    StripNewlines(b);
    var s := "```json\n" + b + "\n```";
    StripClean(s);
    assert s[7..] == "\n" + b + "\n```";
    assert !StartsWith(s[7..], "```");
    assert ("\n" + b + "\n```")[..|b| + 2] == "\n" + b + "\n";
    var t := "```\n" + b + "\n```";
    StripClean(t);
    assert t[3] == '\n';
    assert !StartsWith(t, "```json");
    assert t[3..] == "\n" + b + "\n```";
  }

  lemma FilterAllOrNone<T>(xs: seq<T>, keep: T -> bool, other: T -> bool)
    requires forall x :: keep(x) ==> !other(x)
    ensures forall x :: x in BL.Filter(xs, keep) ==> !other(x)
  {
    BL.FilterMembers(xs, keep);
  }

  /** The mock's buckets are exactly the events of their severity, each event in at
      most one bucket; an event of any other level is in none. */
  lemma BucketMembers(events: seq<Event>, e: Event)
    ensures var b := Categorise(events);
      (e in b.critical <==> e in events && IsCritical(e))
      && (e in b.warning <==> e in events && IsWarning(e))
      && (e in b.caution <==> e in events && IsCaution(e))
      && !(e in b.critical && e in b.warning) && !(e in b.critical && e in b.caution)
      && !(e in b.warning && e in b.caution)
      && (!IsCritical(e) && !IsWarning(e) && !IsCaution(e) ==>
          e !in b.critical && e !in b.warning && e !in b.caution)
  {
    BL.FilterMembers(events, IsCritical);
    BL.FilterMembers(events, IsWarning);
    BL.FilterMembers(events, IsCaution);
  }

  /** The mock's recommendations, in their fixed order, each present exactly when its
      condition holds. */
  lemma RecommendationOrder(violations: seq<Event>, anomalies: seq<Event>)
    ensures var r := Recommendations(violations, anomalies);
      var cv := Categorise(violations).critical != [];
      var ca := Categorise(anomalies).critical != [];
      var many := |violations| > 10;
      (AddressCritical in r <==> cv) && (InvestigateCritical in r <==> ca) && (ReviewProcedures in r <==> many)
      && |r| == (if cv then 1 else 0) + (if ca then 1 else 0) + (if many then 1 else 0)
      && (cv ==> r[0] == AddressCritical)
      && (many ==> r[|r| - 1] == ReviewProcedures)
  {
    // the three texts differ in length
    assert |AddressCritical| == 39 && |InvestigateCritical| == 30 && |ReviewProcedures| == 59;
  }

  /** There is one high-priority item exactly when there are critical violations. */
  lemma PriorityItemsOnCritical(violations: seq<Event>)
    ensures |PriorityItems(violations)| == (if exists e :: e in violations && IsCritical(e) then 1 else 0)
  {
    BL.FilterMembers(violations, IsCritical);
    var critical := Categorise(violations).critical;
    if critical != [] {
      assert critical[0] in critical;
    }
    if exists e :: e in violations && IsCritical(e) {
      var e :| e in violations && IsCritical(e);
      assert e in critical;
    }
  }

  /** The prompt numbers at most fifty events of each kind from 1, in order, while
      stating the full totals. */
  lemma PromptLimits(input: ShiftInput)
    ensures var p := BuildPrompt(input);
      p.violationTotal == |input.violations| && p.anomalyTotal == |input.anomalies|
      && |p.violations| == (if |input.violations| < 50 then |input.violations| else 50)
      && |p.anomalies| == (if |input.anomalies| < 50 then |input.anomalies| else 50)
      && (forall i :: 0 <= i < |p.violations| ==>
            p.violations[i].number == i + 1 && p.violations[i] == Item(i + 1, input.violations[i]))
      && (forall i :: 0 <= i < |p.anomalies| ==>
            p.anomalies[i].number == i + 1 && p.anomalies[i] == Item(i + 1, input.anomalies[i]))
  {
  }

  /** An event without fields shows the placeholders and no details. */
  lemma ItemPlaceholders(n: nat)
    ensures Item(n, map[]) == PromptItem(n, Str("unknown"), Str("UNKNOWN"), Str("No message"), Str("unknown"), None)
  {
  }
}
