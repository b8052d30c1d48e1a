// The backlog agent's shift logic: when a shift is over, when the next one starts,
// how the shift's events are split into violations and anomalies and counted, and
// how urgent the shift as a whole is. Times are whole seconds since the epoch.

module BacklogLogic {
  import opened PyValues

  /** An event collected during the shift (see the backlog agent's communication). */
  type Event = Dict

  const SecondsPerHour := 3600
  const SecondsPerDay := 86400

  /** `is_shift_complete`: the shift is over once its duration has elapsed. */
  predicate IsShiftComplete(shiftHours: int, shiftStart: int, now: int)
  {
    now - shiftStart >= shiftHours * SecondsPerHour
  }

  /** `get_next_shift_start`: the next boundary of the day's shifts (hours 0, d, 2d, …
      below 24) after the current hour, tomorrow's first one if none is left today.
      `//` and `%` are Python's. None where the code raises: a zero shift length
      divides by zero, and a shift longer than a day makes `shifts_per_day` zero, the
      divisor of `(current_shift + 1) % shifts_per_day`; `replace` would raise for an
      hour outside 0..23, which no shift length reaches. */
  function NextShiftStart(shiftHours: int, now: int): (next: Option<int>)
    ensures next.None? <==> shiftHours == 0 || shiftHours > 24
  {
    if shiftHours == 0 then None
    else
      var hour := (now % SecondsPerDay) / SecondsPerHour;
      ShiftHourInRange(shiftHours, hour);
      var shiftsPerDay := FloorDiv(24, shiftHours);
      if shiftsPerDay == 0 then None
      else
        var nextHour := FloorMod(FloorDiv(hour, shiftHours) + 1, shiftsPerDay) * shiftHours;
        if !(0 <= nextHour < 24) then None
        else
          var sameDay := now - now % SecondsPerDay + nextHour * SecondsPerHour;
          Some(if nextHour <= hour then sameDay + SecondsPerDay else sameDay)
  }

  /** Python's `//` and `%` agree with Dafny's for a positive divisor. */
  lemma PositiveFloor(a: int, b: int)
    requires b > 0
    ensures FloorDiv(a, b) == a / b && FloorMod(a, b) == a % b
  {
  }

  /** The number of shifts a day is zero exactly for shifts longer than a day; any
      other non-zero shift length, negative ones included, gives a next shift hour
      within the day. */
  lemma ShiftHourInRange(d: int, hour: int)
    requires d != 0 && 0 <= hour < 24
    ensures FloorDiv(24, d) == 0 <==> d > 24
    ensures FloorDiv(24, d) != 0 ==>
      0 <= FloorMod(FloorDiv(hour, d) + 1, FloorDiv(24, d)) * d < 24
  {
    if d > 24 {
    } else if d > 0 {
      NextHourBounds(d, hour);
      PositiveFloor(hour, d);
      PositiveFloor(hour / d + 1, 24 / d);
    } else {
      NegativeShiftHour(d, FloorDiv(hour, d) + 1);
    }
  }

  /** With a negative shift length, `shifts_per_day` is negative, `x % shifts_per_day`
      lies in (shifts_per_day, 0], and its product with the length is an hour of the
      day. */
  lemma NegativeShiftHour(d: int, x: int)
    requires d < 0
    ensures FloorDiv(24, d) < 0
    ensures 0 <= FloorMod(x, FloorDiv(24, d)) * d < 24
  {
    var e := -d;
    var s := FloorDiv(24, d);
    var r := (-24) % e;
    assert s == (-24) / e;
    assert -24 == s * e + r && 0 <= r < e;
    var k := -s;
    assert k * e == 24 + r;
    if k <= 0 {
      MulMono(k, 0, e);
    }
    var m := FloorMod(x, s);
    assert 0 <= -m <= k - 1;
    HoursBelowDay(-m, k, e, r);
    assert m * d == (-m) * e;
  }

  lemma HoursBelowDay(j: int, k: int, e: int, r: int)
    requires e > 0 && 0 <= j <= k - 1 && k * e == 24 + r && 0 <= r < e
    ensures 0 <= j * e < 24
  {
    MulMono(0, j, e);
    MulMono(j, k - 1, e);
    assert (k - 1) * e == k * e - e;
  }

  // ---------------------------------------------------------------- aggregation

  function AgentOf(e: Event): Value { Get(e, "agent_id", Str("unknown")) }

  /** An event is a violation when it comes from the PPE or hazard agent, or from the
      PM agent at level CRITICAL or EMERGENCY; everything else is an anomaly. */
  predicate IsViolation(e: Event)
  {
    var agent := AgentOf(e);
    var level := Get(e, "alert_level", Str("NORMAL"));
    agent == Str("ppe_agent") || agent == Str("hazard_agent")
    || (agent == Str("pm_agent") && (level == Str("CRITICAL") || level == Str("EMERGENCY")))
  }

  /** The elements of `xs` that pass `keep`, in their original order. */
  function Filter<T>(xs: seq<T>, keep: T -> bool): (r: seq<T>)
    ensures |r| <= |xs|
  {
    if xs == [] then []
    else Filter(xs[..|xs| - 1], keep) + (if keep(xs[|xs| - 1]) then [xs[|xs| - 1]] else [])
  }

  /** How many elements of `xs` pass `test`. */
  function Count<T>(xs: seq<T>, test: T -> bool): nat
  {
    if xs == [] then 0
    else Count(xs[..|xs| - 1], test) + (if test(xs[|xs| - 1]) then 1 else 0)
  }

  /** The events that are violations (or, with `violations` false, anomalies), in
      their original order. */
  function Select(events: seq<Event>, violations: bool): (r: seq<Event>)
    ensures |r| <= |events|
  {
    Filter(events, e => IsViolation(e) == violations)
  }

  /** `len([v for v in events if v.get('alert_level') == level])` */
  function CountLevel(events: seq<Event>, level: string): nat
  {
    Count(events, (e: Event) => Get(e, "alert_level", Null) == Str(level))
  }

  datatype SeverityCounts = SeverityCounts(critical: nat, emergency: nat, warning: nat, caution: nat)

  function Severities(events: seq<Event>): SeverityCounts
  {
    SeverityCounts(CountLevel(events, "CRITICAL"), CountLevel(events, "EMERGENCY"),
                   CountLevel(events, "WARNING"), CountLevel(events, "CAUTION"))
  }

  /** `agent_counts`: how many events each agent id has, built event by event. */
  function AgentCounts(events: seq<Event>): map<Value, nat>
  {
    if events == [] then map[]
    else
      var m := AgentCounts(events[..|events| - 1]);
      var id := AgentOf(events[|events| - 1]);
      m[id := if id in m then m[id] + 1 else 1]
  }

  /** Python hashes only the immutable values; an unhashable agent id makes the
      `agent_counts` assignment raise TypeError. */
  predicate Hashable(v: Value) { !v.Arr? && !v.Obj? }

  datatype Stats = Stats(
    totalViolations: nat, totalAnomalies: nat,
    violationCounts: SeverityCounts, anomalyCounts: SeverityCounts,
    agentCounts: map<Value, nat>, durationHours: real, eventsPerHour: real)

  datatype ShiftData = ShiftData(
    shiftStart: int, shiftEnd: int, violations: seq<Event>, anomalies: seq<Event>, stats: Stats)

  function DurationHours(shiftStart: int, shiftEnd: int): real
  {
    (shiftEnd - shiftStart) as real / SecondsPerHour as real
  }

  /** `events_per_hour`: 0 for a shift of no positive length. */
  function EventsPerHour(events: nat, hours: real): (r: real)
    ensures hours > 0.0 ==> r * hours == events as real
    ensures hours <= 0.0 ==> r == 0.0
  {
    if hours > 0.0 then events as real / hours else 0.0
  }

  /** `_calculate_statistics`; the agent counts are accumulated in a loop. None where
      an unhashable agent id makes the count's assignment raise TypeError. */
  method CalculateStatistics(violations: seq<Event>, anomalies: seq<Event>, shiftStart: int, shiftEnd: int)
    returns (stats: Option<Stats>)
    ensures stats.None? <==> exists e :: e in violations + anomalies && !Hashable(AgentOf(e))
    ensures stats.Some? ==>
      var st := stats.value;
      st.totalViolations == |violations| && st.totalAnomalies == |anomalies|
      && st.violationCounts == Severities(violations) && st.anomalyCounts == Severities(anomalies)
      && st.agentCounts == AgentCounts(violations + anomalies)
      && st.durationHours == DurationHours(shiftStart, shiftEnd)
      && st.eventsPerHour == EventsPerHour(|violations| + |anomalies|, st.durationHours)
  {
    var all := violations + anomalies;
    var counts: map<Value, nat> := map[];
    for i := 0 to |all|
      invariant counts == AgentCounts(all[..i])
      invariant forall j :: 0 <= j < i ==> Hashable(AgentOf(all[j]))
    {
      var id := AgentOf(all[i]);
      if !Hashable(id) {
        return None;
      }
      assert all[..i + 1][..i] == all[..i];
      counts := counts[id := if id in counts then counts[id] + 1 else 1];
    }
    assert all[..|all|] == all;
    var hours := DurationHours(shiftStart, shiftEnd);
    stats := Some(Stats(|violations|, |anomalies|, Severities(violations), Severities(anomalies),
                        counts, hours, EventsPerHour(|violations| + |anomalies|, hours)));
  }

  /** `aggregate_shift_data`: each event is appended to the violations or to the
      anomalies, in order, and the statistics are computed over both lists; None where
      the statistics raise. */
  method AggregateShiftData(events: seq<Event>, shiftStart: int, shiftEnd: int) returns (data: Option<ShiftData>)
    ensures data.None? <==> exists e :: e in events && !Hashable(AgentOf(e))
    ensures data.Some? ==>
      var d := data.value;
      d.shiftStart == shiftStart && d.shiftEnd == shiftEnd
      && d.violations == Select(events, true) && d.anomalies == Select(events, false)
      && d.stats.totalViolations == |d.violations| && d.stats.totalAnomalies == |d.anomalies|
      && d.stats.violationCounts == Severities(d.violations)
      && d.stats.anomalyCounts == Severities(d.anomalies)
      && d.stats.agentCounts == AgentCounts(d.violations + d.anomalies)
      && d.stats.eventsPerHour == EventsPerHour(|events|, DurationHours(shiftStart, shiftEnd))
  {
    var violations: seq<Event> := [];
    var anomalies: seq<Event> := [];
    for i := 0 to |events|
      invariant violations == Select(events[..i], true) && anomalies == Select(events[..i], false)
    {
      assert events[..i + 1][..i] == events[..i];
      if IsViolation(events[i]) {
        violations := violations + [events[i]];
      } else {
        anomalies := anomalies + [events[i]];
      }
    }
    assert events[..|events|] == events;
    SelectSplits(events);
    SelectedMembers(events, true);
    SelectedMembers(events, false);
    assert forall e :: e in violations + anomalies <==> e in events;
    var stats := CalculateStatistics(violations, anomalies, shiftStart, shiftEnd);
    data := match stats
      case None => None
      case Some(st) => Some(ShiftData(shiftStart, shiftEnd, violations, anomalies, st));
  }

  // ---------------------------------------------------------------- shift verdict

  datatype ShiftVerdict = ShiftVerdict(
    shiftStatus: string, priority: int, requiresAttention: bool, totalEvents: nat, criticalEvents: nat)

  /** `apply_logic`: any CRITICAL or EMERGENCY event makes the shift CRITICAL;
      otherwise the number of events decides. */
  function ApplyLogic(data: ShiftData): (v: ShiftVerdict)
    ensures v.totalEvents == |data.violations| + |data.anomalies|
    ensures v.requiresAttention <==> v.criticalEvents > 0 || |data.violations| > 5
  {
    var s := data.stats;
    var critical := s.violationCounts.critical + s.violationCounts.emergency
                    + s.anomalyCounts.critical + s.anomalyCounts.emergency;
    var total := |data.violations| + |data.anomalies|;
    var status :=
      if critical > 0 then ("CRITICAL", 1)
      else if total > 20 then ("WARNING", 2)
      else if total > 10 then ("CAUTION", 3)
      else ("NORMAL", 4);
    ShiftVerdict(status.0, status.1, critical > 0 || |data.violations| > 5, total, critical)
  }

  // ---------------------------------------------------------------- properties

  /** Once complete, a shift stays complete at every later time. */
  lemma CompleteStaysComplete(shiftHours: int, shiftStart: int, now: int, later: int)
    requires IsShiftComplete(shiftHours, shiftStart, now) && now <= later
    ensures IsShiftComplete(shiftHours, shiftStart, later)
  {
  }

  lemma MulMono(a: int, b: int, c: int)
    requires a <= b && c >= 0
    ensures a * c <= b * c
  {
  }

  lemma {:induction false} MulMod(k: int, d: int)
    requires d >= 1
    ensures (k * d) % d == 0
  {
    var q := (k * d) / d;
    var r := (k * d) % d;
    assert k * d == q * d + r && 0 <= r < d;
    assert (k - q) * d == r;
    if k - q >= 1 {
      MulMono(1, k - q, d);
    } else if k - q <= -1 {
      MulMono(k - q, -1, d);
    }
  }

  /** A day holds at least one shift of one to 24 hours. */
  lemma DayShifts(d: int)
    requires 1 <= d <= 24
    ensures 1 <= 24 / d && (24 / d) * d <= 24
  {
    var q := 24 / d;
    assert 24 == q * d + 24 % d && 0 <= 24 % d < d;
    if q <= 0 {
      MulMono(q, 0, d);
    }
  }

  /** The next shift's hour is a multiple of the shift length that leaves room for a
      whole shift before midnight. */
  lemma NextHourBounds(d: int, hour: int)
    requires 1 <= d <= 24 && 0 <= hour < 24
    ensures 24 / d >= 1
    ensures var nh := ((hour / d + 1) % (24 / d)) * d;
      0 <= nh <= 24 - d && nh % d == 0
  {
    DayShifts(d);
    var spd := 24 / d;
    var k := (hour / d + 1) % spd;
    assert 0 <= k < spd;
    MulMono(k, spd - 1, d);
    MulMono(0, k, d);
    MulMod(k, d);
    assert (spd - 1) * d == spd * d - d;
  }

  /** The seconds past midnight of a time `offset` after a midnight. */
  lemma DayOffset(midnight: int, offset: int)
    requires midnight % SecondsPerDay == 0 && 0 <= offset < SecondsPerDay
    ensures (midnight + offset) % SecondsPerDay == offset
  {
    var q := midnight / SecondsPerDay;
    assert midnight == q * SecondsPerDay;
  }

  /** Whole multiples divide back exactly. */
  lemma {:induction false} MulDiv(k: int, d: int)
    requires d >= 1
    ensures (k * d) / d == k
  {
    MulMod(k, d);
    var q := (k * d) / d;
    assert k * d == q * d;
    assert (k - q) * d == 0;
    if k - q >= 1 {
      MulMono(1, k - q, d);
    } else if k - q <= -1 {
      MulMono(k - q, -1, d);
    }
  }

  /** The boundary `nextHour` hours after a midnight, a day later when that hour is
      not after the current one, lies on the hour, at `nextHour` o'clock, after now
      and within a day of it. */
  lemma {:induction false} BoundaryAfter(now: int, nextHour: int)
    requires 0 <= nextHour < 24
    ensures var tod := now % SecondsPerDay;
      var hour := tod / SecondsPerHour;
      var sameDay := now - tod + nextHour * SecondsPerHour;
      var next := if nextHour <= hour then sameDay + SecondsPerDay else sameDay;
      next % SecondsPerHour == 0
      && (next % SecondsPerDay) / SecondsPerHour == nextHour
      && now < next <= now + SecondsPerDay
  {
    var tod := now % SecondsPerDay;
    var hour := tod / SecondsPerHour;
    var midnight := now - tod;
    var offset := nextHour * SecondsPerHour;
    var h3 := hour * SecondsPerHour;
    assert h3 <= tod < h3 + SecondsPerHour;
    MulMono(nextHour, 23, SecondsPerHour);
    MulMono(0, nextHour, SecondsPerHour);
    assert 0 <= offset < SecondsPerDay;
    if nextHour <= hour {
      MulMono(nextHour, hour, SecondsPerHour);
    } else {
      MulMono(hour + 1, nextHour, SecondsPerHour);
    }
    var q := now / SecondsPerDay;
    var days := if nextHour <= hour then q + 1 else q;
    var next := days * SecondsPerDay + offset;
    assert midnight == q * SecondsPerDay;
    DayOffset(days * SecondsPerDay, offset);
    MulDiv(nextHour, SecondsPerHour);
    assert next == (days * 24 + nextHour) * SecondsPerHour;
    MulMod(days * 24 + nextHour, SecondsPerHour);
  }

  /** For a shift of one to 24 hours the next start is on the hour, at an hour that is
      a multiple of the shift length, strictly after now and at most a day later. */
  lemma NextShiftBoundary(shiftHours: int, now: int)
    requires 1 <= shiftHours <= 24
    ensures NextShiftStart(shiftHours, now).Some?
    ensures var next := NextShiftStart(shiftHours, now).value;
      next % SecondsPerHour == 0
      && ((next % SecondsPerDay) / SecondsPerHour) % shiftHours == 0
      && now < next <= now + SecondsPerDay
  {
    var hour := (now % SecondsPerDay) / SecondsPerHour;
    NextHourBounds(shiftHours, hour);
    PositiveFloor(hour, shiftHours);
    PositiveFloor(24, shiftHours);
    PositiveFloor(hour / shiftHours + 1, 24 / shiftHours);
    BoundaryAfter(now, ((hour / shiftHours + 1) % (24 / shiftHours)) * shiftHours);
  }

  /** Filtering by a test and by its negation splits a sequence: together the two
      parts are a rearrangement of it. */
  lemma {:induction false} FilterSplits<T>(xs: seq<T>, keep: T -> bool, drop: T -> bool)
    requires forall x :: drop(x) == !keep(x)
    ensures multiset(Filter(xs, keep)) + multiset(Filter(xs, drop)) == multiset(xs)
    ensures |Filter(xs, keep)| + |Filter(xs, drop)| == |xs|
  {
    if xs != [] {
      var init := xs[..|xs| - 1];
      var last := xs[|xs| - 1];
      FilterSplits(init, keep, drop);
      assert xs == init + [last];
      assert multiset(xs) == multiset(init) + multiset{last};
      if keep(last) {
        assert Filter(xs, keep) == Filter(init, keep) + [last];
        assert Filter(xs, drop) == Filter(init, drop);
      } else {
        assert Filter(xs, keep) == Filter(init, keep);
        assert Filter(xs, drop) == Filter(init, drop) + [last];
      }
    }
  }

  lemma {:induction false} FilterMembers<T>(xs: seq<T>, keep: T -> bool)
    ensures forall x :: x in Filter(xs, keep) <==> x in xs && keep(x)
  {
    if xs != [] {
      var init := xs[..|xs| - 1];
      FilterMembers(init, keep);
      assert xs == init + [xs[|xs| - 1]];
    }
  }

  lemma {:induction false} FilterAppend<T>(a: seq<T>, b: seq<T>, keep: T -> bool)
    ensures Filter(a + b, keep) == Filter(a, keep) + Filter(b, keep)
  {
    if b == [] {
      assert a + b == a;
    } else {
      var init := b[..|b| - 1];
      FilterAppend(a, init, keep);
      assert (a + b)[..|a + b| - 1] == a + init;
    }
  }

  lemma {:induction false} CountAppend<T>(a: seq<T>, b: seq<T>, test: T -> bool)
    ensures Count(a + b, test) == Count(a, test) + Count(b, test)
  {
    if b == [] {
      assert a + b == a;
    } else {
      CountAppend(a, b[..|b| - 1], test);
      assert (a + b)[..|a + b| - 1] == a + b[..|b| - 1];
    }
  }

  /** A count splits along a filter and its negation. */
  lemma {:induction false} CountSplits<T>(xs: seq<T>, keep: T -> bool, drop: T -> bool, test: T -> bool)
    requires forall x :: drop(x) == !keep(x)
    ensures Count(Filter(xs, keep), test) + Count(Filter(xs, drop), test) == Count(xs, test)
  {
    if xs != [] {
      var init := xs[..|xs| - 1];
      var last := xs[|xs| - 1];
      CountSplits(init, keep, drop, test);
      assert Count([last], test) == if test(last) then 1 else 0 by {
        assert [last][..0] == [];
      }
      if keep(last) {
        assert Filter(xs, keep) == Filter(init, keep) + [last];
        assert Filter(xs, drop) == Filter(init, drop);
        CountAppend(Filter(init, keep), [last], test);
      } else {
        assert Filter(xs, keep) == Filter(init, keep);
        assert Filter(xs, drop) == Filter(init, drop) + [last];
        CountAppend(Filter(init, drop), [last], test);
      }
    }
  }

  /** Every event lands in exactly one of the two lists: together they are a
      rearrangement of the events. */
  lemma SelectSplits(events: seq<Event>)
    ensures multiset(Select(events, true)) + multiset(Select(events, false)) == multiset(events)
    ensures |Select(events, true)| + |Select(events, false)| == |events|
  {
    FilterSplits(events, e => IsViolation(e) == true, e => IsViolation(e) == false);
  }

  /** The violations are exactly the events that are violations, and the anomalies
      exactly the others. */
  lemma SelectedMembers(events: seq<Event>, violations: bool)
    ensures forall e :: e in Select(events, violations) <==> e in events && IsViolation(e) == violations
  {
    FilterMembers(events, e => IsViolation(e) == violations);
  }

  /** Selection keeps relative order: the selection of a concatenation is the
      concatenation of the selections. */
  lemma SelectAppend(a: seq<Event>, b: seq<Event>, violations: bool)
    ensures Select(a + b, violations) == Select(a, violations) + Select(b, violations)
  {
    FilterAppend(a, b, e => IsViolation(e) == violations);
  }

  /** Where each agent's events go. */
  lemma Categories(e: Event)
    ensures AgentOf(e) == Str("ppe_agent") || AgentOf(e) == Str("hazard_agent") ==> IsViolation(e)
    ensures AgentOf(e) == Str("cyber_agent") || AgentOf(e) == Str("energy_agent") ==> !IsViolation(e)
    ensures AgentOf(e) == Str("pm_agent") ==>
      (IsViolation(e) <==> Get(e, "alert_level", Str("NORMAL")) in {Str("CRITICAL"), Str("EMERGENCY")})
    ensures "agent_id" !in e ==> !IsViolation(e)
  {
  }

  /** Level counts split along the partition. */
  lemma CountLevelSplits(events: seq<Event>, level: string)
    ensures CountLevel(Select(events, true), level) + CountLevel(Select(events, false), level)
         == CountLevel(events, level)
  {
    CountSplits(events, e => IsViolation(e) == true, e => IsViolation(e) == false,
                (e: Event) => Get(e, "alert_level", Null) == Str(level));
  }

  /** The sum of a count map's values. */
  ghost function MapSum(m: map<Value, nat>): nat
    decreases |m|
  {
    if m == map[] then 0
    else
      var k :| k in m;
      m[k] + MapSum(m - {k})
  }

  lemma {:induction false} MapSumRemove(m: map<Value, nat>, k: Value)
    requires k in m
    ensures MapSum(m) == m[k] + MapSum(m - {k})
    decreases |m|
  {
    var j :| j in m && MapSum(m) == m[j] + MapSum(m - {j});
    if j != k {
      MapSumRemove(m - {j}, k);
      MapSumRemove(m - {k}, j);
      assert m - {j} - {k} == m - {k} - {j};
    }
  }

  /** Counting one more event for `id` adds one to the sum. */
  lemma MapSumBump(m: map<Value, nat>, id: Value)
    ensures MapSum(m[id := if id in m then m[id] + 1 else 1]) == MapSum(m) + 1
  {
    var m2 := m[id := if id in m then m[id] + 1 else 1];
    MapSumRemove(m2, id);
    assert m2 - {id} == m - {id};
    if id in m {
      MapSumRemove(m, id);
    } else {
      assert m - {id} == m;
    }
  }

  /** The agent counts add up to the number of events. */
  lemma {:induction false} AgentCountsTotal(events: seq<Event>)
    ensures MapSum(AgentCounts(events)) == |events|
  {
    if events != [] {
      AgentCountsTotal(events[..|events| - 1]);
      MapSumBump(AgentCounts(events[..|events| - 1]), AgentOf(events[|events| - 1]));
    }
  }

  /** Exactly the agent ids of the events are counted. */
  lemma {:induction false} AgentCountsKeys(events: seq<Event>)
    ensures forall id :: id in AgentCounts(events) <==> exists e :: e in events && AgentOf(e) == id
  {
    if events != [] {
      var init := events[..|events| - 1];
      AgentCountsKeys(init);
      assert events == init + [events[|events| - 1]];
    }
  }

  /** The shift is CRITICAL exactly when some event of the shift is at level CRITICAL
      or EMERGENCY; the critical count is the number of such events. */
  lemma ShiftCritical(events: seq<Event>, data: ShiftData)
    requires data.violations == Select(events, true) && data.anomalies == Select(events, false)
    requires data.stats.violationCounts == Severities(data.violations)
    requires data.stats.anomalyCounts == Severities(data.anomalies)
    ensures ApplyLogic(data).criticalEvents == CountLevel(events, "CRITICAL") + CountLevel(events, "EMERGENCY")
    ensures ApplyLogic(data).totalEvents == |events|
    ensures ApplyLogic(data).shiftStatus == "CRITICAL" <==>
      CountLevel(events, "CRITICAL") + CountLevel(events, "EMERGENCY") > 0
  {
    CountLevelSplits(events, "CRITICAL");
    CountLevelSplits(events, "EMERGENCY");
    SelectSplits(events);
  }

  /** The verdict ladder: status and priority from the critical count and the total. */
  lemma Ladder(data: ShiftData)
    ensures var v := ApplyLogic(data);
      var total := |data.violations| + |data.anomalies|;
      (v.shiftStatus == "CRITICAL" <==> v.criticalEvents > 0)
      && (v.shiftStatus == "WARNING" <==> v.criticalEvents == 0 && total > 20)
      && (v.shiftStatus == "CAUTION" <==> v.criticalEvents == 0 && 10 < total <= 20)
      && (v.shiftStatus == "NORMAL" <==> v.criticalEvents == 0 && total <= 10)
      && (v.priority == 1 <==> v.shiftStatus == "CRITICAL")
      && 1 <= v.priority <= 4
  {
  }
}
