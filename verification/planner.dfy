/** The search-window planner: the business-hour spans, one per weekday over
    the eight calendar days from the meeting's end date, in which to look for
    a new slot. */
module Planner {
  import opened Wrappers
  import opened Clock
  import opened Garoon

  /** Business hours are [10:00, 19:00). */
  const OpeningHour: Hour := 10
  const ClosingHour: Hour := 19
  /** Day offsets 0 .. LastOffset from the meeting's end date are searched. */
  const LastOffset: nat := 7

  /** The window for the day `i` days after `endDay`, if that day gets one:
      none on Saturday or Sunday, none on the end date itself once the
      current hour has reached closing time, and on the end date a start
      moved up to the current hour once that hour is past opening time. */
  function WindowAt(endDay: nat, nowHour: Hour, i: nat): (w: Option<DateTimePeriod>)
    ensures w.Some? <==> !IsWeekend(endDay + i) && (i == 0 ==> nowHour < ClosingHour)
    ensures w.Some? ==> Day(w.value.start) == endDay + i && w.value.end == At(endDay + i, ClosingHour)
  {
    var d := endDay + i;
    if IsWeekend(d) then None
    else if i == 0 && nowHour >= ClosingHour then None
    else
      var startHour: Hour := if i == 0 && nowHour > OpeningHour then nowHour else OpeningHour;
      Some(DateTimePeriod(At(d, startHour), At(d, ClosingHour)))
  }

  function Emitted(w: Option<DateTimePeriod>): (r: seq<DateTimePeriod>)
    ensures |r| <= 1
  {
    match w
    case None => []
    case Some(p) => [p]
  }

  /** The windows of offsets 0 .. n-1, in offset order. */
  function Plan(endDay: nat, nowHour: Hour, n: nat): (P: seq<DateTimePeriod>)
    ensures |P| <= n
  {
    if n == 0 then [] else Plan(endDay, nowHour, n - 1) + Emitted(WindowAt(endDay, nowHour, n - 1))
  }

  /** buildTimeRanges, with the current hour passed in rather than read from
      the clock. */
  method BuildTimeRanges(end: Instant, nowHour: Hour) returns (periods: seq<DateTimePeriod>)
    ensures periods == Plan(Day(end), nowHour, LastOffset + 1)
  {
    periods := [];
    for i := 0 to LastOffset + 1
      invariant periods == Plan(Day(end), nowHour, i)
    {
      var d := Day(end) + i;
      if Weekday(d) == 0 || Weekday(d) == 6 {
        continue;
      }
      var startHour: Hour := OpeningHour;
      if i == 0 {
        var hour := nowHour;
        if hour >= ClosingHour {
          continue;
        } else if hour > OpeningHour {
          startHour := hour;
        }
      }
      periods := periods + [DateTimePeriod(At(d, startHour), At(d, ClosingHour))];
    }
  }

  /** What every emitted window looks like: on a weekday, ending at 19:00 and
      starting at 10:00, except on the end date itself, where it starts at
      the current hour when that is past 10 and where there is no window at
      all once it is 19:00 or later. */
  ghost predicate WellShaped(endDay: nat, nowHour: Hour, p: DateTimePeriod)
  {
    var d := Day(p.start);
    && !IsWeekend(d)
    && p.end == At(d, ClosingHour)
    && (d == endDay ==> nowHour < ClosingHour)
    && p.start == At(d, if d == endDay && nowHour > OpeningHour then nowHour else OpeningHour)
    && p.start < p.end
  }

  /** The window of one offset, when there is one, is well shaped and falls
      on the day of that offset. */
  lemma WindowAtShape(endDay: nat, nowHour: Hour, i: nat)
    requires WindowAt(endDay, nowHour, i).Some?
    ensures var p := WindowAt(endDay, nowHour, i).value;
      Day(p.start) == endDay + i && WellShaped(endDay, nowHour, p)
  {
  }

  /** The plan for offsets below n: at most n windows, each well shaped and
      within those n days. */
  lemma {:induction false} PlanShape(endDay: nat, nowHour: Hour, n: nat)
    ensures var P := Plan(endDay, nowHour, n);
      && |P| <= n
      && (forall k :: 0 <= k < |P| ==> WellShaped(endDay, nowHour, P[k]))
      && (forall k :: 0 <= k < |P| ==> endDay <= Day(P[k].start) < endDay + n)
  {
    if n > 0 {
      PlanShape(endDay, nowHour, n - 1);
      var w := WindowAt(endDay, nowHour, n - 1);
      if w.Some? {
        WindowAtShape(endDay, nowHour, n - 1);
      }
    }
  }

  /** The windows are in strictly increasing day order. */
  lemma {:induction false} PlanOrdered(endDay: nat, nowHour: Hour, n: nat)
    ensures var P := Plan(endDay, nowHour, n);
      forall j, k :: 0 <= j < k < |P| ==> Day(P[j].start) < Day(P[k].start)
  {
    if n > 0 {
      var prev := Plan(endDay, nowHour, n - 1);
      PlanOrdered(endDay, nowHour, n - 1);
      PlanShape(endDay, nowHour, n - 1);
      var w := WindowAt(endDay, nowHour, n - 1);
      if w.Some? {
        var P := prev + [w.value];
        assert Plan(endDay, nowHour, n) == P;
        assert Day(P[|prev|].start) == endDay + n - 1;
        forall j | 0 <= j < |prev| ensures Day(P[j].start) < Day(P[|prev|].start) {
          assert P[j] == prev[j];
        }
      }
    }
  }

  /** Every offset whose day gets a window has it in the plan. */
  lemma {:induction false} PlanComplete(endDay: nat, nowHour: Hour, n: nat)
    ensures forall i :: 0 <= i < n && WindowAt(endDay, nowHour, i).Some? ==>
      WindowAt(endDay, nowHour, i).value in Plan(endDay, nowHour, n)
  {
    if n > 0 {
      PlanComplete(endDay, nowHour, n - 1);
      assert Plan(endDay, nowHour, n) == Plan(endDay, nowHour, n - 1) + Emitted(WindowAt(endDay, nowHour, n - 1));
    }
  }

  /** Offsets known to get no window each take one off the bound. */
  lemma {:induction false} PlanSkips(endDay: nat, nowHour: Hour, n: nat, skipped: set<nat>)
    requires forall i :: i in skipped ==> i < n && WindowAt(endDay, nowHour, i).None?
    ensures |Plan(endDay, nowHour, n)| + |skipped| <= n
  {
    if n > 0 {
      var rest := skipped - {n - 1};
      PlanSkips(endDay, nowHour, n - 1, rest);
      if n - 1 in skipped {
        assert |rest| == |skipped| - 1;
      } else {
        assert rest == skipped;
      }
    }
  }

  /** Eight consecutive days always include a Saturday and a Sunday, so at
      most six windows are planned. */
  lemma AtMostSixWindows(endDay: nat, nowHour: Hour)
    ensures |Plan(endDay, nowHour, LastOffset + 1)| <= 6
  {
    var w := Weekday(endDay);
    assert endDay == 7 * (endDay / 7) + w;
    var saturday := 6 - w;
    var sunday := 7 - w;
    assert Weekday(endDay + saturday) == 6 by { assert endDay + saturday == 7 * (endDay / 7) + 6; }
    assert Weekday(endDay + sunday) == 0 by { assert endDay + sunday == 7 * (endDay / 7 + 1); }
    PlanSkips(endDay, nowHour, LastOffset + 1, {saturday, sunday});
  }

  /** Planning more days only appends windows. */
  lemma {:induction false} PlanExtends(endDay: nat, nowHour: Hour, m: nat, n: nat)
    requires m <= n
    ensures Plan(endDay, nowHour, m) <= Plan(endDay, nowHour, n)
  {
    if m < n {
      PlanExtends(endDay, nowHour, m, n - 1);
    }
  }

  /** A meeting ending on a Sunday, planned at 10:00: the first window is the
      whole business day of the following Monday. */
  lemma SundayMeetingStartsMonday(endDay: nat)
    requires Weekday(endDay) == 0
    ensures var P := Plan(endDay, 10, LastOffset + 1);
      |P| > 0 && P[0] == DateTimePeriod(At(endDay + 1, 10), At(endDay + 1, 19))
  {
    assert Weekday(endDay + 1) == 1;
    assert Plan(endDay, 10, 1) == [];
    PlanExtends(endDay, 10, 2, LastOffset + 1);
  }
}
