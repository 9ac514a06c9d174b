/**
 * The dashboard's reading of the daemon's files: the system status and
 * today's summary from the status snapshot, the recent days and the quick
 * statistics from the per-day attendance records, and the alerts the
 * snapshot calls for.
 *
 * The snapshot and the records are inputs: `state` is the parsed
 * `current_state.json` (None when it is missing or broken), `names` the
 * listing of the activities directory and `records` the parsed per-day
 * files by date. `now` and `today` stand for `datetime.now()`, and
 * `fromIso` for `datetime.fromisoformat` read down to hour and minute.
 */
module DashboardRepository {
  import opened Common
  import opened Calendar
  import opened Sorting
  import opened Models
  import opened Uptime
  import opened Connection

  /** `datetime.fromisoformat(text)` as far as the dashboard uses it; None when it raises. */
  type IsoReader = string -> Option<Clock>

  // ---------------------------------------------------------------------------
  // strftime('%I:%M %p')
  // ---------------------------------------------------------------------------

  /** The hour on a 12-hour clock face: 12 for midnight and noon. */
  function Hour12(hour: int): (r: int)
    requires 0 <= hour < 24
    ensures 1 <= r <= 12 && r % 12 == hour % 12
  {
    if hour % 12 == 0 then 12 else hour % 12
  }

  /** `strftime('%I:%M %p')` in the C locale, e.g. "09:05 PM". */
  function FormatClock12(c: Clock): string {
    Pad2(Hour12(c.hour)) + ":" + Pad2(c.minute) + " " + (if c.hour < 12 then "AM" else "PM")
  }

  /** Reading a 12-hour clock text back into a time of day. */
  function ParseClock12(s: string): Option<Clock> {
    if |s| == 8 && AllDigits(s[..2]) && s[2] == ':' && AllDigits(s[3..5]) && s[5] == ' '
       && (s[6..] == "AM" || s[6..] == "PM") then
      var h := DigitsValue(s[..2]);
      var m := DigitsValue(s[3..5]);
      if 1 <= h <= 12 && m < 60 then Some(TimeOfDay(h % 12 + (if s[6..] == "PM" then 12 else 0), m))
      else None
    else None
  }

  /** The 12-hour text names the time exactly: reading it back gives the time of day. */
  lemma {:induction false} ParseFormatClock12(c: Clock)
    ensures ParseClock12(FormatClock12(c)) == Some(c)
  {
    var a := Pad2(Hour12(c.hour));
    var b := Pad2(c.minute);
    var p := if c.hour < 12 then "AM" else "PM";
    var s := a + ":" + b + " " + p;
    assert |a| == 2 && |b| == 2;
    assert s[..2] == a && s[3..5] == b && s[6..] == p;
    assert s[2] == ':' && s[5] == ' ';
    HourFromFace(c.hour);
  }

  /** The 12-hour face and the half of the day give back the hour. */
  lemma HourFromFace(hour: int)
    requires 0 <= hour < 24
    ensures Hour12(hour) % 12 + (if hour < 12 then 0 else 12) == hour
  {
  }

  /**
   * A time field shown on the dashboard: for a non-empty value that
   * `fromisoformat` reads, its 12-hour text; None otherwise.
   */
  function FormatTime(value: Option<string>, fromIso: IsoReader): (r: Option<string>)
    ensures r.Some? <==> Truthy(value) && fromIso(value.value).Some?
    ensures r.Some? ==> ParseClock12(r.value) == fromIso(value.value)
  {
    if Truthy(value) then
      match fromIso(value.value)
      case None => None
      case Some(c) =>
        ParseFormatClock12(c);
        Some(FormatClock12(c))
    else None
  }

  // ---------------------------------------------------------------------------
  // get_system_status
  // ---------------------------------------------------------------------------

  /** `_get_fallback_status()`. */
  function FallbackStatus(now: string): SystemStatus {
    SystemStatus("unknown", false, 0, "0s", 0.0, 0.0, now, None)
  }

  /**
   * `get_system_status()`: the fallback when there is no snapshot, else the
   * snapshot's fields with their defaults. In every answer the uptime text
   * is the uptime's rendering.
   */
  function GetSystemStatus(state: Option<State>, now: string): (r: SystemStatus)
    ensures r.uptimeFormatted == FormatUptime(r.uptimeSeconds)
    ensures NoState(state) ==> r == FallbackStatus(now)
    ensures !NoState(state) ==>
              && r.status == state.value.Script().status.GetOr("unknown")
              && r.daemonRunning == state.value.Schedule().daemonRunning.GetOr(false)
              && r.uptimeSeconds == state.value.Stats().uptimeSeconds.GetOr(0)
              && r.scriptPid == state.value.Script().pid
              && r.lastUpdated == state.value.lastUpdated.GetOr(now)
              && r.memoryUsageMb == state.value.System().memoryUsageMb.GetOr(0.0)
              && r.cpuPercent == state.value.System().cpuPercent.GetOr(0.0)
  {
    if NoState(state) then
      assert FormatUptime(0) == "0s" by {
        assert IntToString(0) == "0";
      }
      FallbackStatus(now)
    else
      var s := state.value;
      var uptimeSeconds := s.Stats().uptimeSeconds.GetOr(0);
      SystemStatus(s.Script().status.GetOr("unknown"), s.Schedule().daemonRunning.GetOr(false), uptimeSeconds,
                   FormatUptime(uptimeSeconds), s.System().memoryUsageMb.GetOr(0.0), s.System().cpuPercent.GetOr(0.0),
                   s.lastUpdated.GetOr(now), s.Script().pid)
  }

  // ---------------------------------------------------------------------------
  // get_today_summary
  // ---------------------------------------------------------------------------

  const Done := "✅"

  /** A text that opens with another character than "✅" does not mark a side as done. */
  lemma NotDone(s: string)
    requires |s| > 0 && s[0] != Done[0]
    ensures !StartsWith(s, Done)
  {
  }

  /** `_get_fallback_today_summary()`: `today` is `datetime.now().strftime('%Y-%m-%d')`. */
  function FallbackTodaySummary(today: string): TodaySummaryResponse {
    TodaySummaryResponse(today, false, false, "❌ No Data", "❌ No Data", None, None, 0, 0, None)
  }

  /** The first non-empty retry time: sign-in before sign-out. */
  function NextRetry(t: TodaySummary): (r: Option<string>)
    ensures r.Some? <==> Truthy(t.signinNextRetry) || Truthy(t.signoutNextRetry)
    ensures Truthy(t.signinNextRetry) ==> r == t.signinNextRetry
    ensures !Truthy(t.signinNextRetry) ==> r == (if Truthy(t.signoutNextRetry) then t.signoutNextRetry else None)
  {
    if Truthy(t.signinNextRetry) then t.signinNextRetry
    else if Truthy(t.signoutNextRetry) then t.signoutNextRetry
    else None
  }

  /**
   * `get_today_summary()`: the fallback when there is no snapshot or its
   * `today_summary` is empty; else the summary's counters added up (absent
   * ones count 0), its retry time and its statuses. In every answer a side
   * is completed exactly when its status text starts with "✅".
   */
  function GetTodaySummary(state: Option<State>, fromIso: IsoReader, today: string): (r: TodaySummaryResponse)
    ensures r.signinCompleted <==> StartsWith(r.signinStatus, Done)
    ensures r.signoutCompleted <==> StartsWith(r.signoutStatus, Done)
    ensures NoState(state) || !state.value.Today().NonEmpty() ==> r == FallbackTodaySummary(today)
    ensures !NoState(state) && state.value.Today().NonEmpty() ==>
              var t := state.value.Today();
              && r.totalAttempts == t.signinAttempts.GetOr(0) + t.signoutAttempts.GetOr(0)
              && r.failedAttempts == t.signinFailedAttempts.GetOr(0) + t.signoutFailedAttempts.GetOr(0)
              && r.nextRetry == NextRetry(t)
              && r.date == t.date.GetOr(today)
              && r.signinStatus == t.signinStatus.GetOr("❌ Pending")
              && r.signoutStatus == t.signoutStatus.GetOr("❌ Pending")
              && r.signinTime == FormatTime(t.signinTime, fromIso)
              && r.signoutTime == FormatTime(t.signoutTime, fromIso)
  {
    NotDone("❌ No Data");
    NotDone("❌ Pending");
    if NoState(state) then FallbackTodaySummary(today)
    else
      var t := state.value.Today();
      if !t.NonEmpty() then FallbackTodaySummary(today)
      else
        TodaySummaryResponse(
          t.date.GetOr(today),
          StartsWith(t.signinStatus.GetOr(""), Done),
          StartsWith(t.signoutStatus.GetOr(""), Done),
          t.signinStatus.GetOr("❌ Pending"),
          t.signoutStatus.GetOr("❌ Pending"),
          FormatTime(t.signinTime, fromIso),
          FormatTime(t.signoutTime, fromIso),
          t.signinAttempts.GetOr(0) + t.signoutAttempts.GetOr(0),
          t.signinFailedAttempts.GetOr(0) + t.signoutFailedAttempts.GetOr(0),
          NextRetry(t))
  }

  // ---------------------------------------------------------------------------
  // _format_activity_item
  // ---------------------------------------------------------------------------

  /** The colour the dashboard gives each day status. */
  function StatusColor(status: string): string {
    if status == "Complete" then "success" else if status == "Partial" then "warning" else "danger"
  }

  /**
   * `_format_activity_item(activity)`: the day's status from its two
   * completions, its times in 12-hour form, its weekday, its attempts added
   * up and whether either side recorded an error.
   */
  function FormatActivityItem(a: Activity, fromIso: IsoReader): (r: ActivityListItem)
    ensures var signin := a.signinCompleted.GetOr(false);
            var signout := a.signoutCompleted.GetOr(false);
            && (r.status == "Complete" <==> signin && signout)
            && (r.status == "Partial" <==> signin != signout)
            && (r.status == "Failed" <==> !signin && !signout)
            && r.signinCompleted == signin && r.signoutCompleted == signout
    ensures r.statusColor == StatusColor(r.status)
    ensures r.date == a.date.GetOr("unknown") && (r.dayOfWeek == "Unknown" <==> StrptimeDate(r.date).None?)
    ensures r.totalAttempts == a.signinAttempts.GetOr(0) + a.signoutAttempts.GetOr(0)
    ensures r.hasErrors <==> Truthy(a.signinLastError) || Truthy(a.signoutLastError)
    ensures r.signinTimeFormatted == FormatTime(a.signinTime, fromIso)
    ensures r.signoutTimeFormatted == FormatTime(a.signoutTime, fromIso)
  {
    var date := a.date.GetOr("unknown");
    var signin := a.signinCompleted.GetOr(false);
    var signout := a.signoutCompleted.GetOr(false);
    var status := if signin && signout then "Complete" else if signin || signout then "Partial" else "Failed";
    ActivityListItem(
      date, DayOfWeek(date), signin, signout,
      FormatTime(a.signinTime, fromIso), FormatTime(a.signoutTime, fromIso),
      status, StatusColor(status),
      a.signinAttempts.GetOr(0) + a.signoutAttempts.GetOr(0),
      Truthy(a.signinLastError) || Truthy(a.signoutLastError))
  }

  // ---------------------------------------------------------------------------
  // get_recent_activities
  // ---------------------------------------------------------------------------

  /** `get_activity_by_date(date)` is truthy: the day's file was read and is not `{}`. */
  predicate Present(records: map<string, Activity>, d: string) {
    d in records && records[d].NonEmpty()
  }

  /** The list items of the dates whose record is present, in order. */
  function ItemsOf(dates: seq<string>, records: map<string, Activity>, fromIso: IsoReader): seq<ActivityListItem>
    decreases |dates|
  {
    if dates == [] then []
    else
      var d := dates[|dates| - 1];
      ItemsOf(dates[..|dates| - 1], records, fromIso)
      + (if Present(records, d) then [FormatActivityItem(records[d], fromIso)] else [])
  }

  /** At most one item per date, and exactly one when every record is present. */
  lemma {:induction false} ItemsOfCount(dates: seq<string>, records: map<string, Activity>, fromIso: IsoReader)
    ensures |ItemsOf(dates, records, fromIso)| <= |dates|
    ensures (forall i :: 0 <= i < |dates| ==> Present(records, dates[i])) ==> |ItemsOf(dates, records, fromIso)| == |dates|
    decreases |dates|
  {
    if dates != [] {
      ItemsOfCount(dates[..|dates| - 1], records, fromIso);
    }
  }

  /**
   * `get_recent_activities(limit)`: the list items of the first `limit`
   * dates, newest first, that have a record.
   */
  method GetRecentActivities(names: seq<string>, records: map<string, Activity>, limit: int, fromIso: IsoReader)
    returns (items: seq<ActivityListItem>)
    ensures items == ItemsOf(PyPrefix(SortBy(DatesOf(names), DateKey, true), limit), records, fromIso)
  {
    var activityDates := ListActivityFiles(names);
    var recent := PyPrefix(activityDates, limit);
    items := [];
    for i := 0 to |recent|
      invariant items == ItemsOf(recent[..i], records, fromIso)
    {
      assert recent[..i + 1][..i] == recent[..i];
      var date := recent[i];
      if date in records && records[date].NonEmpty() {
        items := items + [FormatActivityItem(records[date], fromIso)];
      }
    }
    assert recent[..|recent|] == recent;
  }

  // ---------------------------------------------------------------------------
  // _calculate_average_time
  // ---------------------------------------------------------------------------

  /** Minutes since midnight. */
  function MinuteOfDay(c: Clock): (m: nat)
    ensures m <= 1439
  {
    60 * c.hour + c.minute
  }

  /** All times read. */
  predicate AllRead(times: seq<string>, fromIso: IsoReader) {
    forall i :: 0 <= i < |times| ==> fromIso(times[i]).Some?
  }

  /** The sum of the minutes of the times, None as soon as one time does not read. */
  function SumMinutes(times: seq<string>, fromIso: IsoReader): (r: Option<nat>)
    decreases |times|
  {
    if times == [] then Some(0)
    else
      match SumMinutes(times[..|times| - 1], fromIso)
      case None => None
      case Some(s) =>
        match fromIso(times[|times| - 1])
        case None => None
        case Some(c) => Some(s + MinuteOfDay(c))
  }

  /** The sum exists exactly when every time reads, and stays below a day's minutes per time. */
  lemma {:induction false} SumMinutesDefined(times: seq<string>, fromIso: IsoReader)
    ensures SumMinutes(times, fromIso).Some? <==> AllRead(times, fromIso)
    ensures SumMinutes(times, fromIso).Some? ==> SumMinutes(times, fromIso).value <= 1439 * |times|
    decreases |times|
  {
    if times != [] {
      var init := times[..|times| - 1];
      SumMinutesDefined(init, fromIso);
      forall i | 0 <= i < |init| ensures init[i] == times[i] {
      }
    }
  }

  /** A zero-padded "HH:MM" text with an hour below 24 and a minute below 60. */
  predicate ClockShaped(r: string) {
    && |r| == 5 && r[2] == ':' && AllDigits(r[..2]) && AllDigits(r[3..])
    && DigitsValue(r[..2]) < 24 && DigitsValue(r[3..]) < 60
  }

  /** The minute of the day an "HH:MM" text names. */
  function ClockMinutes(r: string): nat
    requires ClockShaped(r)
  {
    60 * DigitsValue(r[..2]) + DigitsValue(r[3..])
  }

  /** "HH:MM" of a minute of the day. */
  function ClockText(minutes: nat): (r: string)
    requires minutes < 1440
    ensures ClockShaped(r) && ClockMinutes(r) == minutes
  {
    var r := Pad2(minutes / 60) + ":" + Pad2(minutes % 60);
    assert r[..2] == Pad2(minutes / 60) && r[3..] == Pad2(minutes % 60);
    r
  }

  /**
   * `_calculate_average_time(times)`: None for no times or a time that does
   * not read; else "HH:MM" of the whole minutes of the mean minute of the
   * day (the mean of values below 1440 is below 1440).
   */
  function AverageTime(times: seq<string>, fromIso: IsoReader): (r: Option<string>)
    ensures r.Some? <==> times != [] && AllRead(times, fromIso)
    ensures r.Some? ==> ClockShaped(r.value) && MeanOf(times, fromIso, r.value)
  {
    SumMinutesDefined(times, fromIso);
    if times == [] then None
    else
      match SumMinutes(times, fromIso)
      case None => None
      case Some(total) =>
        var m := total / |times|;
        MeanBelowDay(total, |times|);
        var text := ClockText(m);
        assert MeanOf(times, fromIso, text);
        Some(text)
  }

  /** `text` names the whole minutes of the mean minute of the day of `times`. */
  predicate MeanOf(times: seq<string>, fromIso: IsoReader, text: string)
    requires ClockShaped(text)
  {
    times != [] && SumMinutes(times, fromIso).Some? && ClockMinutes(text) == SumMinutes(times, fromIso).value / |times|
  }

  lemma MeanBelowDay(total: nat, n: nat)
    requires n > 0 && total <= 1439 * n
    ensures total / n <= 1439
  {
    var q := total / n;
    assert q * n <= total;
    MulCancel(q, 1439, n);
  }

  lemma MulCancel(a: nat, b: nat, n: nat)
    requires n > 0 && a * n <= b * n
    ensures a <= b
  {
    if a > b {
      MulAtLeast(a - b, n);
    }
  }

  lemma MulAtLeast(d: int, n: nat)
    requires d >= 1
    ensures d * n >= n
  {
  }

  lemma MulAtMost(d: int, n: nat)
    requires d <= -1
    ensures d * n <= 0 - (n as int)
  {
  }

  /** The average of times that all read as one time of day is that time. */
  lemma {:induction false} AverageOfSameTime(times: seq<string>, fromIso: IsoReader, c: Clock)
    requires times != [] && forall i :: 0 <= i < |times| ==> fromIso(times[i]) == Some(c)
    ensures AverageTime(times, fromIso) == Some(ClockText(MinuteOfDay(c)))
  {
    SumOfSameTime(times, fromIso, c);
    MulDiv(MinuteOfDay(c), |times|);
  }

  lemma MulDiv(x: nat, n: nat)
    requires n > 0
    ensures (x * n) / n == x
  {
    var d := x - (x * n) / n;
    assert d * n == (x * n) % n;
    if d >= 1 {
      MulAtLeast(d, n);
    } else if d <= -1 {
      MulAtMost(d, n);
    }
  }

  lemma {:induction false} SumOfSameTime(times: seq<string>, fromIso: IsoReader, c: Clock)
    requires forall i :: 0 <= i < |times| ==> fromIso(times[i]) == Some(c)
    ensures SumMinutes(times, fromIso) == Some(MinuteOfDay(c) * |times|)
    decreases |times|
  {
    if times != [] {
      var init := times[..|times| - 1];
      forall i | 0 <= i < |init| ensures fromIso(init[i]) == Some(c) {
        assert init[i] == times[i];
      }
      SumOfSameTime(init, fromIso, c);
      assert times == init + [times[|times| - 1]];
      MulSucc(MinuteOfDay(c), |init|);
    }
  }

  lemma MulSucc(x: nat, n: nat)
    ensures x * n + x == x * (n + 1)
  {
  }

  // ---------------------------------------------------------------------------
  // get_quick_stats
  // ---------------------------------------------------------------------------

  /** A day counts as successful when its record is present and both sides completed. */
  predicate DaySuccessful(records: map<string, Activity>, d: string) {
    Present(records, d) && records[d].FullyCompleted()
  }

  /** The number of successful days among the dates. */
  function SuccessfulDays(dates: seq<string>, records: map<string, Activity>): (n: nat)
    decreases |dates|
  {
    if dates == [] then 0
    else SuccessfulDays(dates[..|dates| - 1], records) + (if DaySuccessful(records, dates[|dates| - 1]) then 1 else 0)
  }

  /** The length of the longest run of successful days at the front of the (newest-first) dates. */
  function Streak(dates: seq<string>, records: map<string, Activity>): (n: nat)
    ensures n <= |dates|
    ensures forall j :: 0 <= j < n ==> DaySuccessful(records, dates[j])
    ensures n < |dates| ==> !DaySuccessful(records, dates[n])
    decreases |dates|
  {
    if dates != [] && DaySuccessful(records, dates[0]) then
      var n := 1 + Streak(dates[1..], records);
      assert forall j :: 1 <= j < n ==> dates[j] == dates[1..][j - 1];
      n
    else 0
  }

  /** The times recorded for one side of the present days, in order. */
  function TimesOf(dates: seq<string>, records: map<string, Activity>, signin: bool): seq<string>
    decreases |dates|
  {
    if dates == [] then []
    else TimesOf(dates[..|dates| - 1], records, signin) + DayTimes(records, dates[|dates| - 1], signin)
  }

  /** The non-empty time of one side of a present day, as a list of at most one. */
  function DayTimes(records: map<string, Activity>, d: string, signin: bool): seq<string> {
    var t := if Present(records, d) then (if signin then records[d].signinTime else records[d].signoutTime) else None;
    if Truthy(t) then [t.value] else []
  }

  /** The quick statistics of a newest-first list of dates. */
  function QuickStatsOf(dates: seq<string>, records: map<string, Activity>, fromIso: IsoReader): QuickStats {
    if |dates| == 0 then ZeroQuickStats
    else
      QuickStats(|dates|, (SuccessfulDays(dates, records) as real) / (|dates| as real) * 100.0,
                 Streak(dates, records), SuccessfulDays(PyPrefix(dates, 7), records),
                 AverageTime(TimesOf(dates, records, true), fromIso), AverageTime(TimesOf(dates, records, false), fromIso))
  }

  /** The run at the front grows by one date exactly when it covered all dates before and that date succeeded. */
  lemma StreakSnoc(dates: seq<string>, records: map<string, Activity>, d: string)
    ensures Streak(dates + [d], records)
            == if Streak(dates, records) == |dates| && DaySuccessful(records, d) then |dates| + 1 else Streak(dates, records)
  {
    var s := dates + [d];
    var n := Streak(dates, records);
    var m := Streak(s, records);
    assert forall j :: 0 <= j < |dates| ==> s[j] == dates[j];
    assert s[|dates|] == d;
    if n < |dates| {
      assert !DaySuccessful(records, s[n]);
    }
  }

  lemma {:induction false} StreakAtMostSuccessful(dates: seq<string>, records: map<string, Activity>)
    ensures Streak(dates, records) <= SuccessfulDays(dates, records)
    decreases |dates|
  {
    if dates != [] {
      var init := dates[..|dates| - 1];
      StreakAtMostSuccessful(init, records);
      assert init + [dates[|dates| - 1]] == dates;
      StreakSnoc(init, records, dates[|dates| - 1]);
    }
  }

  lemma {:induction false} SuccessfulAtMostDays(dates: seq<string>, records: map<string, Activity>)
    ensures SuccessfulDays(dates, records) <= |dates|
    decreases |dates|
  {
    if dates != [] {
      SuccessfulAtMostDays(dates[..|dates| - 1], records);
    }
  }

  lemma {:induction false} SuccessfulPrefix(dates: seq<string>, records: map<string, Activity>, k: nat)
    requires k <= |dates|
    ensures SuccessfulDays(dates[..k], records) <= SuccessfulDays(dates, records)
    decreases |dates|
  {
    if k == |dates| {
      assert dates[..k] == dates;
    } else {
      var init := dates[..|dates| - 1];
      assert dates[..k] == init[..k];
      SuccessfulPrefix(init, records, k);
      assert SuccessfulDays(init, records) <= SuccessfulDays(dates, records);
    }
  }

  /**
   * The statistics' bounds: the rate is a percentage, the successful days of
   * the last seven are at most seven and at most all successful days, and
   * the current streak is at most the successful days.
   */
  lemma QuickStatsBounds(dates: seq<string>, records: map<string, Activity>, fromIso: IsoReader)
    ensures var q := QuickStatsOf(dates, records, fromIso);
            && q.totalDaysTracked == |dates|
            && 0.0 <= q.successRate <= 100.0
            && 0 <= q.last7DaysSuccess <= 7 && q.last7DaysSuccess <= SuccessfulDays(dates, records)
            && 0 <= q.currentStreak <= SuccessfulDays(dates, records) <= |dates|
  {
    SuccessfulAtMostDays(dates, records);
    StreakAtMostSuccessful(dates, records);
    var p := PyPrefix(dates, 7);
    SuccessfulAtMostDays(p, records);
    SuccessfulPrefix(dates, records, |p|);
    if |dates| > 0 {
      RateBounds(SuccessfulDays(dates, records), |dates|);
    }
  }

  lemma RateBounds(s: nat, n: nat)
    requires 0 < n && s <= n
    ensures 0.0 <= (s as real) / (n as real) * 100.0 <= 100.0
  {
    assert (s as real) / (n as real) <= 1.0;
  }

  /** One more date: the step of every running total in `get_quick_stats`. */
  lemma QuickStep(dates: seq<string>, i: nat, records: map<string, Activity>)
    requires i < |dates|
    ensures var p := dates[..i]; var q := dates[..i + 1]; var d := dates[i];
            && SuccessfulDays(q, records) == SuccessfulDays(p, records) + (if DaySuccessful(records, d) then 1 else 0)
            && Streak(q, records)
               == (if Streak(p, records) == i && DaySuccessful(records, d) then i + 1 else Streak(p, records))
            && TimesOf(q, records, true) == TimesOf(p, records, true) + DayTimes(records, d, true)
            && TimesOf(q, records, false) == TimesOf(p, records, false) + DayTimes(records, d, false)
  {
    assert dates[..i + 1][..i] == dates[..i];
    assert dates[..i] + [dates[i]] == dates[..i + 1];
    StreakSnoc(dates[..i], records, dates[i]);
  }

  /** The running totals of `get_quick_stats()`. */
  datatype Tally = Tally(successfulDays: nat, currentStreak: nat, last7DaysSuccess: nat,
                         signinTimes: seq<string>, signoutTimes: seq<string>)

  /** The running totals after the given newest-first dates. */
  function TallyOf(dates: seq<string>, records: map<string, Activity>): Tally {
    Tally(SuccessfulDays(dates, records), Streak(dates, records),
          SuccessfulDays(dates[..if |dates| < 7 then |dates| else 7], records),
          TimesOf(dates, records, true), TimesOf(dates, records, false))
  }

  /**
   * The body of the loop of `get_quick_stats()` for the `i`-th date, whose
   * record `get_activity_by_date` returned as `data`: it takes the totals
   * of the dates before it to the totals including it.
   */
  method CountDay(dates: seq<string>, records: map<string, Activity>, i: nat, tally: Tally, data: Option<Activity>)
    returns (next: Tally)
    requires i < |dates| && tally == TallyOf(dates[..i], records)
    requires data == if dates[i] in records then Some(records[dates[i]]) else None
    ensures next == TallyOf(dates[..i + 1], records)
  {
    QuickStep(dates, i, records);
    if i < 7 {
      assert dates[..i][..i] == dates[..i] && dates[..i + 1][..i + 1] == dates[..i + 1];
    } else {
      assert dates[..i][..7] == dates[..7] && dates[..i + 1][..7] == dates[..7];
    }
    var Tally(successfulDays, currentStreak, last7DaysSuccess, signinTimes, signoutTimes) := tally;
    if data.Some? && data.value.NonEmpty() {
      var activity := data.value;
      var signinComplete := activity.signinCompleted.GetOr(false);
      var signoutComplete := activity.signoutCompleted.GetOr(false);
      if signinComplete && signoutComplete {
        successfulDays := successfulDays + 1;
        if i < |dates| && currentStreak == i {
          currentStreak := currentStreak + 1;
        }
        if i < 7 {
          last7DaysSuccess := last7DaysSuccess + 1;
        }
      }
      if Truthy(activity.signinTime) {
        signinTimes := signinTimes + [activity.signinTime.value];
      }
      if Truthy(activity.signoutTime) {
        signoutTimes := signoutTimes + [activity.signoutTime.value];
      }
    }
    next := Tally(successfulDays, currentStreak, last7DaysSuccess, signinTimes, signoutTimes);
    var q := dates[..i + 1];
    assert successfulDays == SuccessfulDays(q, records);
    assert currentStreak == Streak(q, records);
    assert last7DaysSuccess == SuccessfulDays(q[..if |q| < 7 then |q| else 7], records);
    assert signinTimes == TimesOf(q, records, true);
    assert signoutTimes == TimesOf(q, records, false);
  }

  /**
   * `get_quick_stats()`: one pass over the newest-first dates counting the
   * successful days, the run of successful days at the front, and those
   * among the first seven, and collecting the times of the present days.
   */
  method GetQuickStats(names: seq<string>, records: map<string, Activity>, fromIso: IsoReader)
    returns (stats: QuickStats)
    ensures stats == QuickStatsOf(SortBy(DatesOf(names), DateKey, true), records, fromIso)
  {
    var activityDates := ListActivityFiles(names);
    var totalDays := |activityDates|;
    if totalDays == 0 {
      return ZeroQuickStats;
    }
    var tally := Tally(0, 0, 0, [], []);
    for i := 0 to |activityDates|
      invariant tally == TallyOf(activityDates[..i], records)
    {
      var date := activityDates[i];
      var activityData := if date in records then Some(records[date]) else None;
      tally := CountDay(activityDates, records, i, tally, activityData);
    }
    QuickStatsFinal(activityDates, records, fromIso);
    var successRate := (tally.successfulDays as real) / (totalDays as real) * 100.0;
    stats := QuickStats(totalDays, successRate, tally.currentStreak, tally.last7DaysSuccess,
                        AverageTime(tally.signinTimes, fromIso), AverageTime(tally.signoutTimes, fromIso));
  }

  /** The quick statistics of at least one date, in terms of the running totals after the last date. */
  lemma QuickStatsFinal(dates: seq<string>, records: map<string, Activity>, fromIso: IsoReader)
    requires |dates| > 0
    ensures var t := TallyOf(dates[..|dates|], records);
            QuickStatsOf(dates, records, fromIso)
            == QuickStats(|dates|, (t.successfulDays as real) / (|dates| as real) * 100.0, t.currentStreak,
                          t.last7DaysSuccess, AverageTime(t.signinTimes, fromIso), AverageTime(t.signoutTimes, fromIso))
  {
    assert dates[..|dates|] == dates;
  }

  // ---------------------------------------------------------------------------
  // get_system_alerts
  // ---------------------------------------------------------------------------

  // The alert messages, named so that proofs about the alerts need not spell them out.
  const NoStateText := "Cannot read system state file. Check if GreytHR service is running."
  const NotRunningText := "GreytHR attendance automation service is not running."
  const RetryText := "Attendance action will be retried automatically."

  function NoStateAlert(now: string): Alert {
    Alert("warning", "No State Data", NoStateText, now, None, None)
  }

  function ErrorAlert(e: ErrorInfo, now: string): Alert
    requires e.lastError.Some?
  {
    Alert("error", "System Error", "Last error: " + e.lastError.value, e.lastErrorTime.GetOr(now), None, None)
  }

  function NotRunningAlert(now: string): Alert {
    Alert("warning", "Service Not Running", NotRunningText, now,
          Some("/api/service/start"), Some("Start Service"))
  }

  function RetryAlert(now: string): Alert {
    Alert("info", "Retry Scheduled", RetryText, now, None, None)
  }

  /** The snapshot records an error. */
  predicate HasError(s: State) {
    Truthy(s.Errors().lastError)
  }

  /** The snapshot says the daemon runs. */
  predicate DaemonRunning(s: State) {
    s.Schedule().daemonRunning.GetOr(false)
  }

  /** The snapshot schedules a retry of either side. */
  predicate RetryPending(s: State) {
    Truthy(s.Today().signinNextRetry) || Truthy(s.Today().signoutNextRetry)
  }

  /** The alerts of a snapshot, in the order they are raised. */
  function SystemAlerts(state: Option<State>, now: string): seq<Alert> {
    if NoState(state) then [NoStateAlert(now)]
    else
      var s := state.value;
      (if HasError(s) then [ErrorAlert(s.Errors(), now)] else [])
      + (if !DaemonRunning(s) then [NotRunningAlert(now)] else [])
      + (if RetryPending(s) then [RetryAlert(now)] else [])
  }

  /** `get_system_alerts()`: the alerts appended one by one. */
  method GetSystemAlerts(state: Option<State>, now: string) returns (alerts: seq<Alert>)
    ensures alerts == SystemAlerts(state, now)
  {
    alerts := [];
    if NoState(state) {
      alerts := alerts + [NoStateAlert(now)];
      return;
    }
    var s := state.value;
    ghost var raised := SystemAlerts(state, now);
    ghost var a := if HasError(s) then [ErrorAlert(s.Errors(), now)] else [];
    ghost var b := if !DaemonRunning(s) then [NotRunningAlert(now)] else [];
    ghost var c := if RetryPending(s) then [RetryAlert(now)] else [];
    assert raised == a + b + c;
    var errors := s.Errors();
    if Truthy(errors.lastError) {
      alerts := alerts + [ErrorAlert(errors, now)];
    }
    assert alerts == a;
    var daemonRunning := s.Schedule().daemonRunning.GetOr(false);
    if !daemonRunning {
      alerts := alerts + [NotRunningAlert(now)];
    }
    assert alerts == a + b;
    var todaySummary := s.Today();
    if Truthy(todaySummary.signinNextRetry) || Truthy(todaySummary.signoutNextRetry) {
      alerts := alerts + [RetryAlert(now)];
    }
    assert alerts == a + b + c;
  }

  /** An alert with the given title is among the alerts. */
  predicate AlertRaised(alerts: seq<Alert>, title: string) {
    exists i :: 0 <= i < |alerts| && alerts[i].title == title
  }

  /**
   * Without a snapshot there is exactly one alert, a warning. Otherwise at
   * most three alerts: the error alert exactly when an error is recorded,
   * and then first; the service alert exactly when the daemon does not run;
   * the retry alert exactly when a retry is scheduled, and then last.
   */
  lemma SystemAlertsProperties(state: Option<State>, now: string)
    ensures var alerts := SystemAlerts(state, now);
            && (NoState(state) ==> |alerts| == 1 && alerts[0].kind == "warning")
            && (!NoState(state) ==>
                  && |alerts| <= 3
                  && (AlertRaised(alerts, "System Error") <==> HasError(state.value))
                  && (AlertRaised(alerts, "Service Not Running") <==> !DaemonRunning(state.value))
                  && (AlertRaised(alerts, "Retry Scheduled") <==> RetryPending(state.value))
                  && (HasError(state.value) ==> alerts[0].kind == "error")
                  && (RetryPending(state.value) ==> alerts[|alerts| - 1].title == "Retry Scheduled"))
  {
    if !NoState(state) {
      var s := state.value;
      var alerts := SystemAlerts(state, now);
      var a := if HasError(s) then [ErrorAlert(s.Errors(), now)] else [];
      var b := if !DaemonRunning(s) then [NotRunningAlert(now)] else [];
      var c := if RetryPending(s) then [RetryAlert(now)] else [];
      assert alerts == a + b + c;
      if HasError(s) { assert alerts[0].title == "System Error"; }
      if !DaemonRunning(s) { assert alerts[|a|].title == "Service Not Running"; }
      if RetryPending(s) { assert alerts[|a| + |b|].title == "Retry Scheduled"; }
    }
  }
}
