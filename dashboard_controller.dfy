/**
 * The dashboard controller: the business rules it applies to what the
 * dashboard repository returns (clamping the status gauges and the quick
 * statistics, ordering the recent days, ranking and capping the alerts),
 * and the fallback it substitutes for a component that is missing or
 * raised.
 *
 * The repository's answer for each component is an `Outcome`: the value it
 * returned, or the message of the exception it raised. The objects the
 * source updates in place are fresh response objects nobody else holds, so
 * they are modelled as values.
 */
module DashboardController {
  import opened Common
  import opened Sorting
  import opened Models
  import opened Uptime
  import opened DashboardRepository

  /** What a call returned, or the message of the exception it raised. */
  datatype Outcome<T> = Done(value: T) | Failed(error: string)

  /** `DashboardOverview`. */
  datatype DashboardOverview = DashboardOverview(
    systemStatus: SystemStatus,
    todaySummary: TodaySummaryResponse,
    recentActivities: seq<ActivityListItem>,
    quickStats: QuickStats,
    alerts: seq<Alert>)

  // ---------------------------------------------------------------------------
  // _validate_system_status
  // ---------------------------------------------------------------------------

  /**
   * `_validate_system_status(status)`: a negative uptime becomes 0 with the
   * text "0s", a negative memory figure 0.0, and a cpu figure outside
   * [0, 100] 0.0 (it is not clamped to 100); values in range and all other
   * fields are kept.
   */
  function ValidateSystemStatus(status: SystemStatus): (r: SystemStatus)
    ensures r.uptimeSeconds >= 0 && r.memoryUsageMb >= 0.0 && 0.0 <= r.cpuPercent <= 100.0
    ensures status.uptimeSeconds >= 0 ==>
              r.uptimeSeconds == status.uptimeSeconds && r.uptimeFormatted == status.uptimeFormatted
    ensures status.uptimeSeconds < 0 ==> r.uptimeSeconds == 0 && r.uptimeFormatted == "0s"
    ensures r.memoryUsageMb == if status.memoryUsageMb < 0.0 then 0.0 else status.memoryUsageMb
    ensures r.cpuPercent == if 0.0 <= status.cpuPercent <= 100.0 then status.cpuPercent else 0.0
    ensures r.status == status.status && r.daemonRunning == status.daemonRunning
    ensures r.lastUpdated == status.lastUpdated && r.scriptPid == status.scriptPid
  {
    var status := if status.uptimeSeconds < 0 then status.(uptimeSeconds := 0, uptimeFormatted := "0s") else status;
    var status := if status.memoryUsageMb < 0.0 then status.(memoryUsageMb := 0.0) else status;
    var status := if status.cpuPercent < 0.0 || status.cpuPercent > 100.0 then status.(cpuPercent := 0.0) else status;
    status
  }

  /** Validating twice is validating once. */
  lemma ValidateSystemStatusIdempotent(status: SystemStatus)
    ensures ValidateSystemStatus(ValidateSystemStatus(status)) == ValidateSystemStatus(status)
  {
  }

  /** Validation keeps the uptime text the rendering of the uptime. */
  lemma ValidateKeepsUptimeText(status: SystemStatus)
    requires status.uptimeFormatted == FormatUptime(status.uptimeSeconds)
    ensures var r := ValidateSystemStatus(status); r.uptimeFormatted == FormatUptime(r.uptimeSeconds)
  {
    assert IntToString(0) == "0";
  }

  // ---------------------------------------------------------------------------
  // _enhance_quick_stats
  // ---------------------------------------------------------------------------

  /**
   * `_enhance_quick_stats(stats)`: the success rate clamped into [0, 100],
   * a negative streak raised to 0 and the last-seven-days count clamped
   * into [0, 7]; values in range and all other fields are kept.
   */
  function EnhanceQuickStats(stats: QuickStats): (r: QuickStats)
    ensures 0.0 <= r.successRate <= 100.0 && r.currentStreak >= 0 && 0 <= r.last7DaysSuccess <= 7
    ensures r.successRate == if stats.successRate < 0.0 then 0.0 else if stats.successRate > 100.0 then 100.0 else stats.successRate
    ensures r.currentStreak == if stats.currentStreak < 0 then 0 else stats.currentStreak
    ensures r.last7DaysSuccess == if stats.last7DaysSuccess < 0 then 0 else if stats.last7DaysSuccess > 7 then 7 else stats.last7DaysSuccess
    ensures r.totalDaysTracked == stats.totalDaysTracked
    ensures r.avgSigninTime == stats.avgSigninTime && r.avgSignoutTime == stats.avgSignoutTime
  {
    var stats := if stats.successRate < 0.0 then stats.(successRate := 0.0)
                 else if stats.successRate > 100.0 then stats.(successRate := 100.0)
                 else stats;
    var stats := if stats.currentStreak < 0 then stats.(currentStreak := 0) else stats;
    var stats := if stats.last7DaysSuccess < 0 then stats.(last7DaysSuccess := 0)
                 else if stats.last7DaysSuccess > 7 then stats.(last7DaysSuccess := 7)
                 else stats;
    stats
  }

  /** Statistics already in range are returned unchanged. */
  lemma EnhanceQuickStatsInRange(stats: QuickStats)
    requires 0.0 <= stats.successRate <= 100.0 && stats.currentStreak >= 0 && 0 <= stats.last7DaysSuccess <= 7
    ensures EnhanceQuickStats(stats) == stats
  {
  }

  /** The clamps never fire on the statistics the repository computes from the day records. */
  lemma EnhanceRepositoryStats(dates: seq<string>, records: map<string, Activity>, fromIso: IsoReader)
    ensures EnhanceQuickStats(QuickStatsOf(dates, records, fromIso)) == QuickStatsOf(dates, records, fromIso)
  {
    QuickStatsBounds(dates, records, fromIso);
    EnhanceQuickStatsInRange(QuickStatsOf(dates, records, fromIso));
  }

  // ---------------------------------------------------------------------------
  // _enhance_today_summary, _filter_recent_activities
  // ---------------------------------------------------------------------------

  /** `_enhance_today_summary(summary)`: its only branch does nothing, so the summary comes back as it was. */
  function EnhanceTodaySummary(summary: TodaySummaryResponse): (r: TodaySummaryResponse)
    ensures r == summary
  {
    summary
  }

  function ItemDate(item: ActivityListItem): string {
    item.date
  }

  /** `_filter_recent_activities(activities)`: `activities.sort(key=date, reverse=True)`. */
  function FilterRecentActivities(activities: seq<ActivityListItem>): seq<ActivityListItem> {
    SortBy(activities, ItemDate, true)
  }

  /**
   * The recent days come back as a permutation of the input, newest date
   * first, with days of the same date in their input order.
   */
  lemma FilterRecentActivitiesProperties(activities: seq<ActivityListItem>)
    ensures var r := FilterRecentActivities(activities);
            && multiset(r) == multiset(activities)
            && (forall i, j :: 0 <= i < j < |r| ==> !StrLess(r[i].date, r[j].date))
            && (forall d :: Filter(r, ItemDate, d) == Filter(activities, ItemDate, d))
  {
    var r := FilterRecentActivities(activities);
    SortByPermutation(activities, ItemDate, true);
    SortByOrdered(activities, ItemDate, true);
    forall d ensures Filter(r, ItemDate, d) == Filter(activities, ItemDate, d) {
      SortByStable(activities, ItemDate, true, d);
    }
  }

  // ---------------------------------------------------------------------------
  // _prioritize_alerts
  // ---------------------------------------------------------------------------

  /** `priority_map.get(type, 5)`. */
  function Priority(kind: string): (p: nat)
    ensures 1 <= p <= 5
    ensures p == 1 <==> kind == "error"
  {
    if kind == "error" then 1
    else if kind == "warning" then 2
    else if kind == "info" then 3
    else if kind == "success" then 4
    else 5
  }

  /** The sort key `(priority, timestamp)`, written as the priority digit followed by the timestamp. */
  function AlertKey(a: Alert): string {
    [DigitChar(Priority(a.kind))] + a.timestamp
  }

  /** The written key orders alerts exactly as Python orders the tuples `(priority, timestamp)`. */
  lemma AlertKeyOrder(a: Alert, b: Alert)
    ensures StrLess(AlertKey(a), AlertKey(b))
            <==> Priority(a.kind) < Priority(b.kind)
                 || (Priority(a.kind) == Priority(b.kind) && StrLess(a.timestamp, b.timestamp))
  {
    var ka := AlertKey(a);
    var kb := AlertKey(b);
    assert ka[1..] == a.timestamp && kb[1..] == b.timestamp;
  }

  /**
   * `_prioritize_alerts(alerts)`: the alerts stably sorted by priority
   * (error, warning, info, success, anything else) and then timestamp, and
   * at most the first five of them.
   */
  function PrioritizeAlerts(alerts: seq<Alert>): (r: seq<Alert>)
    ensures |r| <= 5
  {
    PyPrefix(SortBy(alerts, AlertKey, false), 5)
  }

  /**
   * The kept alerts are the first of the ranked alerts, in rank order; all
   * alerts are kept when there are at most five; and when any alert is an
   * error the first kept alert is an error.
   */
  lemma PrioritizeAlertsProperties(alerts: seq<Alert>)
    ensures var sorted := SortBy(alerts, AlertKey, false);
            var r := PrioritizeAlerts(alerts);
            && multiset(sorted) == multiset(alerts)
            && r == sorted[..|r|]
            && |r| == (if |alerts| < 5 then |alerts| else 5)
            && (forall i, j :: 0 <= i < j < |r| ==> !StrLess(AlertKey(r[j]), AlertKey(r[i])))
            && ((exists k :: 0 <= k < |alerts| && alerts[k].kind == "error") ==> r[0].kind == "error")
  {
    var sorted := SortBy(alerts, AlertKey, false);
    SortByPermutation(alerts, AlertKey, false);
    SortByOrdered(alerts, AlertKey, false);
    if k :| 0 <= k < |alerts| && alerts[k].kind == "error" {
      assert alerts[k] in multiset(sorted);
      var m :| 0 <= m < |sorted| && sorted[m] == alerts[k];
      ErrorRanksFirst(sorted, m);
    }
  }

  /** In ranked alerts, an error anywhere means an error first. */
  lemma ErrorRanksFirst(sorted: seq<Alert>, m: nat)
    requires Ordered(sorted, AlertKey, false)
    requires m < |sorted| && sorted[m].kind == "error"
    ensures sorted[0].kind == "error"
  {
    if m > 0 {
      assert !StrLess(AlertKey(sorted[m]), AlertKey(sorted[0]));
      AlertKeyOrder(sorted[m], sorted[0]);
    }
  }

  /** The repository raises at most three alerts, so ranking them drops none. */
  lemma PrioritizeSystemAlerts(state: Option<State>, now: string)
    ensures multiset(PrioritizeAlerts(SystemAlerts(state, now))) == multiset(SystemAlerts(state, now))
  {
    var alerts := SystemAlerts(state, now);
    SystemAlertsProperties(state, now);
    PrioritizeAlertsProperties(alerts);
    var sorted := SortBy(alerts, AlertKey, false);
    assert PrioritizeAlerts(alerts) == sorted;
  }

  // ---------------------------------------------------------------------------
  // The get_* wrappers
  // ---------------------------------------------------------------------------

  /**
   * `get_system_status()`: the repository's fallback when the repository
   * returned None or raised, else the validated status.
   */
  function ControllerSystemStatus(outcome: Outcome<Option<SystemStatus>>, now: string): (r: SystemStatus)
    ensures outcome.Failed? || outcome.value.None? ==> r == FallbackStatus(now)
    ensures outcome.Done? && outcome.value.Some? ==> r == ValidateSystemStatus(outcome.value.value)
  {
    match outcome
    case Failed(_) => FallbackStatus(now)
    case Done(None) => FallbackStatus(now)
    case Done(Some(status)) => ValidateSystemStatus(status)
  }

  /** The status the dashboard shows from a snapshot always has its uptime text matching its uptime. */
  lemma ControllerStatusUptimeText(state: Option<State>, now: string)
    ensures var r := ControllerSystemStatus(Done(Some(GetSystemStatus(state, now))), now);
            r.uptimeFormatted == FormatUptime(r.uptimeSeconds)
  {
    ValidateKeepsUptimeText(GetSystemStatus(state, now));
  }

  /** `get_today_summary()`: the repository's fallback when it returned None or raised. */
  function ControllerTodaySummary(outcome: Outcome<Option<TodaySummaryResponse>>, today: string): (r: TodaySummaryResponse)
    ensures outcome.Failed? || outcome.value.None? ==> r == FallbackTodaySummary(today)
    ensures outcome.Done? && outcome.value.Some? ==> r == outcome.value.value
  {
    match outcome
    case Failed(_) => FallbackTodaySummary(today)
    case Done(None) => FallbackTodaySummary(today)
    case Done(Some(summary)) => EnhanceTodaySummary(summary)
  }

  /** `get_recent_activities()`: no days when the repository raised, else the days ordered newest first. */
  function ControllerRecentActivities(outcome: Outcome<seq<ActivityListItem>>): (r: seq<ActivityListItem>)
    ensures outcome.Failed? ==> r == []
    ensures outcome.Done? ==> r == FilterRecentActivities(outcome.value)
  {
    match outcome
    case Failed(_) => []
    case Done(activities) => FilterRecentActivities(activities)
  }

  /** `get_quick_stats()`: zero statistics when the repository raised, else the clamped statistics. */
  function ControllerQuickStats(outcome: Outcome<QuickStats>): (r: QuickStats)
    ensures outcome.Failed? ==> r == ZeroQuickStats
    ensures outcome.Done? ==> r == EnhanceQuickStats(outcome.value)
  {
    match outcome
    case Failed(_) => ZeroQuickStats
    case Done(stats) => EnhanceQuickStats(stats)
  }

  /** `get_system_alerts()`: a single error alert when the repository raised, else the ranked alerts. */
  function ControllerSystemAlerts(outcome: Outcome<seq<Alert>>, now: string): (r: seq<Alert>)
    ensures |r| <= 5
    ensures outcome.Failed? ==>
              r == [Alert("error", "Alert System Error", "Failed to fetch alerts: " + outcome.error, now, None, None)]
    ensures outcome.Done? ==> r == PrioritizeAlerts(outcome.value)
  {
    match outcome
    case Failed(e) => [Alert("error", "Alert System Error", "Failed to fetch alerts: " + e, now, None, None)]
    case Done(alerts) => PrioritizeAlerts(alerts)
  }

  // ---------------------------------------------------------------------------
  // get_dashboard_overview
  // ---------------------------------------------------------------------------

  /** The overview returned when building it raised: every component at its fallback and one error alert. */
  function FailedOverview(error: string, today: string, now: string): DashboardOverview {
    DashboardOverview(FallbackStatus(now), FallbackTodaySummary(today), [], ZeroQuickStats,
                      [Alert("error", "Dashboard Error", "Failed to load dashboard: " + error, now, None, None)])
  }

  /**
   * `get_dashboard_overview()`: the five components as the controller's own
   * calls produced them, each one that raised replaced by its fallback;
   * when assembling the overview itself raised (`buildError`), the failed
   * overview.
   */
  function GetDashboardOverview(
    systemStatus: Outcome<SystemStatus>, todaySummary: Outcome<TodaySummaryResponse>,
    recentActivities: Outcome<seq<ActivityListItem>>, quickStats: Outcome<QuickStats>,
    alerts: Outcome<seq<Alert>>, buildError: Option<string>, today: string, now: string): (r: DashboardOverview)
    ensures buildError.Some? ==> r == FailedOverview(buildError.value, today, now)
    ensures buildError.None? ==>
              && r.systemStatus == (if systemStatus.Done? then systemStatus.value else FallbackStatus(now))
              && r.todaySummary == (if todaySummary.Done? then todaySummary.value else FallbackTodaySummary(today))
              && r.recentActivities == (if recentActivities.Done? then recentActivities.value else [])
              && r.quickStats == (if quickStats.Done? then quickStats.value else ZeroQuickStats)
              && r.alerts == (if alerts.Done? then alerts.value else [])
  {
    if buildError.Some? then FailedOverview(buildError.value, today, now)
    else
      var systemStatus := if systemStatus.Failed? then FallbackStatus(now) else systemStatus.value;
      var todaySummary := if todaySummary.Failed? then FallbackTodaySummary(today) else todaySummary.value;
      var recentActivities := if recentActivities.Failed? then [] else recentActivities.value;
      var quickStats := if quickStats.Failed? then ZeroQuickStats else quickStats.value;
      var alerts := if alerts.Failed? then [] else alerts.value;
      DashboardOverview(systemStatus, todaySummary, recentActivities, quickStats, alerts)
  }

  /**
   * With the controller's own calls as components, nothing is ever
   * replaced: they never raise, so the overview holds their answers, and
   * at most five alerts.
   */
  lemma OverviewOfControllerCalls(
    status: Outcome<Option<SystemStatus>>, summary: Outcome<Option<TodaySummaryResponse>>,
    activities: Outcome<seq<ActivityListItem>>, stats: Outcome<QuickStats>, alerts: Outcome<seq<Alert>>,
    today: string, now: string)
    ensures var r := GetDashboardOverview(
              Done(ControllerSystemStatus(status, now)), Done(ControllerTodaySummary(summary, today)),
              Done(ControllerRecentActivities(activities)), Done(ControllerQuickStats(stats)),
              Done(ControllerSystemAlerts(alerts, now)), None, today, now);
            && r.systemStatus.uptimeSeconds >= 0 && 0.0 <= r.systemStatus.cpuPercent <= 100.0
            && 0.0 <= r.quickStats.successRate <= 100.0 && 0 <= r.quickStats.last7DaysSuccess <= 7
            && |r.alerts| <= 5
  {
  }
}
