/**
 * The shapes of the JSON files the attendance daemon writes and of the
 * responses the web UI builds from them.
 *
 * A JSON object is a record whose fields are `Option`s: `None` is a key the
 * object does not have. `otherKeys` records whether the object has keys the
 * web UI never reads, because an object is falsy in Python only when it has
 * no keys at all.
 */
module Models {
  import opened Common

  // ---------------------------------------------------------------------------
  // current_state.json
  // ---------------------------------------------------------------------------

  /** The `script` section. */
  datatype ScriptInfo = ScriptInfo(status: Option<string>, pid: Option<int>)

  /** The `schedule` section. */
  datatype ScheduleInfo = ScheduleInfo(daemonRunning: Option<bool>, nextSignin: Option<string>, nextSignout: Option<string>)

  /** The `statistics` section. */
  datatype Statistics = Statistics(uptimeSeconds: Option<int>)

  /** The `system` section: memory in MB and cpu in percent. */
  datatype SystemInfo = SystemInfo(memoryUsageMb: Option<real>, cpuPercent: Option<real>)

  /** The `errors` section. */
  datatype ErrorInfo = ErrorInfo(lastError: Option<string>, lastErrorTime: Option<string>)

  /** The `today_summary` section. */
  datatype TodaySummary = TodaySummary(
    date: Option<string>,
    signinStatus: Option<string>,
    signoutStatus: Option<string>,
    signinTime: Option<string>,
    signoutTime: Option<string>,
    signinAttempts: Option<int>,
    signoutAttempts: Option<int>,
    signinFailedAttempts: Option<int>,
    signoutFailedAttempts: Option<int>,
    signinNextRetry: Option<string>,
    signoutNextRetry: Option<string>,
    otherKeys: bool)
  {
    /** Python truthiness of the object: it has at least one key. */
    predicate NonEmpty() {
      date.Some? || signinStatus.Some? || signoutStatus.Some? || signinTime.Some? || signoutTime.Some?
      || signinAttempts.Some? || signoutAttempts.Some? || signinFailedAttempts.Some?
      || signoutFailedAttempts.Some? || signinNextRetry.Some? || signoutNextRetry.Some? || otherKeys
    }
  }

  const NoScript := ScriptInfo(None, None)
  const NoSchedule := ScheduleInfo(None, None, None)
  const NoStatistics := Statistics(None)
  const NoSystem := SystemInfo(None, None)
  const NoErrors := ErrorInfo(None, None)
  const NoTodaySummary := TodaySummary(None, None, None, None, None, None, None, None, None, None, None, false)

  /** The daemon's status snapshot, `state/current_state.json`. */
  datatype State = State(
    script: Option<ScriptInfo>,
    schedule: Option<ScheduleInfo>,
    statistics: Option<Statistics>,
    system: Option<SystemInfo>,
    errors: Option<ErrorInfo>,
    todaySummary: Option<TodaySummary>,
    lastUpdated: Option<string>,
    otherKeys: bool)
  {
    /** Python truthiness of the object: it has at least one key. */
    predicate NonEmpty() {
      script.Some? || schedule.Some? || statistics.Some? || system.Some? || errors.Some?
      || todaySummary.Some? || lastUpdated.Some? || otherKeys
    }

    // `state_data.get('<section>', {})`: an absent section reads as an empty object.
    function Script(): ScriptInfo { script.GetOr(NoScript) }
    function Schedule(): ScheduleInfo { schedule.GetOr(NoSchedule) }
    function Stats(): Statistics { statistics.GetOr(NoStatistics) }
    function System(): SystemInfo { system.GetOr(NoSystem) }
    function Errors(): ErrorInfo { errors.GetOr(NoErrors) }
    function Today(): TodaySummary { todaySummary.GetOr(NoTodaySummary) }
  }

  /** `if not state_data`: the file was missing or unreadable, or held `{}`. */
  predicate NoState(state: Option<State>) {
    state.None? || !state.value.NonEmpty()
  }

  // ---------------------------------------------------------------------------
  // activities/attendance_YYYY-MM-DD.json
  // ---------------------------------------------------------------------------

  /** One day's attendance record. */
  datatype Activity = Activity(
    date: Option<string>,
    signinCompleted: Option<bool>,
    signoutCompleted: Option<bool>,
    signinTime: Option<string>,
    signoutTime: Option<string>,
    signinAttempts: Option<int>,
    signoutAttempts: Option<int>,
    signinLastError: Option<string>,
    signoutLastError: Option<string>,
    otherKeys: bool)
  {
    /** Python truthiness of the object: it has at least one key. */
    predicate NonEmpty() {
      date.Some? || signinCompleted.Some? || signoutCompleted.Some? || signinTime.Some? || signoutTime.Some?
      || signinAttempts.Some? || signoutAttempts.Some? || signinLastError.Some? || signoutLastError.Some? || otherKeys
    }

    /** Both the sign-in and the sign-out of the day are recorded as completed. */
    predicate FullyCompleted() {
      signinCompleted.GetOr(false) && signoutCompleted.GetOr(false)
    }
  }

  // ---------------------------------------------------------------------------
  // Responses
  // ---------------------------------------------------------------------------

  /** `SystemStatusResponse`. */
  datatype SystemStatus = SystemStatus(
    status: string,
    daemonRunning: bool,
    uptimeSeconds: int,
    uptimeFormatted: string,
    memoryUsageMb: real,
    cpuPercent: real,
    lastUpdated: string,
    scriptPid: Option<int>)

  /** `TodaySummaryResponse`. */
  datatype TodaySummaryResponse = TodaySummaryResponse(
    date: string,
    signinCompleted: bool,
    signoutCompleted: bool,
    signinStatus: string,
    signoutStatus: string,
    signinTime: Option<string>,
    signoutTime: Option<string>,
    totalAttempts: int,
    failedAttempts: int,
    nextRetry: Option<string>)

  /** `ActivityListItem`. */
  datatype ActivityListItem = ActivityListItem(
    date: string,
    dayOfWeek: string,
    signinCompleted: bool,
    signoutCompleted: bool,
    signinTimeFormatted: Option<string>,
    signoutTimeFormatted: Option<string>,
    status: string,
    statusColor: string,
    totalAttempts: int,
    hasErrors: bool)

  /** `QuickStats`; the success rate is the exact percentage (see README). */
  datatype QuickStats = QuickStats(
    totalDaysTracked: int,
    successRate: real,
    currentStreak: int,
    last7DaysSuccess: int,
    avgSigninTime: Option<string>,
    avgSignoutTime: Option<string>)

  /** The quick statistics of a project without any activity. */
  const ZeroQuickStats := QuickStats(0, 0.0, 0, 0, None, None)

  /** `Alert`; `kind` is the alert's `type`. Every alert the web UI builds is dismissible. */
  datatype Alert = Alert(
    kind: string,
    title: string,
    message: string,
    timestamp: string,
    actionUrl: Option<string>,
    actionText: Option<string>)

  /** A time of day as `datetime.fromisoformat` reads it from a timestamp. */
  datatype TimeOfDay = TimeOfDay(hour: int, minute: int)

  type Clock = t: TimeOfDay | 0 <= t.hour < 24 && 0 <= t.minute < 60 witness TimeOfDay(0, 0)
}
