# greytHR attendance web UI — a verified model of its decision logic

The greytHR attendance automation runs a daemon that signs a user in and out
of greytHR every working day. It writes a status snapshot and one JSON
record per day. A FastAPI web UI reads those files, shows a dashboard,
controls the daemon through `greythr_service.sh` and serves the log files.
This project models, in Dafny, the deterministic part of that web UI.

- **Dashboard repository and controller.** Today's summary covers the attempt totals, the next retry and the "✅" completion test. A day is classified Complete/Partial/Failed. The quick statistics hold the success count, the streak over the newest-first date list, the last seven days and the average sign-in and sign-out times as "HH:MM". Also modelled:
  - the three system alerts and their ranking by priority with a cap of five;
  - the clamps that sanitise the status and the statistics;
  - the fallbacks each `get_*` wrapper substitutes when a component fails.
- **Uptime text.** Seconds are rendered as "Ns", "Xm Ys", "Xh Ym" or "Xd Yh", and the service page reads that text back into seconds. The round trip is lossy, and its loss is stated exactly.
- **Service repository and controller.** Covered:
  - the service status derived from the snapshot;
  - the five health checks and the critical/degraded/warning/healthy rating;
  - the `.env` validity test;
  - the success test on the attendance script's output;
  - the catch-up flags;
  - the outcome of a service-script action;
  - the guards in front of start, stop, restart and reset;
  - the per-action message prefix.
- **Activity and log files.** Covered:
  - dates from `attendance_<date>.json` file names, newest first;
  - the inclusive date range;
  - the tail of a log file;
  - the log-line parser with its raw fallback;
  - per-file blank-line and date filtering;
  - the sort/level-filter/limit pipeline of the log page.
- **Request validation.** Pagination clamps, the log-file-name allow-list with its path-traversal test, and `YYYY-MM-DD` dates that must name a real Gregorian day (the calendar date, complete representation, extended format of section 4.1.2.2 of ISO 8601:2004).
- **Configuration.** Covered:
  - the `.properties` line parser that nests dotted keys;
  - the recursive deep merge;
  - the typed environment overrides;
  - env > properties > YAML precedence;
  - the configuration cache of `ConfigManager`.

Python semantics that matter are written out:
- truthiness of optional strings and of empty dicts;
- `str.strip`, `split`, `split('.')` and `'\n'.join`;
- ASCII `lower`/`upper`;
- negative slice bounds (`[-n:]`, `[:limit]`);
- `int()` on a decimal word;
- the order of `<` on `str`;
- the stability of `list.sort` / `sorted`, including `reverse=True`;
- `datetime.strptime(s, '%Y-%m-%d')`, including non-padded fields, and `strftime('%A')`.

Integers are unbounded in Python and in the model.

The file system, the clock, subprocesses, `psutil` and `datetime.fromisoformat` are outside the model:
- Directory listings, file contents and environment maps are inputs.
- The current time is a string parameter `now` (or `today`).
- A script run is a `RunOutcome`: exit code, stdout and stderr, a timeout, or the text of an exception raised while launching the script or decoding its output.
- `Installation` holds whether the daemon's process is alive. It also holds the text of an exception raised by the script-existence check or by `psutil`.
- `fromisoformat` is an `IsoReader` parameter, a function from text to an optional clock time.
- Most exceptions that the source catches and turns into a fallback are inputs, and the model states the fallback. The inputs are `Outcome.Failed`, an `Option`, `RunOutcome.Raised`, `Installation.serviceExistsError` / `greythrExistsError` / `processError`, and the `dirError` of `get_recent_logs`. The caught exceptions that are not modelled are listed under "## Left out".

Modules: `Common` (strings, integers, Python slicing), `Sorting` (stable
sort by a string key and its proofs), `Calendar`, `Models` (the daemon's
record shapes), `Uptime`, `Config`, `Connection`, `Logs`, `Dependencies`,
`ServiceRepository`, `ServiceController`, `DashboardRepository`,
`DashboardController`.

Where the source changes state, the model does too:
- `ConfigManager` is a class whose `cache` field `LoadConfig` sets and `ReloadConfig` renews.
- The service repository is a class that records the calls made on it, so the controller's guards can be stated as "which repository calls happened".
- Each loop in the source is a method with a loop and invariants (`DeepMerge`, `LoadProperties`, `LoadEnvOverrides`, `RecordChecks`, `ListActivityFiles`, `GetActivitiesInRange`, `ReadLogFile`, `GetRecentLogs`, `GetRecentActivities`, `GetQuickStats`, `GetSystemAlerts`). Each is proved equal to a specification function, and the properties are lemmas about that function.

## Model

| member | source | states |
|---|---|---|
| Uptime.Decompose | web_ui/src/app_utils.py:191-205 | below 60 the seconds themselves; below 3600 minutes in 1..59 with seconds 0..59 summing back exactly; below 86400 hours 1..23 and minutes 0..59 covering the value to within a minute; from a day on days ≥ 1 and hours 0..23 covering it to within an hour |
| Uptime.ParseUptimeSeconds | web_ui/src/service/repository.py:529-550 | None or "" reads as 0; a text with none of 'h', 'm', 's' reads as 0; with 'h' and 'm', a first or second word that `int()` refuses gives 0, and otherwise 3600 times the first word plus 60 times the second, a missing word counting as 0; 'h' with neither 'm' nor 's' gives 0; with only 'm' (or 's' without 'm'), 0 when there is no first word or `int()` refuses it, else 60 times (once) its value |
| Uptime.ParseUnreadableMinutes | web_ui/src/service/repository.py:541-550 | "xm" reads as 0: `int("x")` raises and the bare `except` answers 0 |
| Uptime.UnitWordUnreadable | web_ui/src/service/repository.py:542 | deleting the unit letter from "<word><unit>" leaves a word `int()` refuses when the word does not start with a sign or a digit |
| Uptime.ParseSecs | web_ui/src/service/repository.py:544-546 | the text "Ns" reads back as N, negative N included |
| Uptime.ParseMinSecs | web_ui/src/service/repository.py:541-543 | "Xm Ys" reads back as 60·X: the seconds are dropped |
| Uptime.ParseHoursMins | web_ui/src/service/repository.py:536-540 | "Xh Ym" reads back as 3600·X + 60·Y |
| Uptime.ParseDaysHours | web_ui/src/service/repository.py:547-548 | "Xd Yh" reads back as 0, since it has 'h' but neither 'm' nor 's' |
| Uptime.ParseRender | web_ui/src/service/repository.py:513-550 | reading any rendered uptime gives the value of its parts as the reader interprets them |
| Uptime.ParseFormatUptime | web_ui/src/service/repository.py:513-550 | the lossy round trip: s for s < 60, s − s mod 60 for 60 ≤ s < 86400, 0 from a day on |
| Calendar.DaysInMonth | web_ui/src/dependencies.py:117-118 | a month has 28..31 days, 29 exactly for February of a leap year |
| Calendar.StrptimeDate | web_ui/src/dependencies.py:117-118 | `strptime(s, '%Y-%m-%d')` yields only real Gregorian dates |
| Calendar.StrptimeDateShaped | web_ui/src/dependencies.py:117-118 | on a DDDD-DD-DD text, parsing succeeds iff the three numbers name a real date, and gives exactly that date |
| Calendar.StrptimeDateTrailing | web_ui/src/dependencies.py:117-118 | text after a complete date (a trailing newline, say) makes parsing fail |
| Calendar.StrptimeIsoDate | web_ui/src/dependencies.py:117-118 | the zero-padded ISO text of any valid date parses back to that date |
| Calendar.Weekday | web_ui/src/dashboard/repository.py:350-352 | the weekday index is in 0..6 |
| Calendar.WeekdayNextDay | web_ui/src/dashboard/repository.py:350-352 | the weekday of the next day is the next weekday, modulo 7 |
| Calendar.WeekdayFirstDay | web_ui/src/dashboard/repository.py:350-352 | 0001-01-01 is a Monday, as in the proleptic Gregorian calendar |
| Calendar.DayOfWeek | web_ui/src/dashboard/repository.py:350-354 | the day name is "Unknown" exactly when the date text does not parse |
| Sorting.SortByOrdered | web_ui/src/database/connection.py:117 | `sorted(…, reverse=…)` by a string key yields a list ordered by that key |
| Sorting.SortByPermutation | web_ui/src/database/connection.py:117 | sorting is a permutation of its input |
| Sorting.SortByStable | web_ui/src/logs/repository.py:55 | sorting is stable: entries with equal keys keep their input order, also with `reverse=True` |
| Sorting.FilterMultiset | web_ui/src/logs/repository.py:60 | the list comprehension keeps every occurrence of an element with the wanted key and no other element |
| Config.Merged | web_ui/src/app_utils.py:87-95 | the merge's keys are the union of both key sets |
| Config.DeepMerge | web_ui/src/app_utils.py:87-95 | the loop over the override, writing into a copy of base, recursing where both sides are dicts, equals `Merged` |
| Config.MergeKey | web_ui/src/app_utils.py:91-94 | the value written under one key of the override: the recursive merge where both sides are dicts, otherwise the override's value; equal to `Merged` at that key |
| Config.MergedOverrideWins | web_ui/src/app_utils.py:90-94 | a non-dict value at any path of the override is the value at that path of the result |
| Config.MergedKeepsBase | web_ui/src/app_utils.py:89 | below a key the override does not have, the result reads as base |
| Config.MergedIdempotent | web_ui/src/app_utils.py:87-95 | merging a config with itself gives it back |
| Config.MergedEmpty | web_ui/src/app_utils.py:87-95 | the empty dict is a left and right unit of the merge |
| Config.SetPathGet | web_ui/src/app_utils.py:56-60 | storing a value under a dotted key makes it readable at that key path |
| Config.SetPathOthers | web_ui/src/app_utils.py:57-60 | storing under a key path adds at most its first key and leaves every other top-level entry unchanged |
| Config.SetPathFails | web_ui/src/app_utils.py:58-59 | when a proper prefix of the key path already holds a plain value, storing fails |
| Config.ParseLine | web_ui/src/app_utils.py:51-56 | a line is skipped iff it is blank or a comment after stripping, or has no '='; otherwise it yields a non-empty key path |
| Config.ParseLineFirstEquals | web_ui/src/app_utils.py:54-60 | the split is at the first '=': the value may hold '='; key and value are stripped; the key splits at '.' |
| Config.SplitAtFirstEquals | web_ui/src/app_utils.py:52-54 | in `key=value` with no '=' in the key, the first '=' sits right after the key, and the text is not a comment |
| Config.ParseSimpleLine | web_ui/src/app_utils.py:50-60 | a space-free `key=value` line yields the dotted key and the value as written |
| Config.ParsePlainLine | web_ui/src/app_utils.py:53-56 | "a=1" yields key path ["a"] and value "1" |
| Config.ParseDottedLine | web_ui/src/app_utils.py:53-56 | "a.b=2" yields the dotted key "a.b" and value "2" |
| Config.DottedKeyParts | web_ui/src/app_utils.py:56 | "a" splits to ["a"], "a.b" to ["a", "b"] |
| Config.PlainLineRead | web_ui/src/app_utils.py:47-63 | the file "a=1" reads as {"a": "1"} |
| Config.SectionOverPlainFails | web_ui/src/app_utils.py:58-59 | nesting under a key that holds a string fails |
| Config.PropertiesConflict | web_ui/src/app_utils.py:58-66 | the file "a=1", "a.b=2" reads as {}: the failure discards everything |
| Config.LoadProperties | web_ui/src/app_utils.py:39-66 | the line loop equals the specification `PropertiesConfig`: a missing file or a failed line gives {} |
| Config.PropertiesFailureSticks | web_ui/src/app_utils.py:64-66 | once a prefix of the lines fails, the whole file fails |
| Config.PropertiesLastLineWins | web_ui/src/app_utils.py:60 | the last line for a key sets the value read at that key |
| Config.PropertiesSkippedLine | web_ui/src/app_utils.py:52-53 | a blank, comment or '='-less line changes nothing |
| Config.Coerce | web_ui/src/app_utils.py:116-123 | for `port` an int when the text parses, else the text; for other leaves, case-insensitive "true"/"false" become booleans, else the text |
| Config.LoadEnvOverrides | web_ui/src/app_utils.py:97-127 | the loop over the four mappings equals `EnvOverrides` |
| Config.EnvOverridesPaths | web_ui/src/app_utils.py:109-125 | each mapped variable that is set appears, coerced, at its section and leaf; an unset one adds nothing |
| Config.EnvOverridesOnlyMapped | web_ui/src/app_utils.py:102-107 | no section/leaf outside the four mappings is ever set |
| Config.CombinedPrecedence | web_ui/src/app_utils.py:73-82 | env beats properties, which beat YAML, for every non-dict value |
| Config.ConfigManager.constructor | web_ui/src/app_utils.py:18-20 | a new manager has an empty cache |
| Config.ConfigManager.LoadConfig | web_ui/src/app_utils.py:68-85 | with a cache, returns it and reads nothing; without, returns the merged config and caches it |
| Config.ConfigManager.ReloadConfig | web_ui/src/app_utils.py:129-132 | always rebuilds from the sources and caches the result |
| Connection.ReadJsonFile | web_ui/src/database/connection.py:22-37 | a document exactly when the file exists and parses; None for a missing, invalid or unreadable file |
| Connection.DateOfFile | web_ui/src/database/connection.py:114-115 | the extracted date is the file name without "attendance_" and ".json" |
| Connection.DateOfFileRoundTrip | web_ui/src/database/connection.py:114-115 | the date of "attendance_" + d + ".json" is d |
| Connection.DatesOfMembers | web_ui/src/database/connection.py:111-116 | d is listed iff some activity file name carries it |
| Connection.ListActivityFiles | web_ui/src/database/connection.py:107-117 | the dates, newest first by string order, a permutation of those extracted |
| Connection.KeptDates | web_ui/src/database/connection.py:124-128 | every kept date lies in [start, end], has a truthy record and comes from the list |
| Connection.KeptDatesMembers | web_ui/src/database/connection.py:125-128 | a date is kept iff it is listed, lies in the range and has a truthy record |
| Connection.KeptDatesOrdered | web_ui/src/database/connection.py:122-130 | the newest-first order survives the range filter |
| Connection.ActivitiesOf | web_ui/src/database/connection.py:126-128 | one record per kept date, in order |
| Connection.GetActivitiesInRange | web_ui/src/database/connection.py:119-130 | the loop returns the records of the kept dates, newest first |
| Connection.ReadLogFile | web_ui/src/database/connection.py:158-173 | None iff the file is missing; the whole text when no line count is given |
| Connection.ReadLogFileTail | web_ui/src/database/connection.py:170-173 | for n > 0 the result is a suffix of the text whose lines are the last min(n, count) lines |
| Connection.ReadLogFileZero | web_ui/src/database/connection.py:173 | a count of 0 returns the whole text |
| Connection.ReadLogFileNegative | web_ui/src/database/connection.py:173 | a count of −n drops the first n lines |
| Dependencies.MakePagination | web_ui/src/dependencies.py:61-70 | page ≥ 0, size in 1..max_size, offset = page·size, values already in range kept, out-of-range ones clamped to the nearer bound |
| Dependencies.PaginationFor | web_ui/src/dependencies.py:72-77 | with the default maximum of 100 the size lies in 1..100 |
| Dependencies.MakePaginationIdempotent | web_ui/src/dependencies.py:68-70 | clamping a clamped pagination changes nothing |
| Dependencies.ValidateLogFilename | web_ui/src/dependencies.py:80-103 | accepted, unchanged, iff an allowed prefix and no "..", "/" or "\\"; a bad prefix reports "Invalid log filename" even when the name also traverses |
| Dependencies.ValidateDateFormat | web_ui/src/dependencies.py:106-125 | accepted, unchanged, iff DDDD-DD-DD naming a real date; the wrong shape and an impossible date give their own messages |
| Dependencies.PatternThenStrptime | web_ui/src/dependencies.py:111-123 | after the pattern passes, the date check succeeds iff the text is exactly ten characters naming a real date |
| Dependencies.ValidateIsoDate | web_ui/src/dependencies.py:111-125 | every real date, written zero-padded, is accepted |
| Dependencies.ValidateImpossibleDay | web_ui/src/dependencies.py:117-123 | a well-shaped day past the month's end is rejected with "Invalid date value" |
| Logs.WordPrefix | web_ui/src/logs/repository.py:108 | the `\w+` level group is the longest run of word characters |
| Logs.MatchLogLine | web_ui/src/logs/repository.py:108-112 | a match starts with a well-shaped 23-character timestamp, has a word-character level and a module without '-' |
| Logs.ParseLogTimestamp | web_ui/src/logs/repository.py:115-119 | a valid timestamp becomes its ISO form with a 'T' and the same date and time, the microseconds dropped iff zero; an invalid one stays as written |
| Logs.MatchedEntry | web_ui/src/logs/repository.py:121-127 | a matched line keeps its raw text, its level and the timestamp's date |
| Logs.ParseLogLine | web_ui/src/logs/repository.py:104-136 | raw_line is the line; a non-matching line gives level "INFO", module "unknown" and the line as message |
| Logs.MatchedLine | web_ui/src/logs/repository.py:111-127 | a matching line's entry has the matched level and the timestamp's date |
| Logs.ParseLoggingLine | web_ui/src/logs/repository.py:107-127 | a line written in the logging format parses back to its timestamp, level and stripped module and message |
| Logs.UnstampedLine | web_ui/src/logs/repository.py:128-136 | a line without the timestamp shape takes the raw fallback |
| Logs.LoggingLine | web_ui/src/logs/repository.py:107 | the logging format adds nine separator characters |
| Logs.ReadLogFile | web_ui/src/logs/repository.py:76-102 | the line loop equals `EntriesOf`; an unreadable file gives [] |
| Logs.EntriesOfKept | web_ui/src/logs/repository.py:91-95 | with a date filter, every entry's timestamp starts with that date |
| Logs.EntriesOfUnfiltered | web_ui/src/logs/repository.py:84-97 | without a filter there is one entry per non-blank line |
| Logs.GetRecentLogs | web_ui/src/logs/repository.py:24-74 | the collection loop equals `RecentLogs`, and total is the number returned; an exception while looking at the logs directory gives no entries, total 0 and its text as the error |
| Logs.CollectLogs | web_ui/src/logs/repository.py:46-52 | the reading loop appends the entries of each file in turn; the result equals `CollectedEntries` |
| Logs.SelectProperties | web_ui/src/logs/repository.py:57-64 | after the level filter and the limit the entries stay newest first; with a level and no limit an entry occurs exactly as often as in the sorted list when its level matches and not at all otherwise; a positive limit keeps the first min(limit, n) entries of the unlimited answer; nothing dropped when neither applies |
| Logs.RecentLogsProperties | web_ui/src/logs/repository.py:24-70 | the page is newest first; with a level and no limit it holds every entry of that level read from the first ten files, as often as it was read, and no other; a positive limit keeps the first min(limit, n) entries of the unlimited page; drawn from the first ten files, and a permutation of them when nothing filters |
| ServiceRepository.Or | web_ui/src/service/repository.py:88-90 | `next_signin or next_signout` |
| ServiceRepository.ServiceStatusOf | web_ui/src/service/repository.py:34-118 | an exception from the service-script check (the only script it probes), or from `psutil` other than NoSuchProcess/AccessDenied, gives "Error: <text>"; the two early answers; running iff pid truthy, daemon running, no `psutil` error and process alive; text prefixed "Running (" or "Stopped ("; uptime rendered; next action is sign-in else sign-out |
| ServiceRepository.StatusTextMatchesRunning | web_ui/src/service/repository.py:92-96 | the status text starts with "Running (" iff running and with "Stopped (" iff not |
| ServiceRepository.StatusUptimeReadBack | web_ui/src/service/repository.py:80-82 | the status uptime, read back, is the snapshot's seconds up to the format's loss |
| ServiceRepository.ConfigValid | web_ui/src/service/repository.py:492-511 | valid iff `.env` exists and contains each of "GREYTHR_URL=", "GREYTHR_USERNAME=", "GREYTHR_PASSWORD=" |
| ServiceRepository.ConfigValidAnywhere | web_ui/src/service/repository.py:499-508 | the three assignments count in any order, anywhere in the text |
| ServiceRepository.Outcomes | web_ui/src/service/repository.py:297-327 | one outcome per health check |
| ServiceRepository.Issues | web_ui/src/service/repository.py:300-327 | one issue text per failed check, in check order |
| ServiceRepository.Recommendations | web_ui/src/service/repository.py:301-327 | one recommendation per failed check, in check order |
| ServiceRepository.RecordCheck | web_ui/src/service/repository.py:298-301 | one check records its outcome and, when it failed, appends its issue and recommendation |
| ServiceRepository.RecordChecks | web_ui/src/service/repository.py:293-327 | the five steps build the check map and the issues and recommendations of the failed checks |
| ServiceRepository.AssessChecks | web_ui/src/service/repository.py:293-349 | the check map holds the five outcomes; issues and recommendations are those of the failed checks; rating by `Classify` |
| ServiceRepository.HealthCheck | web_ui/src/service/repository.py:289-360 | the same for the installation's own checks; an exception from the service-script check, or else from the attendance-script check, gives the "error" health with the single failed check "health_check_error" and "Health check failed: <text>" |
| ServiceRepository.FailedUpToEmpty | web_ui/src/service/repository.py:336-337 | there are no issues iff no check failed |
| ServiceRepository.FailedUpToCount | web_ui/src/service/repository.py:296-327 | the failed rules are as many as the false checks |
| ServiceRepository.HealthCheckCounts | web_ui/src/service/repository.py:296-327 | issues and recommendations both number the false checks |
| ServiceRepository.ClassifyHealthy | web_ui/src/service/repository.py:329-337 | "healthy" iff all checks pass; "critical" iff a script check fails; "degraded" iff the scripts exist and the service does not run |
| ServiceRepository.AnyPhrase | web_ui/src/service/repository.py:475-477 | true iff the text contains one of the phrases |
| ServiceRepository.AttendancePhrasesReduce | web_ui/src/service/repository.py:475-477 | the five phrases reduce to "successful", "completed" or "✅" |
| ServiceRepository.ExecuteGreythrScript | web_ui/src/service/repository.py:428-490 | missing script, timeout and "Script execution failed: <text>" messages; success iff exit 0 and a phrase found; attendance time iff a phrase found; message stdout else stderr |
| ServiceRepository.CatchupFrom | web_ui/src/service/repository.py:215-237 | a failure gives no actions and no flags; a success flags sign-in/sign-out iff the lowered message names them, listing the actions in order |
| ServiceRepository.ForceCatchup | web_ui/src/service/repository.py:206-237 | the same on the outcome of running the script with option 7 |
| ServiceRepository.ExecuteServiceAction | web_ui/src/service/repository.py:364-426 | missing script, timeout and "Service <action> failed: <text>" answers; success iff exit 0; message stdout (success) or stderr (failure) else "Service <action> completed/failed"; details iff success with stderr |
| ServiceRepository.Repository.constructor | web_ui/src/service/repository.py:28-32 | a new repository over an installation has recorded no calls |
| ServiceRepository.Repository.GetServiceStatus | web_ui/src/service/repository.py:34-106 | records a status call and answers `ServiceStatusOf` |
| ServiceRepository.Repository.StartService | web_ui/src/service/repository.py:120-122 | records a start call and runs the "start" action |
| ServiceRepository.Repository.StopService | web_ui/src/service/repository.py:124-126 | records a stop call and runs the "stop" action |
| ServiceRepository.Repository.RestartService | web_ui/src/service/repository.py:128-130 | records a restart call and runs the "restart" action |
| ServiceRepository.Repository.ResetService | web_ui/src/service/repository.py:132-142 | without confirmation refuses; with it runs the "reset" action |
| ServiceController.CheckPrerequisites | web_ui/src/service/controller.py:180-198 | valid iff `.env` and the script exist; `.env` is checked first; each missing item has its own message |
| ServiceController.ActionPrefix | web_ui/src/service/controller.py:214-222 | a prefix exists exactly for start, stop, restart and reset |
| ServiceController.EnhanceActionResult | web_ui/src/service/controller.py:211-224 | a success of a known action gets its prefix before the message; failures and unknown actions are unchanged; other fields kept |
| ServiceController.EnhancedMessageRecovers | web_ui/src/service/controller.py:214-222 | removing the prefix gives back the original message |
| ServiceController.Controller.constructor | web_ui/src/service/controller.py:19-20 | the controller works on the given repository |
| ServiceController.Controller.StartService | web_ui/src/service/controller.py:44-75 | failed prerequisites: refused, no repository call; running without force: refused after one status call; otherwise started and the result prefixed |
| ServiceController.Controller.StopService | web_ui/src/service/controller.py:86-107 | stopped without force: success "already stopped" and no stop call; otherwise stopped and prefixed |
| ServiceController.Controller.RestartService | web_ui/src/service/controller.py:118-138 | failed prerequisites: refused, no call; otherwise restarted and prefixed |
| ServiceController.Controller.ResetService | web_ui/src/service/controller.py:149-167 | no confirmation: refused, no call; otherwise a confirmed reset, prefixed |
| DashboardRepository.Hour12 | web_ui/src/dashboard/repository.py:79 | the `%I` hour is in 1..12 and agrees with the hour modulo 12 |
| DashboardRepository.ParseFormatClock12 | web_ui/src/dashboard/repository.py:78-79 | the "hh:mm AM/PM" text loses nothing: it reads back to the clock time |
| DashboardRepository.FormatTime | web_ui/src/dashboard/repository.py:76-81 | a formatted time iff the value is truthy and parses, and it reads back to the parsed time |
| DashboardRepository.GetSystemStatus | web_ui/src/dashboard/repository.py:29-59 | the fallback without a snapshot, else the snapshot's fields with their defaults; the uptime text always renders the uptime seconds |
| DashboardRepository.NextRetry | web_ui/src/dashboard/repository.py:99-104 | a retry iff either side has a truthy one, sign-in's first |
| DashboardRepository.GetTodaySummary | web_ui/src/dashboard/repository.py:61-121 | fallback when no snapshot or an empty summary; totals with absent counters as 0; statuses default "❌ Pending"; a side is completed iff its status starts with "✅" |
| DashboardRepository.FormatActivityItem | web_ui/src/dashboard/repository.py:314-379 | Complete/Partial/Failed iff both/one/none of the sides completed, with their colours; date default "unknown"; "Unknown" day iff the date does not parse; attempts summed; errors iff a truthy last error |
| DashboardRepository.ItemsOfCount | web_ui/src/dashboard/repository.py:129-133 | at most one item per date, exactly one when every date has a record |
| DashboardRepository.GetRecentActivities | web_ui/src/dashboard/repository.py:123-139 | the items of the first `limit` dates, newest first, that have a record |
| DashboardRepository.MinuteOfDay | web_ui/src/dashboard/repository.py:391 | minutes since midnight are at most 1439 |
| DashboardRepository.SumMinutesDefined | web_ui/src/dashboard/repository.py:386-394 | the sum exists iff every time parses, and is at most 1439 per time |
| DashboardRepository.ClockText | web_ui/src/dashboard/repository.py:395-398 | five characters HH:MM, HH < 24, MM < 60, 60·HH + MM the minutes |
| DashboardRepository.AverageTime | web_ui/src/dashboard/repository.py:381-402 | None for an empty list or an unparsable time; otherwise "HH:MM" of the floor of the mean minute |
| DashboardRepository.AverageOfSameTime | web_ui/src/dashboard/repository.py:381-398 | the average of copies of one time is that time |
| DashboardRepository.SumOfSameTime | web_ui/src/dashboard/repository.py:388-394 | copies of one time sum to its minute times their number |
| DashboardRepository.Streak | web_ui/src/dashboard/repository.py:165-185 | the streak is the longest prefix of fully completed days: all inside succeed, the next one does not |
| DashboardRepository.StreakSnoc | web_ui/src/dashboard/repository.py:176-177 | a day extends the streak iff the streak covers every earlier day and the day succeeds |
| DashboardRepository.StreakAtMostSuccessful | web_ui/src/dashboard/repository.py:172-177 | the streak never exceeds the successful days |
| DashboardRepository.SuccessfulAtMostDays | web_ui/src/dashboard/repository.py:172-173 | the successful days never exceed the days |
| DashboardRepository.SuccessfulPrefix | web_ui/src/dashboard/repository.py:180-181 | a prefix has no more successful days than the whole list |
| DashboardRepository.QuickStatsBounds | web_ui/src/dashboard/repository.py:141-207 | total = days; rate in [0, 100]; last 7 in 0..7 and within the successful days; 0 ≤ streak ≤ successful ≤ days |
| DashboardRepository.QuickStep | web_ui/src/dashboard/repository.py:165-191 | one day's step updates the success count, streak and time lists as the loop body does |
| DashboardRepository.CountDay | web_ui/src/dashboard/repository.py:166-191 | the loop body turns the tally of the first i days into that of the first i + 1 |
| DashboardRepository.GetQuickStats | web_ui/src/dashboard/repository.py:141-218 | the loop over the newest-first dates equals `QuickStatsOf`, the zero statistics when there are no dates |
| DashboardRepository.QuickStatsFinal | web_ui/src/dashboard/repository.py:193-207 | the statistics are the final tally's counts, rate and average times |
| DashboardRepository.GetSystemAlerts | web_ui/src/dashboard/repository.py:220-280 | the appends equal `SystemAlerts` |
| DashboardRepository.SystemAlertsProperties | web_ui/src/dashboard/repository.py:226-267 | no snapshot: one warning; otherwise at most three, the error alert iff a last error, "Service Not Running" iff the daemon is down, "Retry Scheduled" iff a retry is pending, error first, retry last |
| DashboardController.ValidateSystemStatus | web_ui/src/dashboard/controller.py:186-200 | negative uptime becomes 0 with "0s"; negative memory 0.0; cpu outside [0, 100] becomes 0.0; in-range values and the other fields kept |
| DashboardController.ValidateSystemStatusIdempotent | web_ui/src/dashboard/controller.py:186-200 | validating twice is validating once |
| DashboardController.ValidateKeepsUptimeText | web_ui/src/dashboard/controller.py:189-191 | a consistent uptime text stays consistent |
| DashboardController.EnhanceQuickStats | web_ui/src/dashboard/controller.py:223-240 | rate clamped into [0, 100], streak raised to 0, last 7 clamped into 0..7, the rest kept |
| DashboardController.EnhanceQuickStatsInRange | web_ui/src/dashboard/controller.py:223-240 | in-range statistics are unchanged |
| DashboardController.EnhanceRepositoryStats | web_ui/src/dashboard/controller.py:144-151 | the clamps never change what the repository computes |
| DashboardController.EnhanceTodaySummary | web_ui/src/dashboard/controller.py:202-211 | the summary is returned unchanged |
| DashboardController.FilterRecentActivitiesProperties | web_ui/src/dashboard/controller.py:213-221 | a permutation, newest date first, items of equal date in their input order |
| DashboardController.Priority | web_ui/src/dashboard/controller.py:245-249 | a priority in 1..5, 1 exactly for "error" |
| DashboardController.AlertKeyOrder | web_ui/src/dashboard/controller.py:248-251 | the sort key orders by (priority, timestamp) as the source's tuple does |
| DashboardController.PrioritizeAlerts | web_ui/src/dashboard/controller.py:242-256 | at most five alerts |
| DashboardController.PrioritizeAlertsProperties | web_ui/src/dashboard/controller.py:242-256 | a prefix of the stable sort of the input of length min(n, 5), ordered by (priority, timestamp), an error first whenever one exists |
| DashboardController.ErrorRanksFirst | web_ui/src/dashboard/controller.py:245-251 | in a sorted list holding an error, the first alert is an error |
| DashboardController.PrioritizeSystemAlerts | web_ui/src/dashboard/controller.py:164-171 | the repository's alerts all survive the cap |
| DashboardController.ControllerSystemStatus | web_ui/src/dashboard/controller.py:99-113 | fallback on None or a failure, else the validated status |
| DashboardController.ControllerStatusUptimeText | web_ui/src/dashboard/controller.py:99-109 | the status served has an uptime text that renders its seconds |
| DashboardController.ControllerTodaySummary | web_ui/src/dashboard/controller.py:115-129 | fallback on None or a failure, else the summary |
| DashboardController.ControllerRecentActivities | web_ui/src/dashboard/controller.py:131-142 | [] on a failure, else the items sorted newest first |
| DashboardController.ControllerQuickStats | web_ui/src/dashboard/controller.py:144-162 | zero statistics on a failure, else the clamped ones |
| DashboardController.ControllerSystemAlerts | web_ui/src/dashboard/controller.py:164-180 | one "Alert System Error" on a failure, else the prioritised alerts; never more than five |
| DashboardController.GetDashboardOverview | web_ui/src/dashboard/controller.py:24-97 | each failed component is replaced by its fallback, the others pass through; a failure building the overview gives the minimal overview with one "Dashboard Error" alert |
| DashboardController.OverviewOfControllerCalls | web_ui/src/dashboard/controller.py:24-74 | the overview built from the five wrappers has a sane status, clamped statistics and at most five alerts |

## Left out

- Floating point. The success rate is the exact rational `successful / total · 100`, not `round(…, 1)` (web_ui/src/dashboard/repository.py:202). The memory and CPU gauges are reals; only their sign and range clamps are modelled. `format_file_size` is not modelled.
- DashboardRepository.GetQuickStats: success_rate is not rounded to one decimal, because rounding a binary float is not modelled; every stated bound holds for the exact value and survives rounding.
- DashboardRepository.AverageTime: the float mean is replaced by the exact floor of the mean minute. `int(avg // 60)` and `int(avg % 60)` of a non-negative float agree with that floor, up to float rounding of the division.
- `datetime.fromisoformat` is the `IsoReader` parameter. `datetime.now()` is the `now`/`today` parameter. The `generated_at` clock reading of the `get_recent_logs` response is not modelled. `strptime` with `%H:%M:%S,%f` is modelled on its fixed-width digits.
- Python's Unicode `lower`/`upper`, `\d` and `\w` are approximated by their ASCII cases. `\s`, `strip()` and `split()` are modelled on Python's full Unicode whitespace set, as `str.isspace` defines it. `int()` accepts a sign and ASCII digits with surrounding whitespace, but not underscores or non-ASCII digits.
- The file system is replaced by data. That covers globbing, `exists`, reading, and modification-time ordering: the log files arrive already newest first. YAML parsing is also replaced: the YAML file is an optional, already-parsed dict.
- JSON values of unexpected types, and the exceptions they would raise, are not modelled. Absent keys are `None`.
- Subprocesses and `psutil` are replaced by their outcomes: an exit code with stdout and stderr, a timeout, or a raised exception's text, plus whether the process is alive or the error `psutil` raised. The 60- and 120-second timeouts and `process.kill` are not modelled. Neither is the duration in `ServiceActionResponse`, which depends on the clock.
- `manual_signin`, `manual_signout`, `get_service_info` and the controller's `get_service_status` pass-through only relay the script outcome or the status. Apart from the uptime read-back they are not modelled.
- The `asyncio.gather` fan-out of the dashboard is treated as five components evaluated one after another, each of which may fail.
- In-place updates of freshly built response objects are modelled on values. These are `_validate_system_status`, `_enhance_quick_stats`, `_enhance_action_result` and `list.sort` in `_filter_recent_activities` / `_prioritize_alerts`. Nothing else holds a reference to those objects, so no aliasing is lost.
- In the service controller's prerequisites, "`.env` exists" is modelled as "`.env` could be read" (`Installation.envFile` is `Some`). A `.env` that exists but cannot be read therefore cannot be expressed. The source passes it in `_validate_service_prerequisites` (web_ui/src/service/controller.py:180-198), and it fails only later, in `_check_config_validity`.
- The `except` branches of the service controller are not modelled: "Start service failed: …", "Stop service failed: …", "Restart service failed: …", "Reset service failed: …" (web_ui/src/service/controller.py:77-84, 109-116, 140-147, 169-176) and "Validation failed: …" (web_ui/src/service/controller.py:200-204). The repository calls they guard catch their own exceptions, so only a failing `Path.exists` in the prerequisites reaches them, and that check is a boolean input here.
- The `except` of `force_catchup` (web_ui/src/service/repository.py:239-248) is not modelled: `_execute_greythr_script` catches its own exceptions, and nothing else in that body raises in the model.
- An exception from `Path.exists` inside `_execute_service_action` and `_execute_greythr_script` is not a separate input. It lands in the same `except` as a launch failure and gets the same answer, so `RunOutcome.Raised` with its text covers it.
- The sort in `_prioritize_alerts` and `_filter_recent_activities` never raises in the model, because keys are always strings. The source's `except: pass` around it is therefore not modelled.
- Logging calls, the FastAPI routes, the Pydantic schemas (used only as record types), the CSV export, `greythr_api.py` and the daemon with its scheduler and retry logic are not part of this model.
