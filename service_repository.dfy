/**
 * The service page's view of the daemon: its status derived from the state
 * snapshot, the health check, the results of running the service script and
 * the attendance script, and the configuration check.
 *
 * Everything the source learns from the operating system is an input here:
 * whether the two scripts exist, the text of `.env`, the state snapshot,
 * whether `psutil` finds the recorded process alive, how a subprocess ended,
 * and the current time as ISO text.
 */
module ServiceRepository {
  import opened Common
  import opened Models
  import opened Uptime

  /** What the project directory and the process table hold. */
  datatype Installation = Installation(
    serviceScriptExists: bool,   // greythr_service.sh
    greythrScriptExists: bool,   // greythr_api.py
    envFile: Option<string>,     // the text of .env, None when it is missing
    state: Option<State>,        // state/current_state.json as read, None when missing or unreadable
    processAlive: bool,          // psutil finds the recorded pid running
    serviceExistsError: Option<string>, // the text of the error `Path.exists` raises on greythr_service.sh
    greythrExistsError: Option<string>, // the text of the error `Path.exists` raises on greythr_api.py
    processError: Option<string>) // the text of an error psutil raises on the recorded pid other than
                                  // "no such process" or "access denied", e.g. for a negative pid

  /**
   * How a subprocess ended: its return code and decoded output, the
   * timeout, or an exception with its text, raised while launching the
   * process or decoding its output (a script without execute permission,
   * output that is not UTF-8). An exception from the script-existence check
   * in the same `try` receives the same answer, so `Raised` stands for it too.
   */
  datatype RunOutcome = Finished(returnCode: int, stdout: string, stderr: string) | TimedOut | Raised(error: string)

  // ---------------------------------------------------------------------------
  // get_service_status
  // ---------------------------------------------------------------------------

  /** `ServiceStatusResponse`. */
  datatype ServiceStatus = ServiceStatus(
    isRunning: bool,
    pid: Option<int>,
    status: string,
    uptime: Option<string>,
    lastActivity: Option<string>,
    nextScheduledAction: Option<string>,
    daemonRunning: bool)

  /** Python truthiness of an optional pid: present and not 0. */
  predicate PidTruthy(pid: Option<int>) {
    pid.Some? && pid.value != 0
  }

  /** `a or b` on two optional strings. */
  function Or(a: Option<string>, b: Option<string>): (r: Option<string>)
    ensures Truthy(a) ==> r == a
    ensures !Truthy(a) ==> r == b
  {
    if Truthy(a) then a else b
  }

  /** The answer of `get_service_status()` once an exception was caught. */
  function StatusError(error: string): ServiceStatus {
    ServiceStatus(false, None, "Error: " + error, None, None, None, false)
  }

  /** The script check answered, the script exists and the state was read. */
  predicate ReadsState(inst: Installation) {
    inst.serviceExistsError.None? && inst.serviceScriptExists && !NoState(inst.state)
  }

  /** The status asks the process table about the recorded pid. */
  predicate QueriesProcess(inst: Installation) {
    ReadsState(inst) && PidTruthy(inst.state.value.Script().pid) && inst.state.value.Schedule().daemonRunning.GetOr(false)
  }

  /** The status is built from the state, with no exception on the way. */
  predicate StatusAnswered(inst: Installation) {
    ReadsState(inst) && !(QueriesProcess(inst) && inst.processError.Some?)
  }

  /**
   * `get_service_status()`: an exception from the service-script check
   * (the only script it probes; `greythrExistsError` plays no part), or from
   * psutil other than "no such process" and "access denied", gives the
   * "Error: …" answer; without the service script, or without state,
   * nothing runs; otherwise the service runs exactly when the recorded pid is
   * truthy, the schedule says the daemon runs and the process is alive, and
   * the status text says which.
   */
  function ServiceStatusOf(inst: Installation): (r: ServiceStatus)
    ensures inst.serviceExistsError.Some? ==> r == StatusError(inst.serviceExistsError.value)
    ensures inst.serviceExistsError.None? && !inst.serviceScriptExists
            ==> r == ServiceStatus(false, None, "Service script not found", None, None, None, false)
    ensures inst.serviceExistsError.None? && inst.serviceScriptExists && NoState(inst.state)
            ==> r == ServiceStatus(false, None, "No state data available", None, None, None, false)
    ensures QueriesProcess(inst) && inst.processError.Some? ==> r == StatusError(inst.processError.value)
    ensures r.isRunning <==> QueriesProcess(inst) && inst.processError.None? && inst.processAlive
    ensures StatusAnswered(inst) ==>
              var st := inst.state.value;
              && r.status == (if r.isRunning then "Running (" else "Stopped (") + st.Script().status.GetOr("unknown") + ")"
              && r.pid == st.Script().pid
              && r.daemonRunning == st.Schedule().daemonRunning.GetOr(false)
              && r.uptime == Some(FormatUptime(st.Stats().uptimeSeconds.GetOr(0)))
              && r.lastActivity == st.lastUpdated
              && r.nextScheduledAction == Or(st.Schedule().nextSignin, st.Schedule().nextSignout)
  {
    if inst.serviceExistsError.Some? then StatusError(inst.serviceExistsError.value)
    else if !inst.serviceScriptExists then
      ServiceStatus(false, None, "Service script not found", None, None, None, false)
    else if NoState(inst.state) then
      ServiceStatus(false, None, "No state data available", None, None, None, false)
    else
      var st := inst.state.value;
      var daemon := st.Schedule().daemonRunning.GetOr(false);
      var pid := st.Script().pid;
      if PidTruthy(pid) && daemon && inst.processError.Some? then StatusError(inst.processError.value)
      else
      var running := PidTruthy(pid) && daemon && inst.processAlive;
      var text := st.Script().status.GetOr("unknown");
      ServiceStatus(
        running, pid,
        (if running then "Running (" else "Stopped (") + text + ")",
        Some(FormatUptime(st.Stats().uptimeSeconds.GetOr(0))),
        st.lastUpdated,
        Or(st.Schedule().nextSignin, st.Schedule().nextSignout),
        daemon)
  }

  /** The status text begins with "Running (" exactly when the service is reported running. */
  lemma StatusTextMatchesRunning(inst: Installation)
    requires StatusAnswered(inst)
    ensures StartsWith(ServiceStatusOf(inst).status, "Running (") <==> ServiceStatusOf(inst).isRunning
    ensures StartsWith(ServiceStatusOf(inst).status, "Stopped (") <==> !ServiceStatusOf(inst).isRunning
  {
    var r := ServiceStatusOf(inst);
    if r.isRunning {
      assert r.status[..9] == "Running (";
      assert r.status[..9] != "Stopped (" by { assert r.status[0] == 'R'; }
    } else {
      assert r.status[..9] == "Stopped (";
      assert r.status[..9] != "Running (" by { assert r.status[0] == 'S'; }
    }
  }

  /**
   * The service information reads the status's uptime text back into
   * seconds: exact below a minute, down to the whole minute below a day,
   * and 0 from a day on.
   */
  lemma StatusUptimeReadBack(inst: Installation)
    requires StatusAnswered(inst)
    ensures var s := inst.state.value.Stats().uptimeSeconds.GetOr(0);
            ParseUptimeSeconds(ServiceStatusOf(inst).uptime)
            == if s < 60 then s else if s < 86400 then s - s % 60 else 0
  {
    ParseFormatUptime(inst.state.value.Stats().uptimeSeconds.GetOr(0));
  }

  // ---------------------------------------------------------------------------
  // _check_config_validity
  // ---------------------------------------------------------------------------

  /** The settings `.env` must assign. */
  const RequiredVars: seq<string> := ["GREYTHR_URL", "GREYTHR_USERNAME", "GREYTHR_PASSWORD"]

  /** `_check_config_validity()`: `.env` exists and assigns each required variable somewhere in its text. */
  function ConfigValid(envFile: Option<string>): (r: bool)
    ensures r <==> envFile.Some? && forall i :: 0 <= i < |RequiredVars| ==> Contains(envFile.value, RequiredVars[i] + "=")
  {
    match envFile
    case None => false
    case Some(content) =>
      var ok := Contains(content, "GREYTHR_URL=") && Contains(content, "GREYTHR_USERNAME=")
                && Contains(content, "GREYTHR_PASSWORD=");
      assert ok <==> forall i :: 0 <= i < |RequiredVars| ==> Contains(content, RequiredVars[i] + "=") by {
        assert RequiredVars[0] + "=" == "GREYTHR_URL=";
        assert RequiredVars[1] + "=" == "GREYTHR_USERNAME=";
        assert RequiredVars[2] + "=" == "GREYTHR_PASSWORD=";
      }
      ok
  }

  /** The assignments may sit anywhere in the file, in any order, among other text. */
  lemma ConfigValidAnywhere(before: string, middle: string, after: string, url: string, user: string, password: string)
    ensures ConfigValid(Some(before + "GREYTHR_PASSWORD=" + password + middle + "GREYTHR_URL=" + url
                             + after + "GREYTHR_USERNAME=" + user))
  {
    var s := before + "GREYTHR_PASSWORD=" + password + middle + "GREYTHR_URL=" + url + after + "GREYTHR_USERNAME=" + user;
    var p := |before|;
    assert s[p..p + 17] == "GREYTHR_PASSWORD=";
    ContainsAt(s, "GREYTHR_PASSWORD=", p);
    var q := |before| + 17 + |password| + |middle|;
    assert s[q..q + 12] == "GREYTHR_URL=";
    ContainsAt(s, "GREYTHR_URL=", q);
    var t := q + 12 + |url| + |after|;
    assert s[t..t + 17] == "GREYTHR_USERNAME=";
    ContainsAt(s, "GREYTHR_USERNAME=", t);
    assert RequiredVars[0] + "=" == "GREYTHR_URL=";
    assert RequiredVars[1] + "=" == "GREYTHR_USERNAME=";
    assert RequiredVars[2] + "=" == "GREYTHR_PASSWORD=";
  }

  // ---------------------------------------------------------------------------
  // health_check
  // ---------------------------------------------------------------------------

  /** One health check: its key, and the issue and recommendation it adds when it fails. */
  datatype Rule = Rule(key: string, issue: string, recommendation: string)

  const Rules: seq<Rule> := [
    Rule("service_script_exists", "Service script not found", "Reinstall GreytHR service"),
    Rule("greythr_script_exists", "GreytHR API script not found", "Check GreytHR installation"),
    Rule("config_valid", "Configuration is invalid", "Check .env file and configuration"),
    Rule("service_running", "Service is not running", "Start the service"),
    Rule("state_accessible", "Cannot access service state", "Check file permissions and service status")
  ]

  /** The outcome of each check, in the order of `Rules`. */
  function Outcomes(inst: Installation): (r: seq<bool>)
    ensures |r| == |Rules|
  {
    [inst.serviceScriptExists, inst.greythrScriptExists, ConfigValid(inst.envFile),
     ServiceStatusOf(inst).isRunning, inst.state.Some?]
  }

  /** The failed checks among the first `n`, in order. */
  function FailedUpTo(outcomes: seq<bool>, n: nat): (r: seq<Rule>)
    requires n <= |outcomes| == |Rules|
    ensures |r| <= n
  {
    if n == 0 then []
    else FailedUpTo(outcomes, n - 1) + (if outcomes[n - 1] then [] else [Rules[n - 1]])
  }

  function Issues(rules: seq<Rule>): (r: seq<string>)
    ensures |r| == |rules| && forall i :: 0 <= i < |rules| ==> r[i] == rules[i].issue
  {
    seq(|rules|, i requires 0 <= i < |rules| => rules[i].issue)
  }

  function Recommendations(rules: seq<Rule>): (r: seq<string>)
    ensures |r| == |rules| && forall i :: 0 <= i < |rules| ==> r[i] == rules[i].recommendation
  {
    seq(|rules|, i requires 0 <= i < |rules| => rules[i].recommendation)
  }

  /** The number of failed checks. */
  function FalseCount(outcomes: seq<bool>): nat {
    if outcomes == [] then 0 else (if outcomes[0] then 0 else 1) + FalseCount(outcomes[1..])
  }

  /** `ServiceHealthCheck`; `checks` is the dict of check outcomes by key. */
  datatype ServiceHealth = ServiceHealth(
    overallHealth: string,
    checks: map<string, bool>,
    issues: seq<string>,
    recommendations: seq<string>,
    lastCheck: string)

  /** The classification of a set of outcomes, from the worst case down. */
  function Classify(outcomes: seq<bool>): string
    requires |outcomes| == |Rules|
  {
    if !outcomes[0] || !outcomes[1] then "critical"
    else if !outcomes[3] then "degraded"
    else if false in outcomes then "warning"
    else "healthy"
  }

  /** The checks dict after the first `n` checks. */
  function ChecksUpTo(outcomes: seq<bool>, n: nat): map<string, bool>
    requires n <= |outcomes| == |Rules|
  {
    if n == 0 then map[] else ChecksUpTo(outcomes, n - 1)[Rules[n - 1].key := outcomes[n - 1]]
  }

  /** Every check has its own key. */
  lemma RuleKeysDistinct()
    ensures forall i, j :: 0 <= i < j < |Rules| ==> Rules[i].key != Rules[j].key
  {
    var k := seq(|Rules|, i requires 0 <= i < |Rules| => Rules[i].key);
    assert k[0][0] == 's' && k[0][1] == 'e' && k[0][8] == 's';
    assert k[1][0] == 'g' && k[2][0] == 'c';
    assert k[3][0] == 's' && k[3][1] == 'e' && k[3][8] == 'r';
    assert k[4][0] == 's' && k[4][1] == 't';
  }

  /** The checks dict holds the keys of the first `n` checks. */
  lemma {:induction false} ChecksUpToKeys(outcomes: seq<bool>, n: nat)
    requires n <= |outcomes| == |Rules|
    ensures ChecksUpTo(outcomes, n).Keys == set i | 0 <= i < n :: Rules[i].key
  {
    if n > 0 {
      ChecksUpToKeys(outcomes, n - 1);
      assert (set i | 0 <= i < n :: Rules[i].key) == (set i | 0 <= i < n - 1 :: Rules[i].key) + {Rules[n - 1].key};
    }
  }

  /** The checks dict holds the outcome of each of the first `n` checks under its key. */
  lemma {:induction false} ChecksUpToValues(outcomes: seq<bool>, n: nat)
    requires n <= |outcomes| == |Rules|
    ensures forall i :: 0 <= i < n ==>
              Rules[i].key in ChecksUpTo(outcomes, n) && ChecksUpTo(outcomes, n)[Rules[i].key] == outcomes[i]
  {
    if n > 0 {
      ChecksUpToValues(outcomes, n - 1);
      RuleKeysDistinct();
    }
  }

  /**
   * One check of `health_check()`: records its outcome under its key and,
   * when it failed, adds its issue and its recommendation.
   */
  method RecordCheck(checks: map<string, bool>, issues: seq<string>, recommendations: seq<string>, rule: Rule, ok: bool)
    returns (checks': map<string, bool>, issues': seq<string>, recommendations': seq<string>)
    ensures checks' == checks[rule.key := ok]
    ensures issues' == issues + (if ok then [] else [rule.issue])
    ensures recommendations' == recommendations + (if ok then [] else [rule.recommendation])
  {
    checks' := checks[rule.key := ok];
    issues', recommendations' := issues, recommendations;
    if !checks'[rule.key] {
      issues' := issues' + [rule.issue];
      recommendations' := recommendations' + [rule.recommendation];
    }
  }

  /** One more check extends the checks dict, the issues and the recommendations of the checks before it. */
  lemma RecordStep(outcomes: seq<bool>, n: nat, checks: map<string, bool>, issues: seq<string>, recommendations: seq<string>)
    requires 0 < n <= |outcomes| == |Rules|
    requires checks == ChecksUpTo(outcomes, n - 1)
    requires issues == Issues(FailedUpTo(outcomes, n - 1))
    requires recommendations == Recommendations(FailedUpTo(outcomes, n - 1))
    ensures checks[Rules[n - 1].key := outcomes[n - 1]] == ChecksUpTo(outcomes, n)
    ensures issues + (if outcomes[n - 1] then [] else [Rules[n - 1].issue]) == Issues(FailedUpTo(outcomes, n))
    ensures recommendations + (if outcomes[n - 1] then [] else [Rules[n - 1].recommendation])
            == Recommendations(FailedUpTo(outcomes, n))
  {
  }

  /**
   * The five checks of `health_check()` in order: each records its outcome
   * and, when it failed, adds one issue and one recommendation.
   */
  method RecordChecks(outcomes: seq<bool>) returns (checks: map<string, bool>, issues: seq<string>, recommendations: seq<string>)
    requires |outcomes| == |Rules|
    ensures checks == ChecksUpTo(outcomes, |Rules|)
    ensures issues == Issues(FailedUpTo(outcomes, |Rules|))
    ensures recommendations == Recommendations(FailedUpTo(outcomes, |Rules|))
  {
    checks, issues, recommendations := map[], [], [];
    RecordStep(outcomes, 1, checks, issues, recommendations);
    checks, issues, recommendations := RecordCheck(checks, issues, recommendations, Rules[0], outcomes[0]);
    RecordStep(outcomes, 2, checks, issues, recommendations);
    checks, issues, recommendations := RecordCheck(checks, issues, recommendations, Rules[1], outcomes[1]);
    RecordStep(outcomes, 3, checks, issues, recommendations);
    checks, issues, recommendations := RecordCheck(checks, issues, recommendations, Rules[2], outcomes[2]);
    RecordStep(outcomes, 4, checks, issues, recommendations);
    checks, issues, recommendations := RecordCheck(checks, issues, recommendations, Rules[3], outcomes[3]);
    RecordStep(outcomes, 5, checks, issues, recommendations);
    checks, issues, recommendations := RecordCheck(checks, issues, recommendations, Rules[4], outcomes[4]);
  }

  /**
   * The body of `health_check()` once the five checks are known: every
   * failing check adds one issue and one recommendation, in check order, and
   * the overall health is critical when a script is missing, degraded when
   * the service is not running, a warning when anything else failed, and
   * healthy otherwise.
   */
  method AssessChecks(outcomes: seq<bool>, now: string) returns (h: ServiceHealth)
    requires |outcomes| == |Rules|
    ensures h.checks.Keys == set i | 0 <= i < |Rules| :: Rules[i].key
    ensures forall i :: 0 <= i < |Rules| ==> h.checks[Rules[i].key] == outcomes[i]
    ensures h.issues == Issues(FailedUpTo(outcomes, |Rules|))
    ensures h.recommendations == Recommendations(FailedUpTo(outcomes, |Rules|))
    ensures h.overallHealth == Classify(outcomes)
    ensures h.lastCheck == now
  {
    var checks, issues, recommendations := RecordChecks(outcomes);
    ChecksUpToKeys(outcomes, |Rules|);
    ChecksUpToValues(outcomes, |Rules|);
    var overall := "healthy";
    if !checks[Rules[0].key] || !checks[Rules[1].key] {
      overall := "critical";
    } else if !checks[Rules[3].key] {
      overall := "degraded";
    } else if |issues| > 0 {
      overall := "warning";
    }
    FailedUpToEmpty(outcomes, |Rules|);
    assert outcomes[..|Rules|] == outcomes;
    h := ServiceHealth(overall, checks, issues, recommendations, now);
  }

  /** Neither script probe of `health_check()` raises. */
  predicate NoExistsError(inst: Installation) {
    inst.serviceExistsError.None? && inst.greythrExistsError.None?
  }

  /** The answer of `health_check()` once an exception was caught. */
  function HealthError(error: string, now: string): ServiceHealth {
    ServiceHealth("error", map["health_check_error" := false], ["Health check failed: " + error],
                  ["Check system logs and permissions"], now)
  }

  /**
   * `health_check()`: the checks are, in order, that the service script
   * exists, that the attendance script exists, that the configuration is
   * valid, that the service runs, and that its state file is readable; an
   * exception from either script check gives the "error" health instead.
   */
  method HealthCheck(inst: Installation, now: string) returns (h: ServiceHealth)
    ensures inst.serviceExistsError.Some? ==> h == HealthError(inst.serviceExistsError.value, now)
    ensures inst.serviceExistsError.None? && inst.greythrExistsError.Some?
            ==> h == HealthError(inst.greythrExistsError.value, now)
    ensures NoExistsError(inst) ==> h.checks.Keys == set i | 0 <= i < |Rules| :: Rules[i].key
    ensures NoExistsError(inst) ==> forall i :: 0 <= i < |Rules| ==> h.checks[Rules[i].key] == Outcomes(inst)[i]
    ensures NoExistsError(inst) ==> h.issues == Issues(FailedUpTo(Outcomes(inst), |Rules|))
    ensures NoExistsError(inst) ==> h.recommendations == Recommendations(FailedUpTo(Outcomes(inst), |Rules|))
    ensures NoExistsError(inst) ==> h.overallHealth == Classify(Outcomes(inst))
    ensures h.lastCheck == now
  {
    if inst.serviceExistsError.Some? {
      return HealthError(inst.serviceExistsError.value, now);
    }
    if inst.greythrExistsError.Some? {
      return HealthError(inst.greythrExistsError.value, now);
    }
    var status := ServiceStatusOf(inst);
    var outcomes := [inst.serviceScriptExists, inst.greythrScriptExists, ConfigValid(inst.envFile),
                     status.isRunning, inst.state.Some?];
    h := AssessChecks(outcomes, now);
  }

  /** No failed check among the first `n` exactly when the first `n` outcomes all hold. */
  lemma {:induction false} FailedUpToEmpty(outcomes: seq<bool>, n: nat)
    requires n <= |outcomes| == |Rules|
    ensures FailedUpTo(outcomes, n) == [] <==> false !in outcomes[..n]
  {
    if n > 0 {
      FailedUpToEmpty(outcomes, n - 1);
      assert outcomes[..n] == outcomes[..n - 1] + [outcomes[n - 1]];
    }
  }

  /** As many issues and recommendations as there are failed checks. */
  lemma {:induction false} FailedUpToCount(outcomes: seq<bool>, n: nat)
    requires n <= |outcomes| == |Rules|
    ensures |FailedUpTo(outcomes, n)| == FalseCount(outcomes[..n])
  {
    if n > 0 {
      FailedUpToCount(outcomes, n - 1);
      FalseCountSnoc(outcomes[..n - 1], outcomes[n - 1]);
      assert outcomes[..n] == outcomes[..n - 1] + [outcomes[n - 1]];
    }
  }

  lemma {:induction false} FalseCountSnoc(s: seq<bool>, b: bool)
    ensures FalseCount(s + [b]) == FalseCount(s) + (if b then 0 else 1)
  {
    if s != [] {
      assert (s + [b])[1..] == s[1..] + [b];
      FalseCountSnoc(s[1..], b);
    }
  }

  /** The health check reports as many issues and recommendations as checks failed. */
  lemma HealthCheckCounts(inst: Installation)
    ensures |Issues(FailedUpTo(Outcomes(inst), |Rules|))| == FalseCount(Outcomes(inst))
    ensures |Recommendations(FailedUpTo(Outcomes(inst), |Rules|))| == FalseCount(Outcomes(inst))
  {
    FailedUpToCount(Outcomes(inst), |Rules|);
    assert Outcomes(inst)[..|Rules|] == Outcomes(inst);
  }

  /** Healthy exactly when every check passed; critical exactly when a script is missing. */
  lemma ClassifyHealthy(outcomes: seq<bool>)
    requires |outcomes| == |Rules|
    ensures Classify(outcomes) == "healthy" <==> forall i :: 0 <= i < |outcomes| ==> outcomes[i]
    ensures Classify(outcomes) == "critical" <==> !outcomes[0] || !outcomes[1]
    ensures Classify(outcomes) == "degraded" <==> outcomes[0] && outcomes[1] && !outcomes[3]
  {
    if forall i :: 0 <= i < |outcomes| ==> outcomes[i] {
      assert false !in outcomes;
    }
  }

  // ---------------------------------------------------------------------------
  // _execute_greythr_script and force_catchup
  // ---------------------------------------------------------------------------

  /** The result dict of `_execute_greythr_script`. */
  datatype ScriptResult = ScriptResult(success: bool, message: string, attendanceTime: Option<string>)

  /** The phrases whose presence in the script's output means attendance was marked. */
  const Phrases: seq<string> := ["successful", "completed", "✅", "sign in completed", "sign out completed"]

  /** Some phrase of the output names a completed attendance action. */
  predicate AttendanceReported(output: string) {
    exists i :: 0 <= i < |Phrases| && Contains(Lower(output), Phrases[i])
  }

  /** `any(phrase in text for phrase in phrases)` */
  function AnyPhrase(text: string, phrases: seq<string>): (r: bool)
    ensures r <==> exists i :: 0 <= i < |phrases| && Contains(text, phrases[i])
  {
    if phrases == [] then false
    else if Contains(text, phrases[0]) then true
    else
      var r := AnyPhrase(text, phrases[1..]);
      assert forall i :: 1 <= i < |phrases| ==> phrases[i] == phrases[1..][i - 1];
      r
  }

  /**
   * `_execute_greythr_script(option)`: success needs return code 0 and one
   * of the phrases in the lower-cased stdout and stderr; the attendance time
   * is set exactly when a phrase was found; the message is the stripped
   * stdout, or the stripped stderr when stdout is blank. A missing script,
   * the timeout and an exception each have their own failure message.
   */
  function ExecuteGreythrScript(scriptExists: bool, run: RunOutcome, now: string): (r: ScriptResult)
    ensures !scriptExists ==> r == ScriptResult(false, "GreytHR script not found", None)
    ensures scriptExists && run.TimedOut? ==> r == ScriptResult(false, "Operation timed out", None)
    ensures scriptExists && run.Raised? ==> r == ScriptResult(false, "Script execution failed: " + run.error, None)
    ensures scriptExists && run.Finished? ==>
              var output := Strip(run.stdout) + Strip(run.stderr);
              && (r.success <==> run.returnCode == 0 && AttendanceReported(output))
              && (r.attendanceTime.Some? <==> AttendanceReported(output))
              && (r.attendanceTime.Some? ==> r.attendanceTime.value == now)
              && r.message == (if Strip(run.stdout) != [] then Strip(run.stdout) else Strip(run.stderr))
  {
    if !scriptExists then ScriptResult(false, "GreytHR script not found", None)
    else match run
      case TimedOut => ScriptResult(false, "Operation timed out", None)
      case Raised(e) => ScriptResult(false, "Script execution failed: " + e, None)
      case Finished(code, out, err) =>
        var stdoutText := Strip(out);
        var stderrText := Strip(err);
        var found := AnyPhrase(Lower(stdoutText + stderrText), Phrases);
        ScriptResult(code == 0 && found, if stdoutText != [] then stdoutText else stderrText,
                     if found then Some(now) else None)
  }

  lemma ContainsTail(s: string, head: string, tail: string)
    requires Contains(s, head + tail)
    ensures Contains(s, tail)
  {
    var i := ContainsWitness(s, head + tail);
    assert s[i + |head|..i + |head| + |tail|] == (head + tail)[|head|..];
    ContainsAt(s, tail, i + |head|);
  }

  /** The two "sign … completed" phrases add nothing: "completed" alone already matches them. */
  lemma AttendancePhrasesReduce(output: string)
    ensures AttendanceReported(output) <==> (Contains(Lower(output), "successful") || Contains(Lower(output), "completed")
                                             || Contains(Lower(output), "✅"))
  {
    var l := Lower(output);
    if Contains(l, "sign in completed") {
      assert "sign in completed" == "sign in " + "completed";
      ContainsTail(l, "sign in ", "completed");
    }
    if Contains(l, "sign out completed") {
      assert "sign out completed" == "sign out " + "completed";
      ContainsTail(l, "sign out ", "completed");
    }
    if Contains(l, "successful") { assert Contains(l, Phrases[0]); }
    if Contains(l, "completed") { assert Contains(l, Phrases[1]); }
    if Contains(l, "✅") { assert Contains(l, Phrases[2]); }
  }

  /** `CatchupResponse`. */
  datatype CatchupResponse = CatchupResponse(
    success: bool,
    actionsTaken: seq<string>,
    message: string,
    timestamp: string,
    signinAttempted: bool,
    signoutAttempted: bool)

  /**
   * The body of `force_catchup()` once the script has run: only a successful
   * run reports actions, and it reports a sign-in or sign-out attempt
   * exactly when the lower-cased message names one.
   */
  method CatchupFrom(result: ScriptResult, now: string) returns (r: CatchupResponse)
    ensures r.success == result.success && r.message == result.message && r.timestamp == now
    ensures !result.success ==> r.actionsTaken == [] && !r.signinAttempted && !r.signoutAttempted
    ensures result.success ==>
              && (r.signinAttempted <==> Contains(Lower(result.message), "sign-in"))
              && (r.signoutAttempted <==> Contains(Lower(result.message), "sign-out"))
              && r.actionsTaken == ["Catchup check completed"]
                                   + (if r.signinAttempted then ["Sign-in attempted"] else [])
                                   + (if r.signoutAttempted then ["Sign-out attempted"] else [])
  {
    var actions: seq<string> := [];
    var signin := false;
    var signout := false;
    if result.success {
      actions := ["Catchup check completed"];
      var lowered := Lower(result.message);
      if Contains(lowered, "sign-in") {
        signin := true;
        actions := actions + ["Sign-in attempted"];
      }
      if Contains(lowered, "sign-out") {
        signout := true;
        actions := actions + ["Sign-out attempted"];
      }
    }
    r := CatchupResponse(result.success, actions, result.message, now, signin, signout);
  }

  /** `force_catchup()`: runs option 7 of the attendance script and reads its result. */
  method ForceCatchup(inst: Installation, run: RunOutcome, now: string) returns (r: CatchupResponse)
    ensures var res := ExecuteGreythrScript(inst.greythrScriptExists, run, now);
            && r.success == res.success
            && r.message == res.message
            && r.timestamp == now
            && (!res.success ==> r.actionsTaken == [] && !r.signinAttempted && !r.signoutAttempted)
            && (res.success ==>
                  && (r.signinAttempted <==> Contains(Lower(res.message), "sign-in"))
                  && (r.signoutAttempted <==> Contains(Lower(res.message), "sign-out"))
                  && r.actionsTaken == ["Catchup check completed"]
                                       + (if r.signinAttempted then ["Sign-in attempted"] else [])
                                       + (if r.signoutAttempted then ["Sign-out attempted"] else []))
  {
    var result := ExecuteGreythrScript(inst.greythrScriptExists, run, now);
    r := CatchupFrom(result, now);
  }

  // ---------------------------------------------------------------------------
  // _execute_service_action
  // ---------------------------------------------------------------------------

  /** `ServiceActionResponse`; the measured duration is left out. */
  datatype ActionResponse = ActionResponse(
    success: bool,
    action: string,
    message: string,
    details: Option<string>,
    timestamp: string)

  /**
   * `_execute_service_action(action)`: runs `greythr_service.sh --<action>`;
   * success is return code 0; the message is the stripped stdout on success
   * and the stripped stderr on failure, or a stock sentence when that is
   * blank; stderr of a successful run becomes the details. A missing
   * script, the timeout and an exception each have their own failure message.
   */
  function ExecuteServiceAction(action: string, scriptExists: bool, run: RunOutcome, now: string): (r: ActionResponse)
    ensures r.action == action && r.timestamp == now
    ensures !scriptExists ==> r == ActionResponse(false, action, "Service script not found", None, now)
    ensures scriptExists && run.TimedOut? ==> r == ActionResponse(false, action, "Service " + action + " timed out", None, now)
    ensures scriptExists && run.Raised? ==> r == ActionResponse(false, action, "Service " + action + " failed: " + run.error, None, now)
    ensures scriptExists && run.Finished? ==>
              && (r.success <==> run.returnCode == 0)
              && r.message != []
              && (r.success && Strip(run.stdout) != [] ==> r.message == Strip(run.stdout))
              && (!r.success && Strip(run.stderr) != [] ==> r.message == Strip(run.stderr))
              && (r.success && Strip(run.stdout) == [] ==> r.message == "Service " + action + " completed")
              && (!r.success && Strip(run.stderr) == [] ==> r.message == "Service " + action + " failed")
              && (r.details.Some? <==> r.success && Strip(run.stderr) != [])
              && (r.details.Some? ==> r.details.value == Strip(run.stderr))
  {
    if !scriptExists then ActionResponse(false, action, "Service script not found", None, now)
    else match run
      case TimedOut => ActionResponse(false, action, "Service " + action + " timed out", None, now)
      case Raised(e) => ActionResponse(false, action, "Service " + action + " failed: " + e, None, now)
      case Finished(code, out, err) =>
        var success := code == 0;
        var stdoutText := Strip(out);
        var stderrText := Strip(err);
        var message := if success then stdoutText else stderrText;
        var message' := if message != [] then message
                        else if success then "Service " + action + " completed"
                        else "Service " + action + " failed";
        ActionResponse(success, action, message', if success && stderrText != [] then Some(stderrText) else None, now)
  }

  /** The reply to a reset that was not confirmed. */
  function UnconfirmedReset(now: string): ActionResponse {
    ActionResponse(false, "reset", "Reset operation requires confirmation", None, now)
  }

  // ---------------------------------------------------------------------------
  // The repository object, as the service controller sees it
  // ---------------------------------------------------------------------------

  /** A call the controller made on the repository. */
  datatype Call = StatusCall | StartCall | StopCall | RestartCall | ResetCall(confirm: bool)

  /**
   * `ServiceRepository` over one installation, with the outcome its next
   * service-script run would have; `calls` records the operations invoked
   * on it, in order.
   */
  class Repository {
    var calls: seq<Call>
    const inst: Installation
    const run: RunOutcome
    const now: string

    constructor(inst: Installation, run: RunOutcome, now: string)
      ensures calls == [] && this.inst == inst && this.run == run && this.now == now
    {
      calls := [];
      this.inst := inst;
      this.run := run;
      this.now := now;
    }

    /** `get_service_status()` */
    method GetServiceStatus() returns (s: ServiceStatus)
      modifies this
      ensures calls == old(calls) + [StatusCall]
      ensures s == ServiceStatusOf(inst)
    {
      calls := calls + [StatusCall];
      s := ServiceStatusOf(inst);
    }

    /** `start_service()` */
    method StartService() returns (r: ActionResponse)
      modifies this
      ensures calls == old(calls) + [StartCall]
      ensures r == ExecuteServiceAction("start", inst.serviceScriptExists, run, now)
    {
      calls := calls + [StartCall];
      r := ExecuteServiceAction("start", inst.serviceScriptExists, run, now);
    }

    /** `stop_service()` */
    method StopService() returns (r: ActionResponse)
      modifies this
      ensures calls == old(calls) + [StopCall]
      ensures r == ExecuteServiceAction("stop", inst.serviceScriptExists, run, now)
    {
      calls := calls + [StopCall];
      r := ExecuteServiceAction("stop", inst.serviceScriptExists, run, now);
    }

    /** `restart_service()` */
    method RestartService() returns (r: ActionResponse)
      modifies this
      ensures calls == old(calls) + [RestartCall]
      ensures r == ExecuteServiceAction("restart", inst.serviceScriptExists, run, now)
    {
      calls := calls + [RestartCall];
      r := ExecuteServiceAction("restart", inst.serviceScriptExists, run, now);
    }

    /** `reset_service(confirm)`: refuses without confirmation, else runs the reset. */
    method ResetService(confirm: bool) returns (r: ActionResponse)
      modifies this
      ensures calls == old(calls) + [ResetCall(confirm)]
      ensures !confirm ==> r == UnconfirmedReset(now)
      ensures confirm ==> r == ExecuteServiceAction("reset", inst.serviceScriptExists, run, now)
    {
      calls := calls + [ResetCall(confirm)];
      if !confirm {
        r := UnconfirmedReset(now);
      } else {
        r := ExecuteServiceAction("reset", inst.serviceScriptExists, run, now);
      }
    }
  }
}
