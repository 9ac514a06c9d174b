/**
 * The business rules the service page applies around the service
 * repository: the prerequisites of starting and restarting, the guards that
 * keep a start or stop from running twice, the confirmation a reset needs,
 * and the prefix a successful action's message receives.
 */
module ServiceController {
  import opened Common
  import opened ServiceRepository

  // ---------------------------------------------------------------------------
  // _validate_service_prerequisites
  // ---------------------------------------------------------------------------

  /** The dict `{'valid': ..., 'message': ...}`. */
  datatype Prerequisites = Prerequisites(valid: bool, message: string)

  /**
   * `_validate_service_prerequisites()`: `.env` is checked first, then the
   * service script; each missing item has its own message.
   */
  function CheckPrerequisites(envExists: bool, scriptExists: bool): (r: Prerequisites)
    ensures r.valid <==> envExists && scriptExists
    ensures !envExists ==> r.message == ".env file not found. Create configuration first."
    ensures envExists && !scriptExists ==> r.message == "Service script not found. Check installation."
    ensures r.valid ==> r.message == "Prerequisites met"
  {
    if !envExists then Prerequisites(false, ".env file not found. Create configuration first.")
    else if !scriptExists then Prerequisites(false, "Service script not found. Check installation.")
    else Prerequisites(true, "Prerequisites met")
  }

  /** The prerequisites of an installation. */
  function PrerequisitesOf(inst: Installation): Prerequisites {
    CheckPrerequisites(inst.envFile.Some?, inst.serviceScriptExists)
  }

  // ---------------------------------------------------------------------------
  // _enhance_action_result
  // ---------------------------------------------------------------------------

  /** The sentence put before the message of a successful action; None for an unknown action. */
  function ActionPrefix(action: string): (r: Option<string>)
    ensures r.Some? <==> action in ["start", "stop", "restart", "reset"]
  {
    if action == "start" then Some("✅ Service started successfully. ")
    else if action == "stop" then Some("🛑 Service stopped successfully. ")
    else if action == "restart" then Some("🔄 Service restarted successfully. ")
    else if action == "reset" then Some("♻️ Service reset completed. ")
    else None
  }

  /**
   * `_enhance_action_result(result, action)`: a successful result of a known
   * action gets the action's sentence before its message; every other
   * field, and every other result, is kept.
   */
  function EnhanceActionResult(result: ActionResponse, action: string): (r: ActionResponse)
    ensures r.success == result.success && r.action == result.action && r.details == result.details
    ensures r.timestamp == result.timestamp
    ensures EndsWith(r.message, result.message)
    ensures !result.success || ActionPrefix(action).None? ==> r == result
    ensures result.success && ActionPrefix(action).Some? ==>
              StartsWith(r.message, ActionPrefix(action).value)
              && |r.message| == |ActionPrefix(action).value| + |result.message|
  {
    if result.success && ActionPrefix(action).Some? then
      var m := ActionPrefix(action).value + result.message;
      assert m[|m| - |result.message|..] == result.message;
      result.(message := m)
    else result
  }

  /** The original message is what follows the sentence; the sentence itself names the action. */
  lemma {:induction false} EnhancedMessageRecovers(result: ActionResponse, action: string)
    requires result.success && ActionPrefix(action).Some?
    ensures EnhanceActionResult(result, action).message[|ActionPrefix(action).value|..] == result.message
  {
    var p := ActionPrefix(action).value;
    var m := EnhanceActionResult(result, action).message;
    assert m == p + result.message;
  }

  // ---------------------------------------------------------------------------
  // The controller
  // ---------------------------------------------------------------------------

  /** The reply the controller builds itself, without running an action. */
  function Refusal(success: bool, action: string, message: string, now: string): ActionResponse {
    ActionResponse(success, action, message, None, now)
  }

  /** `ServiceController` over a repository that records the calls it receives. */
  class Controller {
    const repository: Repository

    constructor(repository: Repository)
      ensures this.repository == repository
    {
      this.repository := repository;
    }

    /**
     * `start_service(force)`: blocked when a prerequisite is missing; without
     * `force`, refused when the service already runs; otherwise the
     * repository starts the service and the result is enhanced.
     */
    method StartService(force: bool) returns (r: ActionResponse)
      modifies repository
      ensures var pre := PrerequisitesOf(repository.inst);
              && (!pre.valid ==>
                    && repository.calls == old(repository.calls)
                    && r == Refusal(false, "start", "Service start blocked: " + pre.message, repository.now))
              && (pre.valid && !force && ServiceStatusOf(repository.inst).isRunning ==>
                    && repository.calls == old(repository.calls) + [StatusCall]
                    && r == Refusal(false, "start", "Service is already running. Use force=true to restart.", repository.now))
              && (pre.valid && !force && !ServiceStatusOf(repository.inst).isRunning ==>
                    repository.calls == old(repository.calls) + [StatusCall, StartCall])
              && (pre.valid && force ==> repository.calls == old(repository.calls) + [StartCall])
              && (pre.valid && (force || !ServiceStatusOf(repository.inst).isRunning) ==>
                    r == EnhanceActionResult(ExecuteServiceAction("start", repository.inst.serviceScriptExists,
                                                                  repository.run, repository.now), "start"))
    {
      var validation := PrerequisitesOf(repository.inst);
      if !validation.valid {
        return Refusal(false, "start", "Service start blocked: " + validation.message, repository.now);
      }
      if !force {
        var current := repository.GetServiceStatus();
        if current.isRunning {
          return Refusal(false, "start", "Service is already running. Use force=true to restart.", repository.now);
        }
      }
      var result := repository.StartService();
      r := EnhanceActionResult(result, "start");
    }

    /**
     * `stop_service(force)`: without `force`, a service that is not running
     * is reported as already stopped, with success; otherwise the repository
     * stops the service and the result is enhanced.
     */
    method StopService(force: bool) returns (r: ActionResponse)
      modifies repository
      ensures !force && !ServiceStatusOf(repository.inst).isRunning ==>
                && repository.calls == old(repository.calls) + [StatusCall]
                && r == Refusal(true, "stop", "Service is already stopped.", repository.now)
      ensures !force && ServiceStatusOf(repository.inst).isRunning ==>
                repository.calls == old(repository.calls) + [StatusCall, StopCall]
      ensures force ==> repository.calls == old(repository.calls) + [StopCall]
      ensures force || ServiceStatusOf(repository.inst).isRunning ==>
                r == EnhanceActionResult(ExecuteServiceAction("stop", repository.inst.serviceScriptExists,
                                                              repository.run, repository.now), "stop")
    {
      if !force {
        var current := repository.GetServiceStatus();
        if !current.isRunning {
          return Refusal(true, "stop", "Service is already stopped.", repository.now);
        }
      }
      var result := repository.StopService();
      r := EnhanceActionResult(result, "stop");
    }

    /** `restart_service()`: blocked when a prerequisite is missing, else restarts and enhances. */
    method RestartService() returns (r: ActionResponse)
      modifies repository
      ensures var pre := PrerequisitesOf(repository.inst);
              && (!pre.valid ==>
                    && repository.calls == old(repository.calls)
                    && r == Refusal(false, "restart", "Service restart blocked: " + pre.message, repository.now))
              && (pre.valid ==>
                    && repository.calls == old(repository.calls) + [RestartCall]
                    && r == EnhanceActionResult(ExecuteServiceAction("restart", repository.inst.serviceScriptExists,
                                                                     repository.run, repository.now), "restart"))
    {
      var validation := PrerequisitesOf(repository.inst);
      if !validation.valid {
        return Refusal(false, "restart", "Service restart blocked: " + validation.message, repository.now);
      }
      var result := repository.RestartService();
      r := EnhanceActionResult(result, "restart");
    }

    /** `reset_service(confirm)`: refused without confirmation, before the repository is asked. */
    method ResetService(confirm: bool) returns (r: ActionResponse)
      modifies repository
      ensures !confirm ==>
                && repository.calls == old(repository.calls)
                && r == Refusal(false, "reset", "Reset operation requires explicit confirmation (destructive operation)",
                                repository.now)
      ensures confirm ==>
                && repository.calls == old(repository.calls) + [ResetCall(true)]
                && r == EnhanceActionResult(ExecuteServiceAction("reset", repository.inst.serviceScriptExists,
                                                                 repository.run, repository.now), "reset")
    {
      if !confirm {
        return Refusal(false, "reset", "Reset operation requires explicit confirmation (destructive operation)",
                       repository.now);
      }
      var result := repository.ResetService(confirm);
      r := EnhanceActionResult(result, "reset");
    }
  }
}
