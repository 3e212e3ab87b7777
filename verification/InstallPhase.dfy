/** internal/agent/phase/install.go: the installation.
    Waiting times are not modelled. The ghost argument `quiet` is a call number from which no call fails any more. */
module InstallPhase {
  import opened Common
  import opened Objects
  import opened AgentProtocol
  import opened RetryLoops
  import opened Agent

  lemma CloudConfigHappened(log: seq<Event>, n: nat, done: nat)
    requires n <= |log| && done > 0 && ProgressOf(InstallRetry, log, n) == Going(None, done)
    ensures exists i :: 0 <= i < |log| && CloudConfigured(log[i])
  {
    ProgressMeans(InstallRetry, log, n);
    var at: seq<nat> :| |at| == done && StepsDone(InstallRetry, log, n, at);
    assert Once(InstallRetry, log, n, 0, at[0]);
    assert CloudConfigured(log[at[0]]);
  }

  lemma InstallHappened(log: seq<Event>, n: nat)
    requires n <= |log| && ProgressOf(InstallRetry, log, n) == Going(None, 2)
    ensures WasInstalled(log)
  {
    ProgressMeans(InstallRetry, log, n);
    var at: seq<nat> :| |at| == 2 && StepsDone(InstallRetry, log, n, at);
    assert Once(InstallRetry, log, n, 0, at[0]) && Once(InstallRetry, log, n, 1, at[1])
           && InTurn(InstallRetry, log[at[1]], at[1], at);
    assert CloudConfigured(log[at[0]]) && log[at[1]].op.Install? && log[at[1]].ok;
  }

  lemma FailureIsLast(log: seq<Event>, n: nat, failed: Op, done: nat)
    requires n <= |log| && ProgressOf(InstallRetry, log, n) == Going(Some(failed), done)
    ensures |log| > 0 && ReasonMatches(log, InstallFailure(failed))
  {
    ProgressMeans(InstallRetry, log, n);
  }

  lemma FetchStands(log: seq<Event>, registration: Registration, e: Event)
    requires FetchedThisRound(log, registration) && e.ok && (e.op.Marshal? || e.op.InstallCloudInit?)
    ensures FetchedThisRound(log + [e], registration)
  {
    var i :| 0 <= i < |log| && log[i] == Event(GetRegistration(registration), true)
             && forall q :: i < q < |log| ==> log[q].ok && (log[q].op.Marshal? || log[q].op.InstallCloudInit?);
    assert (log + [e])[i] == Event(GetRegistration(registration), true);
  }

  class InstallHandler {
    const agentContext: AgentContext

    constructor (agentContext: AgentContext)
      ensures this.agentContext == agentContext
    {
      this.agentContext := agentContext;
    }

    method Install(ghost quiet: nat)
      requires agentContext.Valid() && QuietFrom(agentContext.env, quiet)
      modifies agentContext`log
      ensures agentContext.Valid() && old(agentContext.log) < agentContext.log
      ensures agentContext.log[|old(agentContext.log)|].op == SetPhase(Installing)
      ensures RetrySession(InstallRetry, agentContext.log, |old(agentContext.log)| + 1)
    {
      agentContext.ReportPhase(Installing);
      InstallLoop(quiet);
      ProgressMeans(InstallRetry, agentContext.log, |old(agentContext.log)| + 1);
    }

    method InstallLoop(ghost quiet: nat)
      requires agentContext.Valid() && QuietFrom(agentContext.env, quiet)
      modifies agentContext`log
      ensures agentContext.Valid() && old(agentContext.log) <= agentContext.log
      ensures ProgressOf(InstallRetry, agentContext.log, |old(agentContext.log)|) == Over
    {
      ghost var base := agentContext.log;
      ghost var failed: Option<Op> := None;
      ghost var done := 0;
      var cloudConfigAlreadyApplied := false;
      var alreadyInstalled := false;
      var installationError := false;
      var installationErrorReason := InstallationFailed;
      while true
        invariant agentContext.Valid() && base <= agentContext.log
        invariant done == Done(cloudConfigAlreadyApplied, alreadyInstalled)
                  && (alreadyInstalled ==> cloudConfigAlreadyApplied)
        invariant ProgressOf(InstallRetry, agentContext.log, |base|) == Going(failed, done)
        invariant installationError <==> failed.Some?
        invariant failed.Some? ==> installationErrorReason == InstallFailure(failed.value)
        decreases quiet - |agentContext.log|
      {
        if installationError {
          ReportFailure(installationErrorReason, base, failed.value, done);
          installationError := false;
        }
        var ok;
        ok, cloudConfigAlreadyApplied, alreadyInstalled, installationErrorReason, failed :=
          ApplyAndInstall(cloudConfigAlreadyApplied, alreadyInstalled, base);
        if ok {
          ok := ReportInstalled(base);
          if ok {
            break;
          }
          failed := Some(PatchInstalled);
        }
        FailsBeforeQuiet(agentContext.env, quiet, |agentContext.log| - 1);
        installationError, done := true, Done(cloudConfigAlreadyApplied, alreadyInstalled);
      }
    }

    function Done(cloudConfigAlreadyApplied: bool, alreadyInstalled: bool): nat {
      if alreadyInstalled then 2 else if cloudConfigAlreadyApplied then 1 else 0
    }

    /** The steps that are still to be done, with the registration as it is now. */
    method ApplyAndInstall(cloudConfigAlreadyApplied: bool, alreadyInstalled: bool, ghost base: seq<Event>)
      returns (ok: bool, cloudConfigApplied: bool, installed: bool, errorReason: Reason, ghost failed: Option<Op>)
      requires agentContext.Valid() && base <= agentContext.log && (alreadyInstalled ==> cloudConfigAlreadyApplied)
      requires ProgressOf(InstallRetry, agentContext.log, |base|)
               == Going(None, Done(cloudConfigAlreadyApplied, alreadyInstalled))
      modifies agentContext`log
      ensures agentContext.Valid() && base <= agentContext.log && |old(agentContext.log)| <= |agentContext.log|
      ensures ProgressOf(InstallRetry, agentContext.log, |base|) == Going(failed, Done(cloudConfigApplied, installed))
      ensures (installed ==> cloudConfigApplied) && (ok <==> failed.None?)
      ensures if ok then installed && errorReason == InstallationFailed
              else errorReason == InstallFailure(failed.value) && !agentContext.env.ok(|agentContext.log| - 1)
                   && |old(agentContext.log)| < |agentContext.log|
    {
      cloudConfigApplied, installed := cloudConfigAlreadyApplied, alreadyInstalled;
      errorReason := InstallationFailed;
      ok, failed := true, None;
      var registration: Option<Registration> := None;
      if !cloudConfigApplied || !installed {
        registration, failed := FetchRegistration(base, Done(cloudConfigApplied, installed));
        if registration.None? {
          ok := false;
          return;
        }
      }
      if !cloudConfigApplied {
        ok, failed := ApplyCloudConfig(registration.value, base);
        if !ok {
          errorReason := CloudConfigInstallationFailed;
          return;
        }
        cloudConfigApplied := true;
      }
      if !installed {
        ok, failed := InstallSystem(registration.value, base);
        if !ok {
          return;
        }
        installed := true;
      }
    }

    /** Best effort, before the next attempt. */
    method ReportFailure(reason: Reason, ghost base: seq<Event>, ghost failed: Op, ghost done: nat)
      requires agentContext.Valid() && base <= agentContext.log
      requires ProgressOf(InstallRetry, agentContext.log, |base|) == Going(Some(failed), done)
      requires reason == InstallFailure(failed)
      modifies agentContext`log
      ensures agentContext.Valid() && base <= agentContext.log && |old(agentContext.log)| < |agentContext.log|
      ensures ProgressOf(InstallRetry, agentContext.log, |base|) == Going(None, done)
    {
      FailureIsLast(agentContext.log, |base|, failed, done);
      agentContext.UpdateCondition(InstallationReady, false, reason);
      Advances(InstallRetry, old(agentContext.log), |base|, agentContext.log[|agentContext.log| - 1]);
    }

    method FetchRegistration(ghost base: seq<Event>, ghost done: nat)
      returns (registration: Option<Registration>, ghost failed: Option<Op>)
      requires agentContext.Valid() && base <= agentContext.log
               && ProgressOf(InstallRetry, agentContext.log, |base|) == Going(None, done)
      modifies agentContext`log
      ensures agentContext.Valid() && base <= agentContext.log && |old(agentContext.log)| < |agentContext.log|
      ensures ProgressOf(InstallRetry, agentContext.log, |base|) == Going(failed, done)
      ensures if registration.Some?
              then failed.None? && Last(agentContext.log, Event(GetRegistration(registration.value), true))
                   && FetchedThisRound(agentContext.log, registration.value)
              else failed.Some? && InstallFailure(failed.value) == InstallationFailed
                   && !agentContext.env.ok(|agentContext.log| - 1)
    {
      registration := agentContext.FetchRegistration();
      ghost var e := agentContext.log[|agentContext.log| - 1];
      Advances(InstallRetry, old(agentContext.log), |base|, e);
      failed := if e.ok then None else Some(e.op);
    }

    method ApplyCloudConfig(registration: Registration, ghost base: seq<Event>)
      returns (ok: bool, ghost failed: Option<Op>)
      requires agentContext.Valid() && base <= agentContext.log
               && ProgressOf(InstallRetry, agentContext.log, |base|) == Going(None, 0)
      requires Last(agentContext.log, Event(GetRegistration(registration), true))
               && FetchedThisRound(agentContext.log, registration)
      modifies agentContext`log
      ensures agentContext.Valid() && base <= agentContext.log && |old(agentContext.log)| < |agentContext.log|
      ensures ProgressOf(InstallRetry, agentContext.log, |base|) == Going(failed, if ok then 1 else 0)
      ensures if ok then failed.None? && FetchedThisRound(agentContext.log, registration)
              else failed.Some? && InstallFailure(failed.value) == CloudConfigInstallationFailed
                   && !agentContext.env.ok(|agentContext.log| - 1)
    {
      ghost var log0 := agentContext.log;
      ok := agentContext.Call(Marshal(CloudConfigDocument));
      Advances(InstallRetry, log0, |base|, Event(Marshal(CloudConfigDocument), ok));
      if !ok {
        return ok, Some(Marshal(CloudConfigDocument));
      }
      FetchStands(log0, registration, Event(Marshal(CloudConfigDocument), ok));
      ghost var log1 := agentContext.log;
      ok := agentContext.Call(InstallCloudInit(registration.cloudConfig));
      Advances(InstallRetry, log1, |base|, Event(InstallCloudInit(registration.cloudConfig), ok));
      if !ok {
        return ok, Some(InstallCloudInit(registration.cloudConfig));
      }
      FetchStands(log1, registration, Event(InstallCloudInit(registration.cloudConfig), ok));
      failed := None;
    }

    method InstallSystem(registration: Registration, ghost base: seq<Event>)
      returns (ok: bool, ghost failed: Option<Op>)
      requires agentContext.Valid() && base <= agentContext.log
               && ProgressOf(InstallRetry, agentContext.log, |base|) == Going(None, 1)
      requires FetchedThisRound(agentContext.log, registration)
      modifies agentContext`log
      ensures agentContext.Valid() && base <= agentContext.log && |old(agentContext.log)| < |agentContext.log|
      ensures ProgressOf(InstallRetry, agentContext.log, |base|) == Going(failed, if ok then 2 else 1)
      ensures if ok then failed.None?
              else failed.Some? && InstallFailure(failed.value) == InstallationFailed
                   && !agentContext.env.ok(|agentContext.log| - 1)
    {
      ghost var log0 := agentContext.log;
      ok := agentContext.Call(Marshal(InstallDocument));
      Advances(InstallRetry, log0, |base|, Event(Marshal(InstallDocument), ok));
      if !ok {
        return ok, Some(Marshal(InstallDocument));
      }
      FetchStands(log0, registration, Event(Marshal(InstallDocument), ok));
      ghost var log1 := agentContext.log;
      CloudConfigHappened(log1, |base|, 1);
      ok := agentContext.Call(Op.Install(registration.install));
      Advances(InstallRetry, log1, |base|, Event(Op.Install(registration.install), ok));
      failed := if ok then None else Some(Op.Install(registration.install));
    }

    method ReportInstalled(ghost base: seq<Event>) returns (ok: bool)
      requires agentContext.Valid() && base <= agentContext.log
               && ProgressOf(InstallRetry, agentContext.log, |base|) == Going(None, 2)
      modifies agentContext`log
      ensures agentContext.Valid() && base <= agentContext.log && |old(agentContext.log)| < |agentContext.log|
      ensures ProgressOf(InstallRetry, agentContext.log, |base|) == if ok then Over else Going(Some(PatchInstalled), 2)
      ensures !ok ==> !agentContext.env.ok(|agentContext.log| - 1)
    {
      InstallHappened(agentContext.log, |base|);
      ok := agentContext.Call(PatchInstalled);
      Advances(InstallRetry, old(agentContext.log), |base|, Event(PatchInstalled, ok));
    }
  }
}
