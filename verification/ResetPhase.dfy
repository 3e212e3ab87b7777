/** internal/agent/phase/reset.go: triggering a reset, and the reset itself.
    Waiting times are not modelled. The ghost argument `quiet` is a call number from which no call fails any more. */
module ResetPhase {
  import opened Common
  import opened Objects
  import opened ElementalApi
  import opened AgentProtocol
  import opened RetryLoops
  import opened Agent

  lemma DeletionStands(log: seq<Event>, e: Event)
    requires DeletedThisRound(log) && e.ok && (e.op.GetRegistration? || e.op.Marshal? || e.op.PluginReset?)
    ensures DeletedThisRound(log + [e])
  {
    var i :| 0 <= i < |log| && log[i] == Event(Op.DeleteHost, true) && OnlyResetSteps(log, i);
    assert (log + [e])[i] == Event(Op.DeleteHost, true) && OnlyResetSteps(log + [e], i);
  }

  lemma ResetHappened(log: seq<Event>, n: nat)
    requires n <= |log| && ProgressOf(ResetRetry, log, n) == Going(None, 1)
    ensures WasReset(log)
  {
    ProgressMeans(ResetRetry, log, n);
    var at: seq<nat> :| |at| == 1 && StepsDone(ResetRetry, log, n, at);
    assert Once(ResetRetry, log, n, 0, at[0]);
    assert IsReset(log[at[0]]);
  }

  class ResetHandler {
    const agentContext: AgentContext

    constructor (agentContext: AgentContext)
      ensures this.agentContext == agentContext
    {
      this.agentContext := agentContext;
    }

    method TriggerReset(ghost r: HostResponse) returns (ok: bool)
      requires agentContext.Valid() && InRound(agentContext.log, r) && r.needsReset
      modifies agentContext`log
      ensures agentContext.Valid()
      ensures var n := |old(agentContext.log)|;
              ok == agentContext.env.ok(n + 1)
              && agentContext.log == old(agentContext.log) + [
                                       Event(SetPhase(TriggeringReset), agentContext.env.ok(n)),
                                       Event(Op.TriggerReset, ok),
                                       Event(ReportCondition(ResetReady, false,
                                                             if ok then WaitingForReset else ResetFailed),
                                             agentContext.env.ok(n + 2))]
    {
      agentContext.ReportPhase(TriggeringReset);
      ok := agentContext.Call(Op.TriggerReset);
      if !ok {
        agentContext.UpdateCondition(ResetReady, false, ResetFailed);
        return;
      }
      agentContext.UpdateCondition(ResetReady, false, WaitingForReset);
    }

    method Reset(ghost quiet: nat)
      requires agentContext.Valid() && QuietFrom(agentContext.env, quiet)
      modifies agentContext`log
      ensures agentContext.Valid() && old(agentContext.log) < agentContext.log
      ensures agentContext.log[|old(agentContext.log)|].op == SetPhase(Resetting)
      ensures RetrySession(ResetRetry, agentContext.log, |old(agentContext.log)| + 1)
    {
      agentContext.ReportPhase(Resetting);
      ResetLoop(quiet);
      ProgressMeans(ResetRetry, agentContext.log, |old(agentContext.log)| + 1);
    }

    method ResetLoop(ghost quiet: nat)
      requires agentContext.Valid() && QuietFrom(agentContext.env, quiet)
      modifies agentContext`log
      ensures agentContext.Valid() && old(agentContext.log) <= agentContext.log
      ensures ProgressOf(ResetRetry, agentContext.log, |old(agentContext.log)|) == Over
    {
      ghost var base := agentContext.log;
      ghost var failed: Option<Op> := None;
      var resetError := false;
      var alreadyReset := false;
      while true
        invariant agentContext.Valid() && base <= agentContext.log
        invariant ProgressOf(ResetRetry, agentContext.log, |base|) == Going(failed, if alreadyReset then 1 else 0)
        invariant resetError <==> failed.Some?
        decreases quiet - |agentContext.log|
      {
        if resetError {
          ReportFailure(base, failed.value, if alreadyReset then 1 else 0);
          resetError := false;
        }
        var ok := MarkForDeletion(base, if alreadyReset then 1 else 0);
        if !ok {
          FailsBeforeQuiet(agentContext.env, quiet, |agentContext.log| - 1);
          resetError, failed := true, Some(Op.DeleteHost);
          continue;
        }
        if !alreadyReset {
          ok, failed := ResetSystem(base);
          if !ok {
            FailsBeforeQuiet(agentContext.env, quiet, |agentContext.log| - 1);
            resetError := true;
            continue;
          }
          alreadyReset := true;
        }
        ok := ReportReset(base);
        if !ok {
          FailsBeforeQuiet(agentContext.env, quiet, |agentContext.log| - 1);
          resetError, failed := true, Some(PatchReset);
          continue;
        }
        break;
      }
    }

    /** Best effort, before the next attempt. */
    method ReportFailure(ghost base: seq<Event>, ghost failed: Op, ghost done: nat)
      requires agentContext.Valid() && base <= agentContext.log
      requires ProgressOf(ResetRetry, agentContext.log, |base|) == Going(Some(failed), done)
      modifies agentContext`log
      ensures agentContext.Valid() && base <= agentContext.log && |old(agentContext.log)| < |agentContext.log|
      ensures ProgressOf(ResetRetry, agentContext.log, |base|) == Going(None, done)
    {
      agentContext.UpdateCondition(ResetReady, false, ResetFailed);
      Advances(ResetRetry, old(agentContext.log), |base|, agentContext.log[|agentContext.log| - 1]);
    }

    method MarkForDeletion(ghost base: seq<Event>, ghost done: nat) returns (ok: bool)
      requires agentContext.Valid() && base <= agentContext.log
               && ProgressOf(ResetRetry, agentContext.log, |base|) == Going(None, done)
      modifies agentContext`log
      ensures agentContext.Valid() && base <= agentContext.log && |old(agentContext.log)| < |agentContext.log|
      ensures ProgressOf(ResetRetry, agentContext.log, |base|) == Going(if ok then None else Some(Op.DeleteHost), done)
      ensures if ok then DeletedThisRound(agentContext.log) else !agentContext.env.ok(|agentContext.log| - 1)
    {
      ok := agentContext.Call(Op.DeleteHost);
      Advances(ResetRetry, old(agentContext.log), |base|, Event(Op.DeleteHost, ok));
      if ok {
        assert agentContext.log[|agentContext.log| - 1] == Event(Op.DeleteHost, true);
        assert OnlyResetSteps(agentContext.log, |agentContext.log| - 1);
      }
    }

    method FetchRegistration(ghost base: seq<Event>)
      returns (registration: Option<Registration>, ghost failed: Option<Op>)
      requires agentContext.Valid() && DeletedThisRound(agentContext.log)
      requires base <= agentContext.log && ProgressOf(ResetRetry, agentContext.log, |base|) == Going(None, 0)
      modifies agentContext`log
      ensures agentContext.Valid() && base <= agentContext.log && |old(agentContext.log)| < |agentContext.log|
      ensures ProgressOf(ResetRetry, agentContext.log, |base|) == Going(failed, 0)
              && (registration.Some? <==> failed.None?)
      ensures if registration.Some?
              then DeletedThisRound(agentContext.log)
                && Last(agentContext.log, Event(GetRegistration(registration.value), true))
              else !agentContext.env.ok(|agentContext.log| - 1)
    {
      registration := agentContext.FetchRegistration();
      ghost var e := agentContext.log[|agentContext.log| - 1];
      Advances(ResetRetry, old(agentContext.log), |base|, e);
      if registration.Some? {
        DeletionStands(old(agentContext.log), e);
      }
      failed := if e.ok then None else Some(e.op);
    }

    /** With the registration as it is now. */
    method ResetSystem(ghost base: seq<Event>) returns (ok: bool, ghost failed: Option<Op>)
      requires agentContext.Valid() && DeletedThisRound(agentContext.log)
      requires base <= agentContext.log && ProgressOf(ResetRetry, agentContext.log, |base|) == Going(None, 0)
      modifies agentContext`log
      ensures agentContext.Valid() && base <= agentContext.log && |old(agentContext.log)| < |agentContext.log|
      ensures ProgressOf(ResetRetry, agentContext.log, |base|) == Going(failed, if ok then 1 else 0)
              && (ok <==> failed.None?)
      ensures if ok then DeletedThisRound(agentContext.log) else !agentContext.env.ok(|agentContext.log| - 1)
    {
      var registration;
      registration, failed := FetchRegistration(base);
      ok := registration.Some?;
      if ok {
        ok, failed := MarshalAndReset(registration.value, base);
      }
    }

    method MarshalAndReset(registration: Registration, ghost base: seq<Event>)
      returns (ok: bool, ghost failed: Option<Op>)
      requires agentContext.Valid() && DeletedThisRound(agentContext.log)
      requires Last(agentContext.log, Event(GetRegistration(registration), true))
      requires base <= agentContext.log && ProgressOf(ResetRetry, agentContext.log, |base|) == Going(None, 0)
      modifies agentContext`log
      ensures agentContext.Valid() && base <= agentContext.log && |old(agentContext.log)| < |agentContext.log|
      ensures ProgressOf(ResetRetry, agentContext.log, |base|) == Going(failed, if ok then 1 else 0)
              && (ok <==> failed.None?)
      ensures if ok then DeletedThisRound(agentContext.log) else !agentContext.env.ok(|agentContext.log| - 1)
    {
      ghost var log0 := agentContext.log;
      ok := agentContext.Call(Marshal(ResetDocument));
      Advances(ResetRetry, log0, |base|, Event(Marshal(ResetDocument), ok));
      failed := Some(Marshal(ResetDocument));
      if ok {
        DeletionStands(log0, Event(Marshal(ResetDocument), ok));
        ghost var log1 := agentContext.log;
        ok := agentContext.Call(PluginReset(registration.reset));
        Advances(ResetRetry, log1, |base|, Event(PluginReset(registration.reset), ok));
        failed := Some(PluginReset(registration.reset));
        if ok {
          DeletionStands(log1, Event(PluginReset(registration.reset), ok));
          failed := None;
        }
      }
    }

    method ReportReset(ghost base: seq<Event>) returns (ok: bool)
      requires agentContext.Valid() && DeletedThisRound(agentContext.log)
      requires base <= agentContext.log && ProgressOf(ResetRetry, agentContext.log, |base|) == Going(None, 1)
      modifies agentContext`log
      ensures agentContext.Valid() && base <= agentContext.log && |old(agentContext.log)| < |agentContext.log|
      ensures ProgressOf(ResetRetry, agentContext.log, |base|) == if ok then Over else Going(Some(PatchReset), 1)
      ensures !ok ==> !agentContext.env.ok(|agentContext.log| - 1)
    {
      ResetHappened(agentContext.log, |base|);
      ok := agentContext.Call(PatchReset);
      Advances(ResetRetry, old(agentContext.log), |base|, Event(PatchReset, ok));
    }
  }
}
