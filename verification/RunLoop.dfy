/** internal/agent/phase/upgrade.go, internal/agent/phase/bootstrap.go and cmd/agent/run.go: the normal operation of an
    installed host. Waiting times are not modelled. */
module RunLoop {
  import opened Common
  import opened Objects
  import opened ElementalApi
  import opened AgentProtocol
  import opened Agent
  import opened ResetPhase

  // ---- What an iteration does, call by call ----

  predicate OsVersionCall(op: Op) {
    || op == Marshal(OsVersionDocument) || op.GetState? || op.Upgrade? || op.OsVersionDone?
    || op == SetPhase(OSVersionReconcile) || op == PatchUpdateDone
    || (op.ReportCondition? && op.ctype == OSVersionReady)
  }

  /** Since call n nothing happened but the reconciliation of the OS version. */
  predicate OsVersionCalls(log: seq<Event>, n: nat) {
    forall q :: n <= q < |log| ==> OsVersionCall(log[q].op)
  }

  /** The reconciliation of the OS version failed with the last call: either this reports that the call before failed
      or that the instructions cannot be read, or it is a report of success that did not get through. */
  predicate OsVersionFailed(env: Environment, log: seq<Event>, osVersion: OsVersion) {
    && |log| > 1
    && var last := log[|log| - 1];
       || (last.op == ReportCondition(OSVersionReady, false, OSVersionReconciliationFailed)
           && FailedOrUnreadable(env, log[|log| - 2], osVersion))
       || (!last.ok && (last.op == ReportCondition(OSVersionReady, true, NoReason) || last.op == PatchUpdateDone))
  }

  predicate FailedOrUnreadable(env: Environment, e: Event, osVersion: OsVersion) {
    !e.ok || (e.op == Marshal(OsVersionDocument) && env.imageURI(osVersion).None?)
  }

  /** The last call reports that the OS version is reconciled; the end of an update in place is reported after the
      condition got through. */
  predicate OsVersionReported(log: seq<Event>, pending: bool) {
    && |log| > 1
    && var reported := Event(ReportCondition(OSVersionReady, true, NoReason), true);
       if pending then log[|log| - 2] == reported && log[|log| - 1] == Event(PatchUpdateDone, true)
       else log[|log| - 1] == reported
  }

  /** The last calls upgraded the OS to these instructions and announced the reboot. */
  predicate OsVersionInstalled(log: seq<Event>, osVersion: OsVersion) {
    && |log| > 3
    && log[|log| - 4].ok && log[|log| - 4].op.Upgrade? && log[|log| - 4].op.id == Sha256(osVersion)
    && log[|log| - 3].op.OsVersionDone?
    && log[|log| - 2].op == SetPhase(OSVersionReconcile)
    && log[|log| - 1].op == ReportCondition(OSVersionReady, false, WaitingForPostReconcileReboot)
  }

  /** From call n on nothing was applied and nothing succeeded that would say so; the last call reports the failure of
      the one before. */
  predicate FailureReported(log: seq<Event>, n: nat) {
    && |log| > n + 1 && !log[|log| - 2].ok
    && log[|log| - 1].op == ReportCondition(BootstrapReady, false, BootstrapFailed)
    && NothingApplied(log, n)
  }

  predicate BootstrapCall(op: Op) {
    || op == SetPhase(Bootstrapping) || op.StatSentinel? || op.GetBootstrap? || op.PluginBootstrap?
    || op == PatchBootstrapped || (op.ReportCondition? && op.ctype == BootstrapReady)
  }

  /** Since call n nothing happened but the handling of the bootstrap, and nothing was applied. */
  predicate NothingApplied(log: seq<Event>, n: nat) {
    forall q :: n <= q < |log| ==>
      && BootstrapCall(log[q].op)
      && (log[q].ok ==> !log[q].op.PluginBootstrap? && !log[q].op.PatchBootstrapped?)
  }

  /** From call n to the end the bootstrap configuration was fetched, applied, and its execution announced. */
  predicate BootstrapApplied(env: Environment, log: seq<Event>, n: nat) {
    var format, config := env.bootstrapFormat(n), env.bootstrapConfig(n);
    && |log| == n + 3
    && log[n] == Event(GetBootstrap(format, config), true)
    && log[n + 1] == Event(PluginBootstrap(format, config), true)
    && log[n + 2].op == ReportCondition(BootstrapReady, false, WaitingForBootstrap)
  }

  /** From call n to the end: a host with the sentinel file is reported as bootstrapped, one without it gets its
      configuration and has to reboot, and an error means that the last call failed and nothing was applied. */
  predicate BootstrapTried(env: Environment, log: seq<Event>, n: nat, ok: bool, reboot: bool) {
    && |log| > n
    && log[n] == Event(StatSentinel(env.sentinel(n)), env.sentinel(n) != Unreadable)
    && if reboot then ok && env.sentinel(n) == Absent && BootstrapApplied(env, log, n + 1)
       else if ok then env.sentinel(n) == Present && |log| == n + 2 && log[n + 1] == Event(PatchBootstrapped, true)
       else !log[|log| - 1].ok && NothingApplied(log, n)
  }

  /** From call n to the end the bootstrap was handled: the sentinel file decides between the configuration, after which
      the host has to reboot, and the report that the host is bootstrapped; what fails is reported. */
  predicate BootstrapHandled(env: Environment, log: seq<Event>, n: nat, reboot: bool) {
    && |log| > n + 2
    && log[n].op == SetPhase(Bootstrapping)
    && log[n + 1] == Event(StatSentinel(env.sentinel(n + 1)), env.sentinel(n + 1) != Unreadable)
    && if reboot then env.sentinel(n + 1) == Absent && BootstrapApplied(env, log, n + 2)
       else
         || (env.sentinel(n + 1) == Present && |log| == n + 3 && log[n + 2] == Event(PatchBootstrapped, true))
         || FailureReported(log, n)
  }

  /** How an iteration without reset ended that reconciled the OS version from call n on. Either the program exits, with
      a reboot as its last call, or it goes on. If it reached the end of that reconciliation with call q - 1, it went
      on with the bootstrap exactly if the reply r said that one is ready and not yet done. */
  predicate EndsAfter(env: Environment, log: seq<Event>, n: nat, q: nat, r: HostResponse, exit: bool) {
    && n < q <= |log|
    && log[n].op == Marshal(OsVersionDocument) && OsVersionCalls(log[..q], n)
    && (exit ==> |log| > q)
    && var all := if exit then log[..|log| - 1] else log;
       || (exit && |log| == q + 1 && log[q].op == Reboot(ForOsVersion) && OsVersionInstalled(all, r.osVersion))
       || (!exit && |log| == q && OsVersionFailed(env, log, r.osVersion))
       || (OsVersionReported(log[..q], r.inPlaceUpgrade == "pending")
           && if r.bootstrapReady && !r.bootstrapped
              then BootstrapHandled(env, all, q, exit) && (exit ==> log[|log| - 1].op == Reboot(ForBootstrap))
              else |log| == q && !exit)
  }

  /** An iteration without reset reconciled the OS version from call n on, and ended. */
  ghost predicate Ends(env: Environment, log: seq<Event>, n: nat, r: HostResponse, exit: bool) {
    exists q :: EndsAfter(env, log, n, q, r, exit)
  }

  predicate ResetTriggered(log: seq<Event>, n: nat, exit: bool) {
    && |log| == n + 3
    && log[n].op == SetPhase(TriggeringReset)
    && log[n + 1] == Event(TriggerReset, exit)
    && log[n + 2].op == ReportCondition(ResetReady, false, if exit then WaitingForReset else ResetFailed)
  }

  /** What an iteration did from call n on after it had received reply r. */
  ghost predicate Iterated(env: Environment, log: seq<Event>, n: nat, r: HostResponse, exit: bool) {
    if r.needsReset then ResetTriggered(log, n, exit)
    else if r.bootstrapped && r.inPlaceUpgrade != "pending" then |log| == n && !exit
    else Ends(env, log, n, r, exit)
  }

  /** A snapshot with the hash of these instructions is there that was not there before, or nothing changed. */
  predicate Added(before: seq<Option<CorrelationId>>, after: seq<Option<CorrelationId>>, osVersion: OsVersion,
                  added: bool)
  {
    if added then Some(Sha256(osVersion)) in after && Some(Sha256(osVersion)) !in before else after == before
  }

  // ---- When the program exits ----

  /** The calls after which the program has to exit. */
  predicate Stops(e: Event) {
    e.op.Reboot? || (e.op.TriggerReset? && e.ok)
  }

  predicate NeverStops(log: seq<Event>, n: nat) {
    forall q :: n <= q < |log| ==> !Stops(log[q])
  }

  /** Since call n the program stopped once, and did nothing afterwards but report the triggered reset. */
  predicate StopsLast(log: seq<Event>, n: nat) {
    && |log| > n
    && var k := if log[|log| - 1].op.Reboot? then |log| - 1 else |log| - 2;
    && n <= k && Stops(log[k]) && NeverStops(log[..k], n)
    && (k == |log| - 2 ==> log[|log| - 1].op == ReportCondition(ResetReady, false, WaitingForReset))
  }

  lemma StopsOnceMore(before: seq<Event>, log: seq<Event>, n: nat, exit: bool)
    requires n <= |before| && before <= log && NeverStops(before, n)
    requires if exit then StopsLast(log, |before|) else NeverStops(log, |before|)
    ensures if exit then StopsLast(log, n) else NeverStops(log, n)
  {
    forall q | n <= q < |before| ensures !Stops(log[q]) {
      assert log[q] == before[q];
    }
  }

  lemma EndsWithAStop(env: Environment, log: seq<Event>, n: nat, r: HostResponse, exit: bool)
    requires Iterated(env, log, n, r, exit)
    ensures if exit then StopsLast(log, n) else NeverStops(log, n)
  {
    if !r.needsReset && !(r.bootstrapped && r.inPlaceUpgrade != "pending") {
      UpdateEndsWithAStop(env, log, n, r, exit);
    }
  }

  lemma UpdateEndsWithAStop(env: Environment, log: seq<Event>, n: nat, r: HostResponse, exit: bool)
    requires Ends(env, log, n, r, exit)
    ensures if exit then StopsLast(log, n) else NeverStops(log, n)
  {
    var q: nat :| EndsAfter(env, log, n, q, r, exit);
    forall k | n <= k < q ensures !Stops(log[k]) {
      assert log[..q][k] == log[k];
    }
    var all := if exit then log[..|log| - 1] else log;
    if |all| > q {
      BootstrapNeverStops(env, all, q, exit);
    }
    assert NeverStops(all, n);
  }

  lemma BootstrapNeverStops(env: Environment, log: seq<Event>, n: nat, reboot: bool)
    requires BootstrapHandled(env, log, n, reboot)
    ensures NeverStops(log, n)
  {
  }

  /** The OS version was reconciled from call n on, with nothing left to do. */
  predicate Reconciled(log: seq<Event>, n: nat, r: HostResponse) {
    && n < |log| && log[n].op == Marshal(OsVersionDocument)
    && OsVersionCalls(log, n) && OsVersionReported(log, r.inPlaceUpgrade == PENDING)
  }

  lemma EndsReconciled(env: Environment, log: seq<Event>, n: nat, r: HostResponse)
    requires Reconciled(log, n, r) && !(r.bootstrapReady && !r.bootstrapped)
    ensures Ends(env, log, n, r, false)
  {
    assert log[..|log|] == log;
    assert EndsAfter(env, log, n, |log|, r, false);
  }

  lemma TriedIsHandled(env: Environment, log: seq<Event>, n: nat, ok: bool, reboot: bool)
    requires n < |log| && log[n].op == SetPhase(Bootstrapping) && BootstrapTried(env, log, n + 1, ok, reboot)
    ensures ok ==> BootstrapHandled(env, log, n, reboot) && log[|log| - 2].ok
    ensures forall delivered ::
              var report := Event(ReportCondition(BootstrapReady, false, BootstrapFailed), delivered);
              !ok ==> BootstrapHandled(env, log + [report], n, false) && FailureReported(log + [report], n)
  {
  }

  lemma HandledMayReboot(env: Environment, log: seq<Event>, n: nat)
    requires BootstrapHandled(env, log, n, true)
    ensures MayReboot(log, ForBootstrap)
  {
  }

  lemma EndsWithBootstrap(env: Environment, before: seq<Event>, log: seq<Event>, e: Event, n: nat, r: HostResponse,
                          reboot: bool)
    requires Reconciled(before, n, r) && r.bootstrapReady && !r.bootstrapped
    requires before < log && BootstrapHandled(env, log, |before|, reboot)
    requires reboot ==> e.op == Reboot(ForBootstrap)
    ensures Ends(env, if reboot then log + [e] else log, n, r, reboot)
  {
    var all := if reboot then log + [e] else log;
    assert all[..|before|] == before;
    assert reboot ==> all[..|log|] == log;
    assert EndsAfter(env, all, n, |before|, r, reboot);
  }

  // ---- internal/agent/phase/upgrade.go ----

  class OSVersionHandler {
    const agentContext: AgentContext

    constructor (agentContext: AgentContext)
      ensures this.agentContext == agentContext
    {
      this.agentContext := agentContext;
    }

    method Reconcile(osVersion: OsVersion, needsInplaceUpdate: bool, ghost r: HostResponse)
      returns (ok: bool, reboot: bool)
      requires agentContext.Valid() && InRound(agentContext.log, r) && NeedsOsVersion(r)
      requires r.osVersion == osVersion && needsInplaceUpdate == (r.inPlaceUpgrade == PENDING)
      modifies agentContext`log, agentContext`snapshots
      ensures agentContext.Valid() && old(agentContext.log) < agentContext.log && InRound(agentContext.log, r)
      ensures agentContext.log[|old(agentContext.log)|].op == Marshal(OsVersionDocument)
              && OsVersionCalls(agentContext.log, |old(agentContext.log)|)
      ensures reboot ==> ok && OsVersionInstalled(agentContext.log, osVersion)
      ensures Added(old(agentContext.snapshots), agentContext.snapshots, osVersion, reboot)
      ensures ok && !reboot ==>
                OsVersionReported(agentContext.log, needsInplaceUpdate) && OsVersionSettledInRound(agentContext.log, r)
      ensures !ok ==> !reboot && OsVersionFailed(agentContext.env, agentContext.log, osVersion)
    {
      ghost var n := |agentContext.log|;
      ok, reboot := AskPlugin(osVersion, r);
      if !ok {
        ReportFailure(osVersion, n);
        return false, false;
      }
      if reboot {
        AnnounceReboot(osVersion, n);
        return true, true;
      }
      ok := ReportReconciled(needsInplaceUpdate, r, n);
    }

    method ReportFailure(osVersion: OsVersion, ghost n: nat)
      requires agentContext.Valid() && n < |agentContext.log| && OsVersionCalls(agentContext.log, n)
      requires FailedOrUnreadable(agentContext.env, agentContext.log[|agentContext.log| - 1], osVersion)
      modifies agentContext`log
      ensures agentContext.Valid() && old(agentContext.log) < agentContext.log && OsVersionCalls(agentContext.log, n)
      ensures OsVersionFailed(agentContext.env, agentContext.log, osVersion)
      ensures forall r :: InRound(old(agentContext.log), r) ==> InRound(agentContext.log, r)
    {
      agentContext.UpdateCondition(OSVersionReady, false, OSVersionReconciliationFailed);
    }

    method AnnounceReboot(osVersion: OsVersion, ghost n: nat)
      requires agentContext.Valid() && OsVersionCalls(agentContext.log, n)
      requires |agentContext.log| > 1 && agentContext.log[|agentContext.log| - 1].op.OsVersionDone?
               && Upgraded(agentContext.log[|agentContext.log| - 2])
               && agentContext.log[|agentContext.log| - 2].op.id == Sha256(osVersion)
      modifies agentContext`log
      ensures agentContext.Valid() && old(agentContext.log) < agentContext.log && OsVersionCalls(agentContext.log, n)
      ensures OsVersionInstalled(agentContext.log, osVersion)
      ensures forall r :: InRound(old(agentContext.log), r) ==> InRound(agentContext.log, r)
    {
      agentContext.ReportPhase(OSVersionReconcile);
      agentContext.UpdateCondition(OSVersionReady, false, WaitingForPostReconcileReboot);
    }

    method AskPlugin(osVersion: OsVersion, ghost r: HostResponse) returns (ok: bool, reboot: bool)
      requires agentContext.Valid() && InRound(agentContext.log, r) && NeedsOsVersion(r) && r.osVersion == osVersion
      modifies agentContext`log, agentContext`snapshots
      ensures agentContext.Valid() && old(agentContext.log) < agentContext.log && InRound(agentContext.log, r)
      ensures agentContext.log[|old(agentContext.log)|].op == Marshal(OsVersionDocument)
              && OsVersionCalls(agentContext.log, |old(agentContext.log)|)
      ensures ok && reboot ==>
                && |agentContext.log| > 1 && agentContext.log[|agentContext.log| - 1].op.OsVersionDone?
                && Upgraded(agentContext.log[|agentContext.log| - 2])
                && agentContext.log[|agentContext.log| - 2].op.id == Sha256(osVersion)
      ensures Added(old(agentContext.snapshots), agentContext.snapshots, osVersion, ok && reboot)
      ensures ok && !reboot ==> OsVersionSettledInRound(agentContext.log, r)
      ensures !ok ==>
                FailedOrUnreadable(agentContext.env, agentContext.log[|agentContext.log| - 1], osVersion)
    {
      reboot := false;
      ok := agentContext.Call(Marshal(OsVersionDocument));
      if ok {
        ok, reboot := agentContext.ReconcileOSVersion(osVersion, r);
      }
    }

    /** Nothing is left to do; an update in place is marked as done, but only after the condition got through. */
    method ReportReconciled(needsInplaceUpdate: bool, ghost r: HostResponse, ghost n: nat) returns (ok: bool)
      requires agentContext.Valid() && n < |agentContext.log| && OsVersionCalls(agentContext.log, n)
      requires InRound(agentContext.log, r) && OsVersionSettledInRound(agentContext.log, r)
      requires needsInplaceUpdate == (r.inPlaceUpgrade == PENDING)
      modifies agentContext`log
      ensures agentContext.Valid() && old(agentContext.log) < agentContext.log && OsVersionCalls(agentContext.log, n)
      ensures InRound(agentContext.log, r) && OsVersionSettledInRound(agentContext.log, r)
      ensures if ok then OsVersionReported(agentContext.log, needsInplaceUpdate)
              else OsVersionFailed(agentContext.env, agentContext.log, r.osVersion)
    {
      ok := agentContext.Call(ReportCondition(OSVersionReady, true, NoReason));
      if ok && needsInplaceUpdate {
        ok := agentContext.Call(PatchUpdateDone);
      }
    }
  }

  // ---- internal/agent/phase/bootstrap.go ----

  class BootstrapHandler {
    const agentContext: AgentContext

    constructor (agentContext: AgentContext)
      ensures this.agentContext == agentContext
    {
      this.agentContext := agentContext;
    }

    method Bootstrap(ghost r: HostResponse) returns (ok: bool, reboot: bool)
      requires agentContext.Valid() && NeedsBootstrap(r) && OsVersionSettledInRound(agentContext.log, r)
      modifies agentContext`log
      ensures agentContext.Valid() && old(agentContext.log) < agentContext.log
      ensures BootstrapHandled(agentContext.env, agentContext.log, |old(agentContext.log)|, reboot)
      ensures if ok then agentContext.log[|agentContext.log| - 2].ok
              else !reboot && FailureReported(agentContext.log, |old(agentContext.log)|)
    {
      agentContext.ReportPhase(Bootstrapping);
      ok, reboot := DoBootstrap(r);
      TriedIsHandled(agentContext.env, agentContext.log, |old(agentContext.log)|, ok, reboot);
      if !ok {
        ReportFailure();
      }
    }

    method ReportFailure()
      requires agentContext.Valid()
      modifies agentContext`log
      ensures agentContext.Valid()
      ensures agentContext.log == old(agentContext.log)
                                  + [Event(ReportCondition(BootstrapReady, false, BootstrapFailed),
                                           agentContext.env.ok(|old(agentContext.log)|))]
    {
      agentContext.UpdateCondition(BootstrapReady, false, BootstrapFailed);
    }

    method DoBootstrap(ghost r: HostResponse) returns (ok: bool, reboot: bool)
      requires agentContext.Valid() && NeedsBootstrap(r) && OsVersionSettledInRound(agentContext.log, r)
      modifies agentContext`log
      ensures agentContext.Valid() && old(agentContext.log) < agentContext.log
      ensures BootstrapTried(agentContext.env, agentContext.log, |old(agentContext.log)|, ok, reboot)
    {
      var sentinel := agentContext.env.sentinel(|agentContext.log|);
      agentContext.Record(StatSentinel(sentinel), sentinel != Unreadable);
      match sentinel {
        case Present =>
          ok := agentContext.Call(PatchBootstrapped);
          reboot := false;
        case Absent =>
          ok := ApplyConfig(r);
          reboot := ok;
        case Unreadable =>
          ok, reboot := false, false;
      }
    }

    method ApplyConfig(ghost r: HostResponse) returns (ok: bool)
      requires agentContext.Valid() && NeedsBootstrap(r) && OsVersionSettledInRound(agentContext.log, r)
      requires Last(agentContext.log, Event(StatSentinel(Absent), true))
      modifies agentContext`log
      ensures agentContext.Valid() && old(agentContext.log) < agentContext.log
      ensures if ok then BootstrapApplied(agentContext.env, agentContext.log, |old(agentContext.log)|)
              else
                !agentContext.log[|agentContext.log| - 1].ok
                && NothingApplied(agentContext.log, |old(agentContext.log)|)
    {
      var format := agentContext.env.bootstrapFormat(|agentContext.log|);
      var config := agentContext.env.bootstrapConfig(|agentContext.log|);
      ok := agentContext.Call(GetBootstrap(format, config));
      if ok {
        ok := agentContext.Call(PluginBootstrap(format, config));
        if ok {
          agentContext.UpdateCondition(BootstrapReady, false, WaitingForBootstrap);
        }
      }
    }
  }

  // ---- cmd/agent/run.go ----

  /** What a phase asks for when it is over. */
  datatype PostAction = PostAction(powerOff: bool, reboot: bool)

  /** Powering off wins; the program exits whether or not the call succeeded. */
  method HandlePost(agentContext: AgentContext, post: PostAction, cause: RebootCause) returns (exit: bool)
    requires agentContext.Valid() && (post.reboot && !post.powerOff ==> MayReboot(agentContext.log, cause))
    modifies agentContext`log
    ensures agentContext.Valid() && (exit <==> post.powerOff || post.reboot)
    ensures var ok := agentContext.env.ok(|old(agentContext.log)|);
            agentContext.log == old(agentContext.log)
                                + if post.powerOff then [Event(PowerOff, ok)]
                                  else if post.reboot then [Event(Reboot(cause), ok)] else []
    ensures !exit ==> agentContext.log == old(agentContext.log)
    ensures forall r :: InRound(old(agentContext.log), r) ==> InRound(agentContext.log, r)
  {
    if post.powerOff {
      var _ := agentContext.Call(PowerOff);
      return true;
    } else if post.reboot {
      var _ := agentContext.Call(Reboot(cause));
      return true;
    }
    exit := false;
  }

  /** One iteration of the loop. */
  method RunRound(agentContext: AgentContext) returns (exit: bool)
    requires agentContext.Valid()
    modifies agentContext`log, agentContext`snapshots
    ensures agentContext.Valid() && old(agentContext.log) < agentContext.log
    ensures var env, log, n := agentContext.env, agentContext.log, |old(agentContext.log)|;
            var r := env.reply(n);
            && log[n] == Event(PatchRunning(r), env.ok(n))
            && if env.ok(n) then Iterated(env, log, n + 1, r, exit) else |log| == n + 1 && !exit
    ensures if exit then StopsLast(agentContext.log, |old(agentContext.log)|)
            else NeverStops(agentContext.log, |old(agentContext.log)|)
  {
    var host := agentContext.env.reply(|agentContext.log|);
    var ok := agentContext.Call(PatchRunning(host));
    if !ok {
      return false;
    }
    assert RoundStart(agentContext.log, |agentContext.log| - 1, host);
    if host.needsReset {
      exit := RoundWithReset(agentContext, host);
    } else {
      exit := RoundWithoutReset(agentContext, host);
    }
    EndsWithAStop(agentContext.env, agentContext.log, |old(agentContext.log)| + 1, host, exit);
  }

  method RoundWithReset(agentContext: AgentContext, host: HostResponse) returns (exit: bool)
    requires agentContext.Valid() && InRound(agentContext.log, host) && host.needsReset
    modifies agentContext`log
    ensures agentContext.Valid() && old(agentContext.log) < agentContext.log
            && ResetTriggered(agentContext.log, |old(agentContext.log)|, exit)
  {
    var resetHandler := new ResetHandler(agentContext);
    exit := resetHandler.TriggerReset(host);
  }

  method RoundWithoutReset(agentContext: AgentContext, host: HostResponse) returns (exit: bool)
    requires agentContext.Valid() && InRound(agentContext.log, host) && !host.needsReset
    modifies agentContext`log, agentContext`snapshots
    ensures agentContext.Valid() && old(agentContext.log) <= agentContext.log
    ensures Iterated(agentContext.env, agentContext.log, |old(agentContext.log)|, host, exit)
  {
    var needsInplaceUpdate := host.inPlaceUpgrade == PENDING;
    if !host.bootstrapped || needsInplaceUpdate {
      var ok, reboot := ReconcileOsVersion(agentContext, host, needsInplaceUpdate);
      if !ok || reboot {
        return reboot;
      }
    }
    exit := BootstrapIfReady(agentContext, host, |old(agentContext.log)|);
  }

  method ReconcileOsVersion(agentContext: AgentContext, host: HostResponse, needsInplaceUpdate: bool)
    returns (ok: bool, exit: bool)
    requires agentContext.Valid() && InRound(agentContext.log, host) && NeedsOsVersion(host)
    requires needsInplaceUpdate == (host.inPlaceUpgrade == PENDING)
    modifies agentContext`log, agentContext`snapshots
    ensures agentContext.Valid() && old(agentContext.log) < agentContext.log && InRound(agentContext.log, host)
    ensures exit ==> ok
    ensures if ok && !exit then
              OsVersionSettledInRound(agentContext.log, host)
              && Reconciled(agentContext.log, |old(agentContext.log)|, host)
            else Ends(agentContext.env, agentContext.log, |old(agentContext.log)|, host, exit)
    ensures Added(old(agentContext.snapshots), agentContext.snapshots, host.osVersion, exit)
  {
    var osVersionHandler := new OSVersionHandler(agentContext);
    ok, exit := osVersionHandler.Reconcile(host.osVersion, needsInplaceUpdate, host);
    ghost var was := agentContext.log;
    assert was[..|was|] == was;
    if ok {
      exit := HandlePost(agentContext, PostAction(false, exit), ForOsVersion);
      assert exit ==> agentContext.log[..|was|] == was;
    }
    assert !ok || exit ==>
        EndsAfter(agentContext.env, agentContext.log, |old(agentContext.log)|, |was|, host, exit);
  }

  method BootstrapIfReady(agentContext: AgentContext, host: HostResponse, ghost n: nat) returns (exit: bool)
    requires agentContext.Valid() && !host.needsReset
    requires if host.bootstrapped && host.inPlaceUpgrade != PENDING then n == |agentContext.log|
             else Reconciled(agentContext.log, n, host) && OsVersionSettledInRound(agentContext.log, host)
    modifies agentContext`log
    ensures agentContext.Valid() && old(agentContext.log) <= agentContext.log
    ensures if n == |old(agentContext.log)| then agentContext.log == old(agentContext.log) && !exit
            else Ends(agentContext.env, agentContext.log, n, host, exit)
  {
    exit := false;
    if host.bootstrapReady && !host.bootstrapped {
      exit := ApplyBootstrap(agentContext, host, n);
    } else if n < |agentContext.log| {
      EndsReconciled(agentContext.env, agentContext.log, n, host);
    }
  }

  method ApplyBootstrap(agentContext: AgentContext, host: HostResponse, ghost n: nat) returns (exit: bool)
    requires agentContext.Valid() && NeedsBootstrap(host) && OsVersionSettledInRound(agentContext.log, host)
    requires Reconciled(agentContext.log, n, host)
    modifies agentContext`log
    ensures agentContext.Valid() && old(agentContext.log) < agentContext.log
    ensures Ends(agentContext.env, agentContext.log, n, host, exit)
  {
    var bootstrapHandler := new BootstrapHandler(agentContext);
    var ok, reboot := bootstrapHandler.Bootstrap(host);
    ghost var handled := agentContext.log;
    exit := false;
    if ok {
      if reboot {
        HandledMayReboot(agentContext.env, handled, |old(agentContext.log)|);
      }
      exit := HandlePost(agentContext, PostAction(false, reboot), ForBootstrap);
    }
    ghost var e := Event(Reboot(ForBootstrap), agentContext.env.ok(|handled|));
    assert agentContext.log == if exit then handled + [e] else handled;
    EndsWithBootstrap(agentContext.env, old(agentContext.log), handled, e, n, host, exit);
  }

  /** The reconciliation loop, for any number of iterations or until the program exits. */
  method Run(agentContext: AgentContext, rounds: nat) returns (exit: bool)
    requires agentContext.Valid()
    modifies agentContext`log, agentContext`snapshots
    ensures agentContext.Valid() && old(agentContext.log) <= agentContext.log
    ensures if exit then StopsLast(agentContext.log, |old(agentContext.log)|)
            else NeverStops(agentContext.log, |old(agentContext.log)|)
    ensures |OsRebootsAt(agentContext.log)| <= |ReceivedIds(agentContext.log)|
  {
    ghost var base := agentContext.log;
    exit := false;
    var i := 0;
    while i < rounds && !exit
      invariant agentContext.Valid() && base <= agentContext.log
      invariant if exit then StopsLast(agentContext.log, |base|) else NeverStops(agentContext.log, |base|)
    {
      ghost var before := agentContext.log;
      exit := RunRound(agentContext);
      StopsOnceMore(before, agentContext.log, |base|, exit);
      i := i + 1;
    }
    BoundedReboots(agentContext.log);
  }
}
