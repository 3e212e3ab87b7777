/** internal/agent/phase/register.go: registering the host and persisting what it needs to come back.
    Waiting times are not modelled. The ghost argument `quiet` is a call number from which no call fails any more. */
module RegisterPhase {
  import opened Common
  import opened Objects
  import opened AgentProtocol
  import opened Agent

  /** The host was created, or found to exist already. */
  predicate Registers(e: Event) {
    e.ok && (e.op.CreateHost? || e.op.PatchProbe?)
  }

  predicate NotRegisteredYet(log: seq<Event>, n: nat, m: int) {
    forall q :: n <= q < m && q < |log| ==> !Registers(log[q])
  }

  /** The last calls before m fetched this registration and picked this hostname. */
  predicate Picked(log: seq<Event>, m: int, hostname: string, registration: Registration) {
    2 <= m <= |log|
    && log[m - 2] == Event(GetRegistration(registration), true) && log[m - 1] == Event(FormatHostname(hostname), true)
  }

  /** From call n on the agent ended up with exactly one host, under this hostname and with the labels and annotations
      of this registration unless it existed before; both were obtained by the attempt that succeeded. */
  predicate RegisteredAs(log: seq<Event>, n: nat, hostname: string, registration: Registration) {
    && NotRegisteredYet(log, n, |log| - 1)
    && (|| (Last(log, Event(PatchProbe(hostname), true)) && Picked(log, |log| - 1, hostname, registration))
        || (Last(log, Event(CreateHost(hostname, registration.hostLabels, registration.hostAnnotations), true))
            && Before(log, 1, Event(PatchProbe(hostname), false)) && Picked(log, |log| - 2, hostname, registration)))
  }

  /** The registration condition was not reported as true since call n. */
  predicate NotReady(log: seq<Event>, n: nat, m: int) {
    forall q :: n <= q < m && q < |log| ==> log[q] != Event(ReportCondition(RegistrationReady, true, NoReason), true)
  }

  /** What makes the registration survive a restart, in order. */
  function Persisting(hostname: string, configPath: string, workDir: string): seq<Op> {
    [InstallHostname(hostname),
     Marshal(AgentConfigDocument), InstallFile(AgentConfigDocument, configPath),
     Marshal(IdentityDocument), InstallFile(IdentityDocument, workDir + "/" + PRIVATE_KEY_FILE)]
  }

  /** Calls n to n+5 did all of it. */
  predicate Persisted(log: seq<Event>, n: nat, hostname: string, configPath: string, workDir: string) {
    var ops := Persisting(hostname, configPath, workDir);
    n + |ops| <= |log| && forall q :: n <= q < n + |ops| ==> log[q] == Event(ops[q - n], true)
  }

  /** Since call n exactly these calls were made, up to the first that failed, or all of them. */
  predicate PersistedUpTo(log: seq<Event>, n: nat, hostname: string, configPath: string, workDir: string, ok: bool) {
    var ops := Persisting(hostname, configPath, workDir);
    && n < |log| <= n + |ops| && (ok ==> |log| == n + |ops|)
    && forall q :: n <= q < |log| ==> log[q] == Event(ops[q - n], ok || q < |log| - 1)
  }

  /** Each document was marshalled right before it was stored: the configuration of the agent where the agent will look
      for it, and the identity in the working directory. */
  lemma PersistedMeans(log: seq<Event>, n: nat, hostname: string, configPath: string, workDir: string)
    ensures Persisted(log, n, hostname, configPath, workDir) <==>
              && n + 5 <= |log|
              && log[n] == Event(InstallHostname(hostname), true)
              && log[n + 1] == Event(Marshal(AgentConfigDocument), true)
              && log[n + 2] == Event(InstallFile(AgentConfigDocument, configPath), true)
              && log[n + 3] == Event(Marshal(IdentityDocument), true)
              && log[n + 4] == Event(InstallFile(IdentityDocument, workDir + "/" + "private.key"), true)
  {
    var ops := Persisting(hostname, configPath, workDir);
    if Persisted(log, n, hostname, configPath, workDir) {
      PersistedCounts(log, n, hostname, configPath, workDir);
      assert log[n + 1] == Event(ops[1], true) && log[n + 3] == Event(ops[3], true);
    }
  }

  lemma PersistedCounts(log: seq<Event>, n: nat, hostname: string, configPath: string, workDir: string)
    requires Persisted(log, n, hostname, configPath, workDir)
    ensures RegistrationPersisted(log)
  {
    var ops := Persisting(hostname, configPath, workDir);
    assert log[n] == Event(ops[0], true) && log[n + 2] == Event(ops[2], true) && log[n + 4] == Event(ops[4], true);
  }

  lemma FailedStepMeansNotPersisted(log: seq<Event>, n: nat, i: nat, hostname: string, configPath: string,
                                    workDir: string)
    requires n <= i < |log| && i < n + 5 && !log[i].ok
    ensures !Persisted(log, n, hostname, configPath, workDir)
  {
  }

  class RegistrationHandler {
    const agentContext: AgentContext

    constructor (agentContext: AgentContext)
      ensures this.agentContext == agentContext
    {
      this.agentContext := agentContext;
    }

    method Register(ghost quiet: nat) returns (ok: bool)
      requires agentContext.Valid() && QuietFrom(agentContext.env, quiet)
      modifies agentContext`log, agentContext`hostname, agentContext`config, agentContext`workDir
      ensures agentContext.Valid() && old(agentContext.log) < agentContext.log
      ensures ok == agentContext.env.ok(|old(agentContext.log)|)
      ensures !ok ==>
                && |agentContext.log| == |old(agentContext.log)| + 1
                && agentContext.hostname == old(agentContext.hostname)
                && agentContext.config == old(agentContext.config) && agentContext.workDir == old(agentContext.workDir)
      ensures ok ==>
                var m := |agentContext.log| - 1;
                && m > |old(agentContext.log)| && agentContext.log[m].op == SetPhase(Registering)
                && exists registration ::
                     && RegisteredAs(agentContext.log[..m], |old(agentContext.log)| + 1,
                                     agentContext.hostname, registration)
                     && agentContext.config == registration.agentConfig && agentContext.workDir == registration.workDir
    {
      ok := agentContext.Call(Marshal(IdentityDocument));
      if !ok {
        return;
      }
      var newHostname, registration := RegistrationLoop(quiet);
      ghost var registered := agentContext.log;
      agentContext.hostname := newHostname;
      agentContext.config, agentContext.workDir := registration.agentConfig, registration.workDir;
      agentContext.ReportPhase(Registering);
      assert agentContext.log[..|agentContext.log| - 1] == registered;
    }

    method RegistrationLoop(ghost quiet: nat) returns (newHostname: string, registration: Registration)
      requires agentContext.Valid() && QuietFrom(agentContext.env, quiet)
      modifies agentContext`log
      ensures agentContext.Valid() && old(agentContext.log) < agentContext.log
      ensures RegisteredAs(agentContext.log, |old(agentContext.log)|, newHostname, registration)
      ensures || Last(agentContext.log, Event(PatchProbe(newHostname), true))
              || Last(agentContext.log,
                      Event(CreateHost(newHostname, registration.hostLabels, registration.hostAnnotations), true))
    {
      ghost var base := agentContext.log;
      newHostname := "";
      while true
        invariant agentContext.Valid() && base <= agentContext.log
        invariant NotRegisteredYet(agentContext.log, |base|, |agentContext.log|)
        decreases quiet - |agentContext.log|
      {
        var fetched := agentContext.FetchRegistration();
        if fetched.None? {
          FailsBeforeQuiet(agentContext.env, quiet, |agentContext.log| - 1);
          continue;
        }
        registration := fetched.value;
        newHostname := agentContext.env.hostname(|agentContext.log|);
        var ok := agentContext.Call(FormatHostname(newHostname));
        if !ok {
          FailsBeforeQuiet(agentContext.env, quiet, |agentContext.log| - 1);
          continue;
        }
        ok := CreateOrFind(newHostname, registration, base);
        if !ok {
          FailsBeforeQuiet(agentContext.env, quiet, |agentContext.log| - 1);
          continue;
        }
        break;
      }
    }

    /** Skips the creation of a host that exists. */
    method CreateOrFind(hostname: string, registration: Registration, ghost base: seq<Event>) returns (ok: bool)
      requires agentContext.Valid() && base <= agentContext.log
      requires NotRegisteredYet(agentContext.log, |base|, |agentContext.log|)
      requires Picked(agentContext.log, |agentContext.log|, hostname, registration)
      modifies agentContext`log
      ensures agentContext.Valid() && base < agentContext.log && |old(agentContext.log)| < |agentContext.log|
      ensures if ok then RegisteredAs(agentContext.log, |base|, hostname, registration)
              else NotRegisteredYet(agentContext.log, |base|, |agentContext.log|)
                   && !agentContext.env.ok(|agentContext.log| - 1)
    {
      var found := agentContext.env.ok(|agentContext.log|) && agentContext.env.hostExists(|agentContext.log|);
      agentContext.Record(PatchProbe(hostname), found);
      if found {
        return true;
      }
      ok := agentContext.Call(CreateHost(hostname, registration.hostLabels, registration.hostAnnotations));
    }

    method Finalize(hostname: string, configPath: string, workDir: string) returns (ok: bool)
      requires agentContext.Valid()
      modifies agentContext`log
      ensures agentContext.Valid() && old(agentContext.log) < agentContext.log
      ensures PersistedUpTo(agentContext.log, |old(agentContext.log)|, hostname, configPath, workDir, ok)
      ensures ok ==> Persisted(agentContext.log, |old(agentContext.log)|, hostname, configPath, workDir)
    {
      ok := agentContext.Call(InstallHostname(hostname));
      if !ok {
        return;
      }
      ok := agentContext.Call(Marshal(AgentConfigDocument));
      if !ok {
        return;
      }
      ok := agentContext.Call(InstallFile(AgentConfigDocument, configPath));
      if !ok {
        return;
      }
      ok := agentContext.Call(Marshal(IdentityDocument));
      if !ok {
        return;
      }
      ok := agentContext.Call(InstallFile(IdentityDocument, workDir + "/" + PRIVATE_KEY_FILE));
    }

    /** Retries, because a failed registration would start over with a new identity. */
    method ReportRegistered(ghost quiet: nat, ghost n: nat)
      requires agentContext.Valid() && QuietFrom(agentContext.env, quiet)
      requires Persisted(agentContext.log, n, agentContext.hostname, agentContext.configPath, agentContext.workDir)
      modifies agentContext`log
      ensures agentContext.Valid() && old(agentContext.log) < agentContext.log
      ensures Last(agentContext.log, Event(ReportCondition(RegistrationReady, true, NoReason), true))
      ensures NotReady(agentContext.log, |old(agentContext.log)|, |agentContext.log| - 1)
    {
      ghost var base := agentContext.log;
      while true
        invariant agentContext.Valid() && base <= agentContext.log
        invariant NotReady(agentContext.log, |base|, |agentContext.log|)
        decreases quiet - |agentContext.log|
      {
        PersistedCounts(agentContext.log, n, agentContext.hostname, agentContext.configPath, agentContext.workDir);
        var ok := agentContext.Call(ReportCondition(RegistrationReady, true, NoReason));
        if !ok {
          FailsBeforeQuiet(agentContext.env, quiet, |agentContext.log| - 1);
          continue;
        }
        break;
      }
    }

    /** An error is reported and returned; once everything is persisted the success is reported until it gets
        through. */
    method FinalizeRegistration(ghost quiet: nat) returns (ok: bool)
      requires agentContext.Valid() && QuietFrom(agentContext.env, quiet)
      modifies agentContext`log
      ensures agentContext.Valid() && old(agentContext.log) < agentContext.log
      ensures agentContext.log[|old(agentContext.log)|].op == SetPhase(FinalizingRegistration)
      ensures ok <==> Persisted(agentContext.log, |old(agentContext.log)| + 1,
                                agentContext.hostname, agentContext.configPath, agentContext.workDir)
      ensures ok ==>
                && agentContext.log[|agentContext.log| - 1].op
                   == ReportCondition(InstallationReady, false, WaitingForInstallation)
                && Before(agentContext.log, 1, Event(ReportCondition(RegistrationReady, true, NoReason), true))
                && NotReady(agentContext.log, |old(agentContext.log)|, |agentContext.log| - 2)
      ensures !ok ==>
                && agentContext.log[|agentContext.log| - 1].op
                   == ReportCondition(RegistrationReady, false, RegistrationFailed)
                && NotReady(agentContext.log, |old(agentContext.log)|, |agentContext.log|)
    {
      agentContext.ReportPhase(FinalizingRegistration);
      ghost var n := |agentContext.log|;
      ok := Finalize(agentContext.hostname, agentContext.configPath, agentContext.workDir);
      if !ok {
        ghost var i := |agentContext.log| - 1;
        agentContext.UpdateCondition(RegistrationReady, false, RegistrationFailed);
        FailedStepMeansNotPersisted(agentContext.log, n, i, agentContext.hostname, agentContext.configPath,
                                    agentContext.workDir);
        return;
      }
      ReportRegistered(quiet, n);
      agentContext.UpdateCondition(InstallationReady, false, WaitingForInstallation);
    }
  }
}
