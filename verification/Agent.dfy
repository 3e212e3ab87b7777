/** The agent of one host: its context, the calls it makes, and the plugin's view of the installed system.
    The environment answers call number i of the agent by functions of i; a failed call has no effect. */
module Agent {
  import opened Common
  import opened Objects
  import opened ElementalApi
  import opened AgentProtocol

  datatype Environment = Environment(
    ok: nat -> bool,
    registration: nat -> Registration,
    hostExists: nat -> bool,
    hostname: nat -> string,
    reply: nat -> HostResponse,
    bootstrapFormat: nat -> string,
    bootstrapConfig: nat -> string,
    sentinel: nat -> SentinelFile,
    activeSnapshot: nat -> int,
    imageURI: OsVersion -> Option<string>)

  /** From call n on nothing fails any more. */
  ghost predicate QuietFrom(env: Environment, n: nat) {
    forall i :: i >= n ==> env.ok(i)
  }

  lemma FailsBeforeQuiet(env: Environment, quiet: nat, i: nat)
    requires QuietFrom(env, quiet) && !env.ok(i)
    ensures i < quiet
  {
  }

  /** Every identifier that was upgraded to has its snapshot, whichever snapshot is active. */
  ghost predicate Retained(log: seq<Event>, snapshots: seq<Option<CorrelationId>>) {
    forall i :: 0 <= i < |log| && Upgraded(log[i]) ==> Some(log[i].op.id) in snapshots
  }

  function ImageOf(env: Environment, osVersion: OsVersion): string {
    if env.imageURI(osVersion).Some? then env.imageURI(osVersion).value else ""
  }

  /** Does this call speak of the image that its instructions ask for? */
  predicate NamesItsImage(env: Environment, op: Op) {
    && (op.OsVersionDone? ==> env.imageURI(op.osVersion) == Some(op.image))
    && (op.Upgrade? ==> env.imageURI(op.id.input) == Some(op.image))
  }

  /** No upgrade and no finished reconciliation is about another image than its instructions ask for. */
  ghost predicate ImagesOk(env: Environment, log: seq<Event>) {
    forall p :: 0 <= p < |log| ==> NamesItsImage(env, log[p].op)
  }

  /** The calls added to a log by a reconciliation of the OS version. */
  predicate OsVersionSteps(before: seq<Event>, after: seq<Event>) {
    && before <= after
    && forall q :: |before| <= q < |after| ==>
         after[q].op.GetState? || after[q].op.Upgrade? || after[q].op.OsVersionDone?
  }

  /** No upgrade succeeded since call n. */
  predicate NoUpgrade(log: seq<Event>, n: nat) {
    forall q :: n <= q < |log| ==> !Upgraded(log[q])
  }

  function StateOf(snapshots: seq<Option<CorrelationId>>, active: int): map<int, Snapshot> {
    map n | 0 <= n < |snapshots| :: Snapshot(n == active, snapshots[n])
  }

  lemma StateCarries(snapshots: seq<Option<CorrelationId>>, active: int, id: CorrelationId)
    ensures Carries(StateOf(snapshots, active), id) <==> Some(id) in snapshots
  {
    var state := StateOf(snapshots, active);
    if Some(id) in snapshots {
      var n :| 0 <= n < |snapshots| && snapshots[n] == Some(id);
      assert n in state && state[n].correlation == Some(id);
    }
  }

  /** An iteration of the run loop goes on until the next reply. */
  lemma RoundContinues(log: seq<Event>, e: Event)
    requires !e.op.PatchRunning?
    ensures forall r :: InRound(log, r) ==> InRound(log + [e], r)
    ensures forall r :: OsVersionSettledInRound(log, r) ==> OsVersionSettledInRound(log + [e], r)
  {
    var longer := log + [e];
    forall i, r | RoundStart(log, i, r) ensures RoundStart(longer, i, r) {
    }
    forall r | OsVersionSettledInRound(log, r) ensures OsVersionSettledInRound(longer, r) {
      var i, j :| RoundStart(log, i, r) && i < j < |log| && OsVersionSettled(log[j], r.osVersion);
      assert RoundStart(longer, i, r) && OsVersionSettled(longer[j], r.osVersion);
    }
  }

  lemma UpgradeIsJustified(log: seq<Event>, snapshots: seq<Option<CorrelationId>>, state: map<int, Snapshot>,
                           image: string, r: HostResponse)
    requires Retained(log, snapshots) && Some(Sha256(r.osVersion)) !in snapshots
    requires image != "" && Last(log, Event(GetState(state), true)) && !Carries(state, Sha256(r.osVersion))
    requires InRound(log, r) && NeedsOsVersion(r)
    ensures MayUpgrade(log, image, Sha256(r.osVersion))
  {
    forall i | 0 <= i < |log| && Upgraded(log[i]) ensures log[i].op.id != Sha256(r.osVersion) {
      assert Some(log[i].op.id) in snapshots;
    }
  }

  lemma FinishIsJustified(log: seq<Event>, state: map<int, Snapshot>, osVersion: OsVersion, image: string)
    requires Last(log, Event(GetState(state), true)) && Carries(state, Sha256(osVersion))
    ensures MayFinishOsVersion(log, osVersion, image, false)
  {
  }

  class AgentContext {
    const env: Environment
    /** Every call so far, in order. */
    var log: seq<Event>
    /** The correlation identifier of every snapshot of the installed system. */
    var snapshots: seq<Option<CorrelationId>>
    var hostname: string
    var config: string
    var workDir: string
    const configPath: string

    ghost predicate Valid()
      reads this
    {
      LogOk(log) && Retained(log, snapshots) && ImagesOk(env, log)
    }

    constructor (env: Environment, snapshots: seq<Option<CorrelationId>>, hostname: string, configPath: string)
      ensures Valid() && log == [] && this.env == env && this.snapshots == snapshots
    {
      this.env, this.snapshots, this.hostname, this.configPath := env, snapshots, hostname, configPath;
      log, config, workDir := [], "", "";
    }

    /** Notes a call and its outcome. */
    method Record(op: Op, ok: bool)
      requires Valid() && MaySend(log, op) && !op.Upgrade? && NamesItsImage(env, op)
      modifies this`log
      ensures Valid() && log == old(log) + [Event(op, ok)]
      ensures !op.PatchRunning? ==> forall r :: InRound(old(log), r) ==> InRound(log, r)
      ensures !op.PatchRunning? ==> forall r :: OsVersionSettledInRound(old(log), r) ==> OsVersionSettledInRound(log, r)
    {
      LogGrows(log, Event(op, ok));
      if !op.PatchRunning? {
        RoundContinues(log, Event(op, ok));
      }
      log := log + [Event(op, ok)];
    }

    /** Makes a call that the environment lets succeed or fail. */
    method Call(op: Op) returns (ok: bool)
      requires Valid() && MaySend(log, op) && !op.Upgrade? && NamesItsImage(env, op)
      modifies this`log
      ensures Valid() && log == old(log) + [Event(op, ok)] && ok == env.ok(|old(log)|)
      ensures !op.PatchRunning? ==> forall r :: InRound(old(log), r) ==> InRound(log, r)
      ensures !op.PatchRunning? ==> forall r :: OsVersionSettledInRound(old(log), r) ==> OsVersionSettledInRound(log, r)
    {
      ok := env.ok(|log|);
      Record(op, ok);
    }

    method FetchRegistration() returns (registration: Option<Registration>)
      requires Valid()
      modifies this`log
      ensures Valid() && registration.Some? == env.ok(|old(log)|)
      ensures log == old(log) + [Event(GetRegistration(env.registration(|old(log)|)), registration.Some?)]
      ensures registration.Some? ==> registration.value == env.registration(|old(log)|)
    {
      var answer := env.registration(|log|);
      var ok := Call(GetRegistration(answer));
      registration := if ok then Some(answer) else None;
    }

    /** Best effort: the outcome is ignored. */
    method UpdateCondition(ctype: ConditionType, status: bool, reason: Reason)
      requires Valid() && MayReport(log, ctype, status, reason)
      modifies this`log
      ensures Valid() && log == old(log) + [Event(ReportCondition(ctype, status, reason), env.ok(|old(log)|))]
      ensures forall r :: InRound(old(log), r) ==> InRound(log, r)
      ensures forall r :: OsVersionSettledInRound(old(log), r) ==> OsVersionSettledInRound(log, r)
    {
      var _ := Call(ReportCondition(ctype, status, reason));
    }

    method ReportPhase(phase: HostPhase)
      requires Valid()
      modifies this`log
      ensures Valid() && log == old(log) + [Event(SetPhase(phase), env.ok(|old(log)|))]
      ensures forall r :: InRound(old(log), r) ==> InRound(log, r)
      ensures forall r :: OsVersionSettledInRound(old(log), r) ==> OsVersionSettledInRound(log, r)
    {
      var _ := Call(SetPhase(phase));
    }

    // ---- elemental.go: OS version ----

    /** Looks at the snapshots in any order and stops at the first hit. */
    method IsCorrelationIDFound(id: CorrelationId) returns (ok: bool, found: bool)
      requires Valid()
      modifies this`log
      ensures Valid() && ok == env.ok(|old(log)|)
      ensures var state := StateOf(snapshots, env.activeSnapshot(|old(log)|));
              log == old(log) + [Event(GetState(state), ok)]
              && (ok ==> (found <==> Carries(state, id)) && (found <==> Some(id) in snapshots))
      ensures forall r :: InRound(old(log), r) ==> InRound(log, r)
    {
      var state := StateOf(snapshots, env.activeSnapshot(|log|));
      StateCarries(snapshots, env.activeSnapshot(|log|), id);
      ok := Call(GetState(state));
      if !ok {
        return false, false;
      }
      if state == map[] {
        return true, false;
      }
      var correlationIDFound := false;
      var correlationIDFoundInActiveSnapshot := false;
      var rest := state.Keys;
      while rest != {}
        invariant rest <= state.Keys
        invariant !correlationIDFound
        invariant forall n :: n in state && n !in rest ==> state[n].correlation != Some(id)
        decreases rest
      {
        var n :| n in rest;
        rest := rest - {n};
        if state[n].correlation == Some(id) {
          correlationIDFound := true;
          correlationIDFoundInActiveSnapshot := state[n].active;
          break;
        }
      }
      if correlationIDFound && !correlationIDFoundInActiveSnapshot {
        return true, true;
      }
      if correlationIDFound && correlationIDFoundInActiveSnapshot {
        return true, true;
      }
      found := false;
    }

    /** A successful upgrade adds a snapshot with its label; none is ever lost. */
    method RunUpgrade(image: string, id: CorrelationId) returns (ok: bool)
      requires Valid() && MayUpgrade(log, image, id) && env.imageURI(id.input) == Some(image)
      modifies this`log, this`snapshots
      ensures Valid() && ok == env.ok(|old(log)|) && log == old(log) + [Event(Upgrade(image, id), ok)]
      ensures snapshots == if ok then old(snapshots) + [Some(id)] else old(snapshots)
      ensures forall r :: InRound(old(log), r) ==> InRound(log, r)
    {
      ok := env.ok(|log|);
      LogGrows(log, Event(Upgrade(image, id), ok));
      RoundContinues(log, Event(Upgrade(image, id), ok));
      log := log + [Event(Upgrade(image, id), ok)];
      if ok {
        snapshots := snapshots + [Some(id)];
      }
    }

    /** ReconcileOSVersion of the plugin, called in an iteration of the run loop that works on reply r. */
    method ReconcileOSVersion(osVersion: OsVersion, ghost r: HostResponse) returns (ok: bool, reboot: bool)
      requires Valid() && InRound(log, r) && NeedsOsVersion(r) && r.osVersion == osVersion
      modifies this`log, this`snapshots
      ensures Valid() && OsVersionSteps(old(log), log) && InRound(log, r)
      ensures ok ==> Last(log, Event(OsVersionDone(osVersion, ImageOf(env, osVersion), reboot), true))
      ensures ok && reboot ==> |log| > 1 && Upgraded(log[|log| - 2]) && log[|log| - 2].op.id == Sha256(osVersion)
                               && Some(Sha256(osVersion)) in snapshots && Some(Sha256(osVersion)) !in old(snapshots)
      ensures !(ok && reboot) ==> snapshots == old(snapshots) && NoUpgrade(log, |old(log)|)
      ensures ok && !reboot ==> env.imageURI(osVersion) == Some("") || Some(Sha256(osVersion)) in snapshots
      ensures !ok ==>
                && !reboot
                && if env.imageURI(osVersion).None? then log == old(log) else old(log) < log && !log[|log| - 1].ok
      ensures ok && !reboot ==> OsVersionSettledInRound(log, r)
    {
      var image := env.imageURI(osVersion);
      if image.None? {
        return false, false;
      }
      if image.value == "" {
        Finish(osVersion, "", false, r);
        ok, reboot := true, false;
      } else {
        ok, reboot := EnsureSnapshot(osVersion, image.value, r);
      }
    }

    /** The part after an image was found in the instructions. */
    method EnsureSnapshot(osVersion: OsVersion, image: string, ghost r: HostResponse) returns (ok: bool, reboot: bool)
      requires Valid() && InRound(log, r) && NeedsOsVersion(r) && r.osVersion == osVersion
      requires image != "" && env.imageURI(osVersion) == Some(image)
      modifies this`log, this`snapshots
      ensures Valid() && OsVersionSteps(old(log), log) && InRound(log, r)
      ensures ok ==> Last(log, Event(OsVersionDone(osVersion, image, reboot), true))
      ensures ok && reboot ==> |log| > 1 && Upgraded(log[|log| - 2]) && log[|log| - 2].op.id == Sha256(osVersion)
                               && Some(Sha256(osVersion)) in snapshots && Some(Sha256(osVersion)) !in old(snapshots)
      ensures !(ok && reboot) ==> snapshots == old(snapshots) && NoUpgrade(log, |old(log)|)
      ensures ok && !reboot ==> Some(Sha256(osVersion)) in snapshots && OsVersionSettledInRound(log, r)
      ensures !ok ==> !reboot && old(log) < log && !log[|log| - 1].ok
    {
      var id := Sha256(osVersion);
      ghost var state := StateOf(snapshots, env.activeSnapshot(|log|));
      var found;
      ok, found := IsCorrelationIDFound(id);
      if !ok {
        return false, false;
      }
      if found {
        FinishIsJustified(log, state, osVersion, image);
        Finish(osVersion, image, false, r);
        return true, false;
      }
      UpgradeIsJustified(log, snapshots, state, image, r);
      ok := RunUpgrade(image, id);
      if !ok {
        return false, false;
      }
      Finish(osVersion, image, true, r);
      reboot := true;
    }

    method Finish(osVersion: OsVersion, image: string, reboot: bool, ghost r: HostResponse)
      requires Valid() && InRound(log, r) && r.osVersion == osVersion
      requires MayFinishOsVersion(log, osVersion, image, reboot) && env.imageURI(osVersion) == Some(image)
      modifies this`log
      ensures Valid() && log == old(log) + [Event(OsVersionDone(osVersion, image, reboot), true)]
      ensures InRound(log, r) && (!reboot ==> OsVersionSettledInRound(log, r))
    {
      Record(OsVersionDone(osVersion, image, reboot), true);
      ghost var i :| RoundStart(log, i, r);
      if !reboot {
        assert OsVersionSettled(log[|log| - 1], r.osVersion);
      }
    }
  }

  /** The OS version that a reply asks for is in place at call j: its instructions name no image, or the agent had just
      seen a snapshot that carries their hash. */
  predicate InPlaceAt(env: Environment, log: seq<Event>, j: nat, osVersion: OsVersion) {
    || env.imageURI(osVersion) == Some("")
    || (&& 0 < j <= |log| && log[j - 1].ok && log[j - 1].op.GetState?
        && Carries(log[j - 1].op.snapshots, Sha256(osVersion)))
  }

  /** Whenever the agent applies a bootstrap configuration, it had made sure in the same iteration that the OS version
      of the same reply is in place. */
  lemma BootstrapOnTheRightOsVersion(agentContext: AgentContext, p: nat)
    requires agentContext.Valid() && p < |agentContext.log| && agentContext.log[p].op.PluginBootstrap?
    ensures exists i, j, r ::
              && RoundStart(agentContext.log[..p], i, r) && NeedsBootstrap(r)
              && 0 <= i < j < p && OsVersionSettled(agentContext.log[j], r.osVersion)
              && InPlaceAt(agentContext.env, agentContext.log, j, r.osVersion)
  {
    var log := agentContext.log;
    BootstrapFollowsOsVersion(log, p);
    var i, j, r :| && RoundStart(log[..p], i, r) && NeedsBootstrap(r)
                   && 0 <= i < j < p && OsVersionSettled(log[j], r.osVersion) && OsVersionInPlace(log, j);
    assert NamesItsImage(agentContext.env, log[j].op);
    assert InPlaceAt(agentContext.env, log, j, r.osVersion);
  }

  /** Every successful upgrade installs the image that the instructions with its hash ask for, and these were
      received. */
  lemma UpgradesAsAsked(agentContext: AgentContext, p: nat)
    requires agentContext.Valid() && p < |agentContext.log| && Upgraded(agentContext.log[p])
    ensures var op := agentContext.log[p].op;
            && op.image != "" && agentContext.env.imageURI(op.id.input) == Some(op.image)
            && op.id in ReceivedIds(agentContext.log)
  {
    Justified(agentContext.log, p);
    UpgradeWasAskedFor(agentContext.log, p);
    assert NamesItsImage(agentContext.env, agentContext.log[p].op);
  }
}
