/** What the agent of one host does to the outside world, call by call, and when each call is justified by the calls
    before it. The loops of cmd/agent and internal/agent/phase are proved to make only justified calls; the management
    side relies on nothing else about agents. */
module AgentProtocol {
  import opened Common
  import opened Objects
  import opened ElementalApi

  datatype Registration = Registration(
    cloudConfig: string, install: string, reset: string, agentConfig: string, workDir: string,
    hostLabels: Labels, hostAnnotations: map<string, string>)

  /** The SHA-256 of the serialised OS version instructions, as an injective function of them. */
  datatype CorrelationId = Sha256(input: OsVersion)

  /** A snapshot of the state partition; `correlation` is its correlationID label. */
  datatype Snapshot = Snapshot(active: bool, correlation: Option<CorrelationId>)

  datatype SentinelFile = Present | Absent | Unreadable

  datatype Document =
    | CloudConfigDocument | InstallDocument | ResetDocument | OsVersionDocument | AgentConfigDocument | IdentityDocument

  datatype RebootCause = ForOsVersion | ForBootstrap

  datatype Op =
    // Elemental API
    | GetRegistration(registration: Registration)
    | CreateHost(hostname: string, hostLabels: Labels, hostAnnotations: map<string, string>)
    | DeleteHost
    | GetBootstrap(format: string, config: string)
    | PatchProbe(hostname: string)
    | PatchRunning(reply: HostResponse)
    | SetPhase(phase: HostPhase)
    | ReportCondition(ctype: ConditionType, status: bool, reason: Reason)
    | PatchInstalled
    | PatchBootstrapped
    | PatchReset
    | PatchUpdateDone
    // Plugin and local system
    | Marshal(document: Document)
    | FormatHostname(hostname: string)
    | InstallHostname(hostname: string)
    | InstallFile(document: Document, path: string)
    | InstallCloudInit(config: string)
    | Install(config: string)
    | TriggerReset
    | PluginReset(config: string)
    | StatSentinel(file: SentinelFile)
    | PluginBootstrap(format: string, config: string)
    | GetState(snapshots: map<int, Snapshot>)
    | Upgrade(image: string, id: CorrelationId)
    | OsVersionDone(osVersion: OsVersion, image: string, reboot: bool)
    | Reboot(cause: RebootCause)
    | PowerOff

  /** A finished call and whether it succeeded. */
  datatype Event = Event(op: Op, ok: bool)

  /** The PATCH request behind a call, if it is one. */
  function Request(op: Op): Option<HostPatchRequest> {
    match op
    case PatchProbe(_) => Some(EMPTY_PATCH)
    case PatchRunning(_) => Some(EMPTY_PATCH.(phase := Some(Running)))
    case SetPhase(p) => Some(EMPTY_PATCH.(phase := Some(p)))
    case ReportCondition(t, s, r) => Some(EMPTY_PATCH.(condition := Some((t, Condition(s, r)))))
    case PatchInstalled =>
      Some(EMPTY_PATCH.(installed := Some(true), condition := Some((InstallationReady, Condition(true, NoReason)))))
    case PatchBootstrapped =>
      Some(EMPTY_PATCH.(bootstrapped := Some(true), condition := Some((BootstrapReady, Condition(true, NoReason)))))
    case PatchReset =>
      Some(EMPTY_PATCH.(reset := Some(true), condition := Some((ResetReady, Condition(true, NoReason)))))
    case PatchUpdateDone => Some(EMPTY_PATCH.(inPlaceUpdate := Some(DONE)))
    case _ => None
  }

  // ---- Vocabulary on logs ----

  predicate Last(log: seq<Event>, e: Event) {
    |log| > 0 && log[|log| - 1] == e
  }

  predicate Before(log: seq<Event>, back: nat, e: Event) {
    |log| > back && log[|log| - 1 - back] == e
  }

  predicate Happened(log: seq<Event>, op: Op) {
    exists i :: 0 <= i < |log| && log[i] == Event(op, true)
  }

  predicate Carries(snapshots: map<int, Snapshot>, id: CorrelationId) {
    exists n :: n in snapshots && snapshots[n].correlation == Some(id)
  }

  // ---- The reset loop ----

  /** Since call i every call succeeded and belongs to the preparation of a reset (or is the reset itself). */
  predicate OnlyResetSteps(log: seq<Event>, i: int) {
    forall q :: 0 <= i < q < |log| ==>
      log[q].ok && (log[q].op.GetRegistration? || log[q].op.Marshal? || log[q].op.PluginReset?)
  }

  /** The iteration under way has marked the host for deletion. */
  predicate DeletedThisRound(log: seq<Event>) {
    exists i :: 0 <= i < |log| && log[i] == Event(DeleteHost, true) && OnlyResetSteps(log, i)
  }

  predicate IsReset(e: Event) {
    e.op.PluginReset? && e.ok
  }

  predicate WasReset(log: seq<Event>) {
    exists i :: 0 <= i < |log| && IsReset(log[i])
  }

  // ---- The install loop ----

  predicate CloudConfigured(e: Event) {
    e.op.InstallCloudInit? && e.ok
  }

  predicate WasInstalled(log: seq<Event>) {
    exists i, j :: 0 <= i < j < |log| && CloudConfigured(log[i]) && log[j].op.Install? && log[j].ok
  }

  /** The registration in use was fetched last, with only successful steps since. */
  predicate FetchedThisRound(log: seq<Event>, registration: Registration) {
    exists i :: 0 <= i < |log| && log[i] == Event(GetRegistration(registration), true)
                && forall q :: i < q < |log| ==> log[q].ok && (log[q].op.Marshal? || log[q].op.InstallCloudInit?)
  }

  predicate CloudConfigStep(op: Op) {
    op.InstallCloudInit? || op == Marshal(CloudConfigDocument)
  }

  predicate InstallStep(op: Op) {
    op.GetRegistration? || CloudConfigStep(op) || op == Marshal(InstallDocument) || op.Install? || op.PatchInstalled?
  }

  function InstallFailure(op: Op): Reason {
    if CloudConfigStep(op) then CloudConfigInstallationFailed else InstallationFailed
  }

  /** A reported installation failure names the step that has just failed. */
  predicate ReasonMatches(log: seq<Event>, reason: Reason) {
    |log| > 0
    && var failed := log[|log| - 1];
       !failed.ok && InstallStep(failed.op)
       && reason == InstallFailure(failed.op)
  }

  // ---- The run loop ----

  /** The reconcile iteration under way works on this reply of the management side. */
  ghost predicate InRound(log: seq<Event>, r: HostResponse) {
    exists i :: RoundStart(log, i, r)
  }

  predicate RoundStart(log: seq<Event>, i: int, r: HostResponse) {
    0 <= i < |log| && log[i] == Event(PatchRunning(r), true) && NoRoundSince(log, i)
  }

  predicate NoRoundSince(log: seq<Event>, i: int) {
    forall q :: 0 <= i < q < |log| ==> !log[q].op.PatchRunning?
  }

  predicate OsVersionSettled(e: Event, osVersion: OsVersion) {
    e.op.OsVersionDone? && e.op.osVersion == osVersion && !e.op.reboot && e.ok
  }

  /** In the iteration that works on reply r, the OS version of r was reconciled without a reboot. */
  ghost predicate OsVersionSettledInRound(log: seq<Event>, r: HostResponse) {
    exists i, j :: RoundStart(log, i, r) && i < j < |log| && OsVersionSettled(log[j], r.osVersion)
  }

  predicate Upgraded(e: Event) {
    e.op.Upgrade? && e.ok
  }

  predicate NeedsBootstrap(r: HostResponse) {
    !r.needsReset && r.bootstrapReady && !r.bootstrapped
  }

  predicate NeedsOsVersion(r: HostResponse) {
    !r.needsReset && (!r.bootstrapped || r.inPlaceUpgrade == PENDING)
  }

  ghost predicate MayPluginReset(log: seq<Event>, config: string) {
    && DeletedThisRound(log)
    && Last(log, Event(Marshal(ResetDocument), true))
    && Fetched(log) && log[|log| - 2].op.registration.reset == config
  }

  /** The registration was fetched by the call before the last one. */
  predicate Fetched(log: seq<Event>) {
    |log| > 1 && log[|log| - 2].ok && log[|log| - 2].op.GetRegistration?
  }

  ghost predicate MayInstallCloudInit(log: seq<Event>, config: string) {
    && Last(log, Event(Marshal(CloudConfigDocument), true))
    && Fetched(log) && log[|log| - 2].op.registration.cloudConfig == config
  }

  ghost predicate MayInstall(log: seq<Event>, config: string) {
    && (exists i :: 0 <= i < |log| && CloudConfigured(log[i]))
    && exists reg :: FetchedThisRound(log, reg) && reg.install == config
  }

  ghost predicate MayReport(log: seq<Event>, ctype: ConditionType, status: bool, reason: Reason) {
    && (ctype == InstallationReady && !status && reason != WaitingForInstallation ==> ReasonMatches(log, reason))
    && (ctype == RegistrationReady && status ==> RegistrationPersisted(log))
  }

  ghost predicate MayCreateHost(log: seq<Event>, hostname: string, labels: Labels, annotations: map<string, string>) {
    && Before(log, 0, Event(PatchProbe(hostname), false))
    && Before(log, 1, Event(FormatHostname(hostname), true))
    && |log| > 2 && log[|log| - 3].ok && log[|log| - 3].op.GetRegistration?
    && log[|log| - 3].op.registration.hostLabels == labels
    && log[|log| - 3].op.registration.hostAnnotations == annotations
  }

  ghost predicate MayUpgrade(log: seq<Event>, image: string, id: CorrelationId) {
    && image != ""
    && (exists snapshots :: Last(log, Event(GetState(snapshots), true)) && !Carries(snapshots, id))
    && (exists r :: InRound(log, r) && NeedsOsVersion(r) && id == Sha256(r.osVersion))
    && (forall i :: 0 <= i < |log| && Upgraded(log[i]) ==> log[i].op.id != id)
  }

  /** ReconcileOSVersion returns true only after an upgrade; it returns false only if no image was asked for or
      some snapshot already carries the hash. */
  ghost predicate MayFinishOsVersion(log: seq<Event>, osVersion: OsVersion, image: string, reboot: bool) {
    if reboot then Last(log, Event(Upgrade(image, Sha256(osVersion)), true))
    else
      || image == ""
      || exists snapshots :: Last(log, Event(GetState(snapshots), true)) && Carries(snapshots, Sha256(osVersion))
  }

  ghost predicate MayReportUpdateDone(log: seq<Event>) {
    && Last(log, Event(ReportCondition(OSVersionReady, true, NoReason), true))
    && exists r: HostResponse :: r.inPlaceUpgrade == PENDING && OsVersionSettledInRound(log, r)
  }

  ghost predicate MayPluginBootstrap(log: seq<Event>, format: string, config: string) {
    && Before(log, 0, Event(GetBootstrap(format, config), true))
    && Before(log, 1, Event(StatSentinel(Absent), true))
    && exists r :: NeedsBootstrap(r) && OsVersionSettledInRound(log, r)
  }

  predicate MayReboot(log: seq<Event>, cause: RebootCause) {
    match cause
    case ForOsVersion =>
      |log| > 3 && log[|log| - 1].op.ReportCondition? && log[|log| - 2].op.SetPhase?
      && log[|log| - 3].op.OsVersionDone? && Upgraded(log[|log| - 4])
    case ForBootstrap =>
      |log| > 1 && log[|log| - 1].op.ReportCondition? && log[|log| - 2].op.PluginBootstrap? && log[|log| - 2].ok
  }

  /** Is this call justified after these? */
  ghost predicate MaySend(log: seq<Event>, op: Op) {
    match op
    case PluginReset(config) => MayPluginReset(log, config)
    case PatchReset => DeletedThisRound(log) && WasReset(log)
    case InstallCloudInit(config) => MayInstallCloudInit(log, config)
    case Install(config) => MayInstall(log, config)
    case PatchInstalled => WasInstalled(log)
    case ReportCondition(ctype, status, reason) => MayReport(log, ctype, status, reason)
    case CreateHost(hostname, labels, annotations) => MayCreateHost(log, hostname, labels, annotations)
    case TriggerReset => exists r :: InRound(log, r) && r.needsReset
    case Upgrade(image, id) => MayUpgrade(log, image, id)
    case OsVersionDone(osVersion, image, reboot) => MayFinishOsVersion(log, osVersion, image, reboot)
    case PatchUpdateDone => MayReportUpdateDone(log)
    case GetBootstrap(_, _) => Last(log, Event(StatSentinel(Absent), true))
    case PluginBootstrap(format, config) => MayPluginBootstrap(log, format, config)
    case PatchBootstrapped => Last(log, Event(StatSentinel(Present), true))
    case Reboot(cause) => MayReboot(log, cause)
    case _ => true
  }

  /** Hostname, agent configuration and identity were persisted, in this order. */
  predicate RegistrationPersisted(log: seq<Event>) {
    exists i, j, k :: 0 <= i < j < k < |log|
                      && log[i].ok && log[i].op.InstallHostname?
                      && log[j].ok && log[j].op.InstallFile? && log[j].op.document == AgentConfigDocument
                      && log[k].ok && log[k].op.InstallFile? && log[k].op.document == IdentityDocument
  }

  /** Every call of a log was justified when it was made. */
  ghost predicate LogOk(log: seq<Event>) {
    forall p {:trigger MaySend(log[..p], log[p].op)} :: 0 <= p < |log| ==> MaySend(log[..p], log[p].op)
  }

  lemma Justified(log: seq<Event>, p: nat)
    requires LogOk(log) && p < |log|
    ensures MaySend(log[..p], log[p].op)
  {
  }

  lemma LogGrows(log: seq<Event>, e: Event)
    requires LogOk(log) && MaySend(log, e.op)
    ensures LogOk(log + [e])
  {
    var longer := log + [e];
    forall p | 0 <= p < |longer| ensures MaySend(longer[..p], longer[p].op) {
      if p < |log| {
        assert longer[..p] == log[..p];
        Justified(log, p);
      } else {
        assert longer[..p] == log;
      }
    }
  }

  // ---- What a justified log says ----

  /** The successful reset j belongs to the iteration whose DeleteHost succeeded as call i: nothing failed in between,
      and nothing else happened than the steps of one reset iteration. */
  predicate ResetFollowsDeletion(log: seq<Event>, i: int, j: int) {
    && 0 <= i < j < |log| && log[i] == Event(DeleteHost, true) && IsReset(log[j])
    && forall q :: i < q < j ==> log[q].ok && (log[q].op.GetRegistration? || log[q].op.Marshal? || IsReset(log[q]))
  }

  /** A reported reset was really done: the plugin's reset succeeded, and both in the iteration that reset and in the
      one that reported the host had been marked for deletion before. */
  lemma ReportedResetHappened(log: seq<Event>, p: nat)
    requires LogOk(log) && p < |log| && log[p].op.PatchReset?
    ensures DeletedThisRound(log[..p])
    ensures exists i, j :: j < p && ResetFollowsDeletion(log, i, j)
  {
    Justified(log, p);
    var j :| 0 <= j < p && IsReset(log[..p][j]);
    assert IsReset(log[j]);
    Justified(log, j);
    var i :| 0 <= i < j && log[..j][i] == Event(DeleteHost, true) && OnlyResetSteps(log[..j], i);
    forall q | i < q < j ensures log[q].ok && (log[q].op.GetRegistration? || log[q].op.Marshal? || IsReset(log[q])) {
      assert log[..j][q] == log[q];
    }
    assert ResetFollowsDeletion(log, i, j);
  }

  /** A host reported as installed got its cloud-config and then its installation. */
  lemma ReportedInstallHappened(log: seq<Event>, p: nat)
    requires LogOk(log) && p < |log| && log[p].op.PatchInstalled?
    ensures exists i, j :: 0 <= i < j < p && CloudConfigured(log[i]) && log[j].op.Install? && log[j].ok
  {
    var before := log[..p];
    Justified(log, p);
    var i, j :| 0 <= i < j < p && CloudConfigured(before[i]) && before[j].op.Install? && before[j].ok;
    assert CloudConfigured(log[i]) && log[j].op.Install? && log[j].ok;
  }

  /** A host was reported as bootstrapped only right after the sentinel file was seen. */
  lemma ReportedBootstrapWasObserved(log: seq<Event>, p: nat)
    requires LogOk(log) && p < |log| && log[p].op.PatchBootstrapped?
    ensures p > 0 && log[p - 1] == Event(StatSentinel(Present), true)
  {
    Justified(log, p);
  }

  /** The OS version reconciliation that ended at j had nothing to do: no image was asked for, or some snapshot
      already carried the hash of the instructions. */
  predicate OsVersionInPlace(log: seq<Event>, j: nat)
    requires j < |log| && log[j].op.OsVersionDone?
  {
    log[j].op.image == ""
    || (j > 0 && log[j - 1].ok && log[j - 1].op.GetState?
        && Carries(log[j - 1].op.snapshots, Sha256(log[j].op.osVersion)))
  }

  lemma SettledIsInPlace(log: seq<Event>, j: nat)
    requires LogOk(log) && j < |log| && log[j].op.OsVersionDone? && !log[j].op.reboot
    ensures OsVersionInPlace(log, j)
  {
    Justified(log, j);
    var before := log[..j];
    if log[j].op.image != "" {
      var snapshots :| Last(before, Event(GetState(snapshots), true))
        && Carries(snapshots, Sha256(log[j].op.osVersion));
      assert log[j - 1] == Event(GetState(snapshots), true);
    }
  }

  /** Whenever the bootstrap configuration is applied, the OS version of the same reply had been reconciled without
      reboot in the same iteration, and is in place. */
  lemma BootstrapFollowsOsVersion(log: seq<Event>, p: nat)
    requires LogOk(log) && p < |log| && log[p].op.PluginBootstrap?
    ensures exists i, j, r :: RoundStart(log[..p], i, r) && NeedsBootstrap(r)
                              && 0 <= i < j < p && OsVersionSettled(log[j], r.osVersion) && OsVersionInPlace(log, j)
  {
    Justified(log, p);
    var before := log[..p];
    assert MayPluginBootstrap(before, log[p].op.format, log[p].op.config);
    var r :| NeedsBootstrap(r) && OsVersionSettledInRound(before, r);
    var i, j :| RoundStart(before, i, r) && i < j < |before| && OsVersionSettled(before[j], r.osVersion);
    assert log[j] == before[j];
    SettledIsInPlace(log, j);
  }

  /** No bootstrap and no upgrade in an iteration whose reply asks for a reset. */
  lemma ResetComesFirst(log: seq<Event>, p: nat, r: HostResponse)
    requires LogOk(log) && p < |log| && (log[p].op.PluginBootstrap? || log[p].op.Upgrade?)
    requires InRound(log[..p], r)
    ensures !r.needsReset
  {
    var before := log[..p];
    Justified(log, p);
    var i :| RoundStart(before, i, r);
    if log[p].op.Upgrade? {
      var r' :| InRound(before, r') && NeedsOsVersion(r');
      var i' :| RoundStart(before, i', r');
      OneRound(before, i, r, i', r');
    } else {
      var r' :| NeedsBootstrap(r') && OsVersionSettledInRound(before, r');
      var i', j :| RoundStart(before, i', r') && i' < j < p && OsVersionSettled(before[j], r'.osVersion);
      OneRound(before, i, r, i', r');
    }
  }

  lemma OneRound(log: seq<Event>, i: int, r: HostResponse, i': int, r': HostResponse)
    requires RoundStart(log, i, r) && RoundStart(log, i', r')
    ensures i == i' && r == r'
  {
    assert log[i].op.PatchRunning? && log[i'].op.PatchRunning?;
  }

  // ---- What the calls carry ----

  /** A report that gets through leaves on the host what it is about, and only that. */
  lemma ReportsLeaveTheirMark(h: Host, op: Op)
    requires Request(op).Some?
    ensures var after := Applied(h, Request(op).value);
            match op
            case PatchProbe(_) => after == h
            case PatchRunning(_) => after == h.(phase := Running)
            case SetPhase(p) => after == h.(phase := p)
            case ReportCondition(t, s, r) => after == h.(conditions := h.conditions[t := Condition(s, r)])
            case PatchInstalled =>
              after == h.(labels := h.labels[Installed := "true"],
                          conditions := h.conditions[InstallationReady := Condition(true, NoReason)])
            case PatchBootstrapped =>
              after == h.(labels := h.labels[Bootstrapped := "true"],
                          conditions := h.conditions[BootstrapReady := Condition(true, NoReason)])
            case PatchReset =>
              after == h.(labels := h.labels[Reset := "true"],
                          conditions := h.conditions[ResetReady := Condition(true, NoReason)])
            case PatchUpdateDone => after == h.(labels := h.labels[InPlaceUpdate := "done"])
            case _ => false
  {
    var p := Request(op).value;
    assert h.labels + p.labels == h.labels && h.annotations + p.annotations == h.annotations;
  }

  /** Exactly the calls of the agent that talk about its host are PATCH requests. */
  lemma RequestsAreReports(op: Op)
    ensures Request(op).Some? <==>
              || op.PatchProbe? || op.PatchRunning? || op.SetPhase? || op.ReportCondition?
              || op.PatchInstalled? || op.PatchBootstrapped? || op.PatchReset? || op.PatchUpdateDone?
  {
  }

  /** The system is reset with the reset instructions of the registration fetched right before. */
  lemma ResetUsesItsRegistration(log: seq<Event>, p: nat)
    requires LogOk(log) && p < |log| && log[p].op.PluginReset?
    ensures p > 1 && log[p - 1] == Event(Marshal(ResetDocument), true)
    ensures log[p - 2].ok && log[p - 2].op.GetRegistration? && log[p - 2].op.registration.reset == log[p].op.config
  {
    Justified(log, p);
  }

  /** The cloud-config is the one of the registration fetched right before. */
  lemma CloudConfigOfItsRegistration(log: seq<Event>, p: nat)
    requires LogOk(log) && p < |log| && log[p].op.InstallCloudInit?
    ensures p > 1 && log[p - 1] == Event(Marshal(CloudConfigDocument), true)
    ensures log[p - 2].ok && log[p - 2].op.GetRegistration?
            && log[p - 2].op.registration.cloudConfig == log[p].op.config
  {
    Justified(log, p);
  }

  /** The system is installed with the instructions of the registration fetched last, after the cloud-config was
      applied and with no failure since the fetch. */
  lemma InstallUsesItsRegistration(log: seq<Event>, p: nat)
    requires LogOk(log) && p < |log| && log[p].op.Install?
    ensures exists i ::
              && 0 <= i < p && log[i].ok && log[i].op.GetRegistration?
              && log[i].op.registration.install == log[p].op.config
              && forall q :: i < q < p ==> log[q].ok && (log[q].op.Marshal? || log[q].op.InstallCloudInit?)
    ensures exists c :: 0 <= c < p && log[c].ok && log[c].op.InstallCloudInit?
  {
    var before := log[..p];
    Justified(log, p);
    var reg :| FetchedThisRound(before, reg) && reg.install == log[p].op.config;
    var i :| 0 <= i < |before| && before[i] == Event(GetRegistration(reg), true)
             && forall q :: i < q < |before| ==>
                  before[q].ok && (before[q].op.Marshal? || before[q].op.InstallCloudInit?);
    assert log[i].op.registration == reg;
    forall q | i < q < p ensures log[q].ok && (log[q].op.Marshal? || log[q].op.InstallCloudInit?) {
      assert before[q] == log[q];
    }
    var c :| 0 <= c < |before| && CloudConfigured(before[c]);
    assert log[c] == before[c];
  }

  /** A host is created under a hostname that was formatted and found unused right before, with the labels and
      annotations of the registration fetched before that. */
  lemma HostsAreCreatedAsRegistered(log: seq<Event>, p: nat)
    requires LogOk(log) && p < |log| && log[p].op.CreateHost?
    ensures var hostname := log[p].op.hostname;
            && p > 2
            && log[p - 1] == Event(PatchProbe(hostname), false) && log[p - 2] == Event(FormatHostname(hostname), true)
            && log[p - 3].ok && log[p - 3].op.GetRegistration?
            && log[p - 3].op.registration.hostLabels == log[p].op.hostLabels
            && log[p - 3].op.registration.hostAnnotations == log[p].op.hostAnnotations
  {
    Justified(log, p);
  }

  /** The applied bootstrap configuration is the one fetched right before, after the sentinel file was found absent. */
  lemma BootstrapUsesWhatWasFetched(log: seq<Event>, p: nat)
    requires LogOk(log) && p < |log| && log[p].op.PluginBootstrap?
    ensures p > 1 && log[p - 2] == Event(StatSentinel(Absent), true)
    ensures log[p - 1] == Event(GetBootstrap(log[p].op.format, log[p].op.config), true)
  {
    Justified(log, p);
  }

  /** An update in place is reported as done right after the condition of the OS version got through, in an iteration
      whose reply had asked for it. */
  lemma UpdateDoneWasAskedFor(log: seq<Event>, p: nat)
    requires LogOk(log) && p < |log| && log[p].op.PatchUpdateDone?
    ensures p > 0 && log[p - 1] == Event(ReportCondition(OSVersionReady, true, NoReason), true)
    ensures exists r: HostResponse :: r.inPlaceUpgrade == "pending" && InRound(log[..p], r)
  {
    Justified(log, p);
    var r: HostResponse :| r.inPlaceUpgrade == PENDING && OsVersionSettledInRound(log[..p], r);
    var i, j :| RoundStart(log[..p], i, r) && i < j < |log[..p]| && OsVersionSettled(log[..p][j], r.osVersion);
    assert InRound(log[..p], r);
  }

  /** The host reboots only right after an upgrade, or right after a bootstrap configuration was applied. */
  lemma RebootsHaveACause(log: seq<Event>, p: nat)
    requires LogOk(log) && p < |log| && log[p].op.Reboot?
    ensures match log[p].op.cause
            case ForOsVersion => p > 3 && log[p - 4].ok && log[p - 4].op.Upgrade?
            case ForBootstrap => p > 1 && log[p - 2].ok && log[p - 2].op.PluginBootstrap?
  {
    Justified(log, p);
  }

  // ---- Bounded reboots ----

  function UpgradesAt(log: seq<Event>): set<nat> {
    set p: nat | p < |log| && Upgraded(log[p])
  }

  function OsRebootsAt(log: seq<Event>): set<nat> {
    set p: nat | p < |log| && log[p].op == Reboot(ForOsVersion)
  }

  /** The hashes of all OS version instructions the agent has received. */
  function ReceivedIds(log: seq<Event>): set<CorrelationId> {
    set p: nat | p < |log| && log[p].op.PatchRunning? && log[p].ok :: Sha256(log[p].op.reply.osVersion)
  }

  lemma LaterUpgradesDiffer(log: seq<Event>, p: nat, q: nat)
    requires LogOk(log) && p < q < |log| && Upgraded(log[p]) && Upgraded(log[q])
    ensures log[p].op.id != log[q].op.id
  {
    Justified(log, q);
    assert log[..q][p] == log[p];
  }

  /** Every hash is upgraded to successfully at most once, however the system is reverted to other snapshots. */
  lemma UpgradedOnce(log: seq<Event>, p: nat, q: nat)
    requires LogOk(log) && p < |log| && q < |log| && Upgraded(log[p]) && Upgraded(log[q])
    requires log[p].op.id == log[q].op.id
    ensures p == q
  {
    if p < q {
      LaterUpgradesDiffer(log, p, q);
    } else if q < p {
      LaterUpgradesDiffer(log, q, p);
    }
  }

  lemma UpgradeWasAskedFor(log: seq<Event>, p: nat)
    requires LogOk(log) && p < |log| && log[p].op.Upgrade?
    ensures log[p].op.id in ReceivedIds(log)
  {
    var before := log[..p];
    Justified(log, p);
    var r :| InRound(before, r) && log[p].op.id == Sha256(r.osVersion);
    var i :| RoundStart(before, i, r);
    assert log[i] == before[i];
  }

  /** An injective image of one finite set inside another is no larger. */
  lemma {:induction false} NoLargerThan(domain: set<nat>, image: set<CorrelationId>, log: seq<Event>)
    requires forall p :: p in domain ==> p < |log| && Upgraded(log[p]) && log[p].op.id in image
    requires forall p, q ::
               p in domain && q in domain && p != q && p < |log| && q < |log| && Upgraded(log[p]) && Upgraded(log[q])
               ==> log[p].op.id != log[q].op.id
    ensures |domain| <= |image|
  {
    if domain == {} {
    } else {
      var p :| p in domain;
      NoLargerThan(domain - {p}, image - {log[p].op.id}, log);
    }
  }

  lemma {:induction false} ShiftedBack(reboots: set<nat>, upgrades: set<nat>)
    requires forall p :: p in reboots ==> p >= 4 && p - 4 in upgrades
    ensures |reboots| <= |upgrades|
  {
    if reboots == {} {
    } else {
      var p :| p in reboots;
      ShiftedBack(reboots - {p}, upgrades - {p - 4});
    }
  }

  /** Over a whole log, upgrades and the reboots they cause are bounded by the number of distinct instructions
      received. */
  lemma BoundedReboots(log: seq<Event>)
    requires LogOk(log)
    ensures |OsRebootsAt(log)| <= |UpgradesAt(log)| <= |ReceivedIds(log)|
  {
    forall p | p in OsRebootsAt(log) ensures p >= 4 && p - 4 in UpgradesAt(log) {
      Justified(log, p);
      assert log[..p][p - 4] == log[p - 4];
    }
    ShiftedBack(OsRebootsAt(log), UpgradesAt(log));
    forall p | p in UpgradesAt(log) ensures log[p].op.id in ReceivedIds(log) {
      UpgradeWasAskedFor(log, p);
    }
    forall p, q | p in UpgradesAt(log) && q in UpgradesAt(log) && p != q ensures log[p].op.id != log[q].op.id {
      if log[p].op.id == log[q].op.id {
        UpgradedOnce(log, p, q);
      }
    }
    NoLargerThan(UpgradesAt(log), ReceivedIds(log), log);
  }
}
