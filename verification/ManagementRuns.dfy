/** What holds in every run of the management cluster, over any interleaving and any crash. */
module ManagementRuns {
  import opened Common
  import opened Objects
  import opened Patches
  import opened Store
  import opened ElementalApi
  import opened MachineReconciler
  import opened AgentProtocol
  import opened Management
  import opened ManagementSafety

  ghost predicate Reachable(s: State) {
    exists states, actions, n: nat :: Run(states, actions) && n < |states| && states[n] == s
  }

  lemma ReachableIsOk(s: State)
    requires Reachable(s)
    ensures Inv(s)
  {
    var states, actions, n: nat :| Run(states, actions) && n < |states| && states[n] == s;
    RunKeepsInv(states, actions, n);
  }

  lemma StepStaysReachable(s: State, a: Action)
    requires Reachable(s) && Enabled(s, a)
    ensures Reachable(Do(s, a))
  {
    var states, actions, n: nat :| Run(states, actions) && n < |states| && states[n] == s;
    var states', actions' := states[..n + 1] + [Do(s, a)], actions[..n] + [a];
    forall i | 0 <= i < |actions'|
      ensures Enabled(states'[i], actions'[i]) && states'[i + 1] == Do(states'[i], actions'[i]) {
      if i < n {
        RunStep(states, actions, i);
      }
    }
    assert Run(states', actions') && states'[n + 1] == Do(s, a);
  }

  // ---- In every reachable state ----

  /** Two machines never refer to the same host, and a live host named by a machine names that machine in return. */
  lemma ExclusiveAssociation(s: State, m1: Key, m2: Key)
    requires Reachable(s) && m1 in s.machines && m2 in s.machines
    requires s.machines[m1].hostRef.Some?
    ensures s.machines[m1].hostRef == s.machines[m2].hostRef ==> m1 == m2
    ensures var hk := s.machines[m1].hostRef.value;
            hk in s.hosts ==>
              s.hosts[hk].machineRef == Some(m1) && Get(s.hosts[hk].labels, ElementalMachineName) == Some(m1.name)
              && hk.ns == m1.ns && s.hosts[hk].bootstrapSecret.Some? && IsTrue(s.hosts[hk].labels, Installed)
  {
    ReachableIsOk(s);
    assert MachineOk(s.owner, m1, s.machines[m1]) && MachineOk(s.owner, m2, s.machines[m2]);
    var hk := s.machines[m1].hostRef.value;
    if hk in s.hosts {
      assert HostOk(s, hk, s.hosts[hk]);
    }
  }

  /** A machine's name is on at most one live host that is not being reset. */
  lemma OneHostPerMachine(s: State, a: Key, b: Key)
    requires Reachable(s) && a in s.hosts && b in s.hosts && a.ns == b.ns
    requires ElementalMachineName in s.hosts[a].labels && NeedsReset !in s.hosts[a].labels
    requires ElementalMachineName in s.hosts[b].labels && NeedsReset !in s.hosts[b].labels
    requires s.hosts[a].labels[ElementalMachineName] == s.hosts[b].labels[ElementalMachineName]
    ensures a == b
  {
    ReachableIsOk(s);
    assert HostOk(s, a, s.hosts[a]) && HostOk(s, b, s.hosts[b]);
    assert Holds(s, a) && Holds(s, b);
    assert s.owner[a] == Key(s.owner[a].ns, s.owner[a].name) && s.owner[b] == Key(s.owner[b].ns, s.owner[b].name);
  }

  /** A host linked before a crash is the one that every later successful lookup for its machine returns. */
  lemma RecoveryFindsTheLinkedHost(s: State, mk: Key, hk: Key, listed: Lookup<Key>)
    requires Reachable(s) && hk in s.hosts && s.hosts[hk].machineRef == Some(mk) && NeedsReset !in s.hosts[hk].labels
    requires ListingAnswers(s.hosts, AlreadyLinked(mk), listed) && !listed.Failed?
    ensures listed == Found(hk)
  {
    ReachableIsOk(s);
    assert HostOk(s, hk, s.hosts[hk]);
    SelectsLinked(mk, hk, s.hosts[hk]);
    assert Selects(AlreadyLinked(mk), hk, s.hosts[hk]);
    ListedHostIsLinkable(s, mk, listed.value);
    assert Holds(s, hk) && Holds(s, listed.value);
  }

  /** A host labelled as bootstrapped is linked and has its secret, and its agent had seen the sentinel file. */
  lemma BootstrappedMeansObserved(s: State, hk: Key)
    requires Reachable(s) && hk in s.hosts && IsTrue(s.hosts[hk].labels, Bootstrapped)
    ensures s.hosts[hk].bootstrapSecret.Some? && s.hosts[hk].machineRef.Some? && IsTrue(s.hosts[hk].labels, Installed)
    ensures Happened(Log(s, hk), StatSentinel(Present))
  {
    ReachableIsOk(s);
    assert HostOk(s, hk, s.hosts[hk]);
    var log := Log(s, hk);
    var p :| 0 <= p < |log| && log[p].op == PatchBootstrapped;
    ReportedBootstrapWasObserved(log, p);
  }

  /** A linked host is installed and has its secret, also when its machine has not learned about it yet. */
  lemma LinkedMeansInstalled(s: State, hk: Key)
    requires Reachable(s) && hk in s.hosts && s.hosts[hk].machineRef.Some?
    ensures IsTrue(s.hosts[hk].labels, Installed) && s.hosts[hk].bootstrapSecret.Some?
  {
    ReachableIsOk(s);
    assert HostOk(s, hk, s.hosts[hk]);
  }

  /** The cloud-config was applied and then the installation succeeded before a host carries the installed label. */
  lemma InstalledMeansInstalled(s: State, hk: Key)
    requires Reachable(s) && hk in s.hosts && IsTrue(s.hosts[hk].labels, Installed)
    ensures var log := Log(s, hk);
            exists i, j :: 0 <= i < j < |log| && CloudConfigured(log[i]) && log[j].op.Install? && log[j].ok
  {
    ReachableIsOk(s);
    assert HostOk(s, hk, s.hosts[hk]);
    var log := Log(s, hk);
    var p :| 0 <= p < |log| && log[p].op == PatchInstalled;
    ReportedInstallHappened(log, p);
  }

  /** The plugin's reset succeeded in an iteration that had marked the host for deletion. */
  ghost predicate ResetEvidence(log: seq<Event>) {
    exists i, j :: ResetFollowsDeletion(log, i, j)
  }

  lemma ReportedResetHasEvidence(log: seq<Event>)
    requires LogOk(log) && Sent(log, PatchReset)
    ensures ResetEvidence(log) && Happened(log, Op.DeleteHost)
  {
    var p :| 0 <= p < |log| && log[p].op == PatchReset;
    ReportedResetHappened(log, p);
    var i, j :| j < p && ResetFollowsDeletion(log, i, j);
    assert log[i] == Event(Op.DeleteHost, true);
  }

  lemma SentResetHasEvidence(s: State, hk: Key)
    requires Inv(s) && Sent(Log(s, hk), PatchReset)
    ensures ResetEvidence(Log(s, hk)) && (hk in s.hosts ==> s.hosts[hk].deleting)
  {
    ReportedResetHasEvidence(Log(s, hk));
  }

  /** The reset label on a live host means that the host is marked for deletion and that the plugin's reset succeeded
      after a successful DeleteHost of the same iteration. */
  lemma ResetLabelMeansReset(s: State, hk: Key)
    requires Reachable(s) && hk in s.hosts && IsTrue(s.hosts[hk].labels, Reset)
    ensures s.hosts[hk].deleting && ResetEvidence(Log(s, hk))
  {
    ReachableIsOk(s);
    assert HostOk(s, hk, s.hosts[hk]);
    SentResetHasEvidence(s, hk);
  }

  /** A provider ID is the one of the machine's current host reference, and a ready machine has one. */
  lemma ProviderIDNamesTheHost(s: State, mk: Key)
    requires Reachable(s) && mk in s.machines
    ensures var m := s.machines[mk];
            && (m.providerID.Some? ==> m.hostRef.Some? && m.providerID.value == ProviderID(m.hostRef.value))
            && (m.ready ==> m.providerID.Some?)
  {
    ReachableIsOk(s);
    assert MachineOk(s.owner, mk, s.machines[mk]);
  }

  lemma SlashInsideDiffers(a: string, b: string, c: string, d: string)
    requires '/' !in c && |a| < |c|
    ensures a + "/" + b != c + "/" + d
  {
    assert (a + "/" + b)[|a|] == '/';
    assert (c + "/" + d)[|a|] == c[|a|] && c[|a|] in c;
  }

  lemma SplitAtSlash(a: string, b: string, c: string, d: string)
    requires '/' !in a && '/' !in c && a + "/" + b == c + "/" + d
    ensures a == c && b == d
  {
    if |a| < |c| {
      SlashInsideDiffers(a, b, c, d);
    } else if |c| < |a| {
      SlashInsideDiffers(c, d, a, b);
    }
    var left, right := a + "/" + b, c + "/" + d;
    assert a == left[..|a|] && c == right[..|c|];
    assert b == left[|a| + 1..] && d == right[|c| + 1..];
  }

  lemma ProviderIDIsInjective(a: Key, b: Key)
    requires '/' !in a.ns && '/' !in b.ns && ProviderID(a) == ProviderID(b)
    ensures a == b
  {
    var scheme := "elemental://";
    var ra, rb := a.ns + "/" + a.name, b.ns + "/" + b.name;
    assert ProviderID(a) == scheme + ra && ProviderID(b) == scheme + rb;
    assert ra == (scheme + ra)[|scheme|..] == (scheme + rb)[|scheme|..] == rb;
    SplitAtSlash(a.ns, a.name, b.ns, b.name);
  }

  /** No two machines share a provider ID. */
  lemma ProviderIDsAreUnique(s: State, m1: Key, m2: Key)
    requires Reachable(s) && m1 in s.machines && m2 in s.machines && '/' !in m1.ns && '/' !in m2.ns
    requires s.machines[m1].providerID.Some? && s.machines[m1].providerID == s.machines[m2].providerID
    ensures m1 == m2
  {
    ReachableIsOk(s);
    ProviderIDNamesTheHost(s, m1);
    ProviderIDNamesTheHost(s, m2);
    var h1, h2 := s.machines[m1].hostRef.value, s.machines[m2].hostRef.value;
    HostsShareNamespace(s, m1);
    HostsShareNamespace(s, m2);
    ProviderIDIsInjective(h1, h2);
    ExclusiveAssociation(s, m1, m2);
  }

  lemma HostsShareNamespace(s: State, mk: Key)
    requires Inv(s) && mk in s.machines && s.machines[mk].hostRef.Some?
    ensures s.machines[mk].hostRef.value.ns == mk.ns
  {
    assert MachineOk(s.owner, mk, s.machines[mk]);
  }

  /** A linked host has labels, so its agent does receive its OS version instructions. */
  lemma LinkedHostsReceiveOsVersion(s: State, hk: Key)
    requires Reachable(s) && hk in s.hosts && s.hosts[hk].machineRef.Some?
    ensures FromElementalHost(s.hosts[hk]).osVersion == s.hosts[hk].osVersion
    ensures FromElementalHost(s.hosts[hk]).bootstrapReady
  {
    ReachableIsOk(s);
    assert HostOk(s, hk, s.hosts[hk]);
    assert MachineName in s.hosts[hk].labels;
    ResponseOsVersion(s.hosts[hk]);
  }

  /** The host got the name and the key of its machine and the secret of the owner, and at most its cluster name and
      its OS version changed besides. */
  ghost predicate GotLink(before: Host, after: Host, mk: Key, owner: OwnerMachine)
    requires owner.dataSecretName.Some?
  {
    && after.machineRef == Some(mk)
    && after.bootstrapSecret == Some(Key(owner.key.ns, owner.dataSecretName.value))
    && Get(after.labels, MachineName) == Some(owner.key.name)
    && Get(after.labels, ElementalMachineName) == Some(mk.name)
    && (forall k :: k !in {MachineName, ElementalMachineName, ClusterName} ==>
          Get(after.labels, k) == Get(before.labels, k))
    && after.annotations == before.annotations && after.finalizers == before.finalizers
    && after.deleting == before.deleting && after.conditions == before.conditions && after.phase == before.phase
  }

  lemma MergedLinkLabel(current: Labels, hostRead: Host, mk: Key, mid: Machine, owner: OwnerMachine)
    requires owner.dataSecretName.Some?
    ensures var after := MergeMap(current, DiffMap(hostRead.labels, Linked(hostRead, mk, mid, owner).labels));
            && (forall k :: k !in {MachineName, ElementalMachineName, ClusterName} ==> Get(after, k) == Get(current, k))
            && (mid.clusterName.Some? && Get(current, ClusterName) == Get(hostRead.labels, ClusterName) ==>
                  Get(after, ClusterName) == mid.clusterName)
  {
    var linked := Linked(hostRead, mk, mid, owner).labels;
    forall k: LabelKey
      ensures Get(MergeMap(current, DiffMap(hostRead.labels, linked)), k)
              == if Get(hostRead.labels, k) == Get(linked, k) then Get(current, k) else Get(linked, k)
    {
      MergedEntry(current, hostRead.labels, linked, k);
    }
  }

  lemma MergedLinkMeans(before: Host, hostRead: Host, mk: Key, mid: Machine, owner: OwnerMachine)
    requires owner.dataSecretName.Some? && Evolved(hostRead, before)
    ensures var after := MergedLink(before, hostRead, mk, mid, owner);
            && GotLink(before, after, mk, owner)
            && (mid.clusterName.Some? && Get(before.labels, ClusterName) == Get(hostRead.labels, ClusterName) ==>
                  Get(after.labels, ClusterName) == mid.clusterName)
            && (before.osVersion == hostRead.osVersion ==> after.osVersion == mid.osVersion)
  {
    var linked := Linked(hostRead, mk, mid, owner);
    MergedLinkLabels(before.labels, hostRead, mk, mid, owner);
    MergedLinkLabel(before.labels, hostRead, mk, mid, owner);
    NothingToMerge(before.annotations, hostRead.annotations);
    NothingToMerge(before.conditions, hostRead.conditions);
    MapRoundTrip(hostRead.osVersion, linked.osVersion);
  }

  lemma LinkingHosts(s: State)
    requires Reachable(s) && s.worker.Linking? && s.worker.hk in s.hosts
    ensures var h := s.hosts[s.worker.hk];
            Evolved(s.worker.hostRead, h) && !Finished(h.deleting, h.finalizers)
  {
    ReachableIsOk(s);
    assert HostOk(s, s.worker.hk, s.hosts[s.worker.hk]);
  }

  /** A link that lands gives the host of the reconcile its machine and the secret of its owner, whatever happened to
      the host since it was read; cluster name and OS version are the machine's unless others changed them meanwhile. */
  lemma LinkReachesTheHost(s: State)
    requires Reachable(s) && s.worker.Linking? && s.worker.owner.dataSecretName.Some? && s.worker.hk in s.hosts
    ensures var Linking(mk, read, mid, owner, hk, hostRead) := s.worker;
            var s' := AfterLink(s, false);
            var before := s.hosts[hk];
            && hk in s'.hosts && s'.hosts == s.hosts[hk := s'.hosts[hk]]
            && GotLink(before, s'.hosts[hk], mk, owner)
            && (mid.clusterName.Some? && Get(before.labels, ClusterName) == Get(hostRead.labels, ClusterName) ==>
                  Get(s'.hosts[hk].labels, ClusterName) == mid.clusterName)
            && (before.osVersion == hostRead.osVersion ==> s'.hosts[hk].osVersion == mid.osVersion)
  {
    var Linking(mk, read, mid, owner, hk, hostRead) := s.worker;
    LinkingHosts(s);
    MergedLinkMeans(s.hosts[hk], hostRead, mk, mid, owner);
    assert AfterLink(s, false).hosts == s.hosts[hk := MergedLink(s.hosts[hk], hostRead, mk, mid, owner)];
  }

  lemma NothingToMerge<K, V>(current: map<K, V>, read: map<K, V>)
    ensures MergeMap(current, DiffMap(read, read)) == current
  {
  }

  // ---- From one state of a run to a later one ----

  /** What never changes back, whoever acts. */
  ghost predicate Advances(s: State, s': State) {
    && s.used <= s'.used && s.finalized <= s'.finalized
    && (forall hk :: hk in s.owner ==> hk in s'.owner && s'.owner[hk] == s.owner[hk])
    && (forall hk :: Log(s, hk) <= Log(s', hk))
    && (forall hk :: hk in s.used && hk in s'.hosts ==> hk in s.hosts && Grown(s.hosts[hk], s'.hosts[hk]))
  }

  lemma AdvancesTransitive(a: State, b: State, c: State)
    requires Advances(a, b) && Advances(b, c)
    ensures Advances(a, c)
  {
    forall hk ensures Log(a, hk) <= Log(c, hk) {
      assert Log(a, hk) <= Log(b, hk) && Log(b, hk) <= Log(c, hk);
    }
  }

  lemma ReplaceAdvances(s: State, hk: Key, h: Host, s': State)
    requires hk in s.hosts && Grown(s.hosts[hk], h)
    requires s' == ReplaceHost(s, hk, h).(owner := s'.owner, worker := s'.worker)
    requires forall k :: k in s.owner ==> k in s'.owner && s'.owner[k] == s.owner[k]
    ensures Advances(s, s')
  {
    forall k ensures Log(s, k) == Log(s', k) {
    }
    forall k | k in s'.hosts ensures k in s.hosts && Grown(s.hosts[k], s'.hosts[k]) {
    }
  }

  lemma HostsUntouchedAdvances(s: State, s': State)
    requires s'.hosts == s.hosts && s'.used == s.used && s'.finalized == s.finalized && s'.owner == s.owner
             && s'.logs == s.logs
    ensures Advances(s, s')
  {
    forall k ensures Log(s, k) == Log(s', k) {
    }
  }

  lemma MarkAdvances(s: State, fails: bool)
    requires s.worker.Marking?
    ensures Advances(s, AfterMark(s, fails))
  {
    var s' := AfterMark(s, fails);
    var Marking(mk, read, hk, hostRead) := s.worker;
    if fails || hk !in s.hosts {
      HostsUntouchedAdvances(s, s');
    } else {
      var h := MergeHost(s.hosts[hk], DiffHost(hostRead, MarkedForReset(hostRead)));
      MergedMark(s.hosts[hk].labels, hostRead.labels);
      assert Marked(s.hosts[hk], h);
      assert Grown(s.hosts[hk], h);
      ReplaceAdvances(s, hk, h, s');
    }
  }

  lemma LinkAdvances(s: State, fails: bool)
    requires Inv(s) && s.worker.Linking? && s.worker.owner.dataSecretName.Some?
    ensures Advances(s, AfterLink(s, fails))
  {
    var s' := AfterLink(s, fails);
    var Linking(mk, read, mid, owner, hk, hostRead) := s.worker;
    if fails || hk !in s.hosts {
      HostsUntouchedAdvances(s, s');
    } else {
      MergedLinkIsOk(s, mk, hk, hostRead, mid, owner);
      ReplaceAdvances(s, hk, MergedLink(s.hosts[hk], hostRead, mk, mid, owner), s');
    }
  }

  lemma CreateAdvances(s: State, hk: Key, labels: Labels, annotations: map<string, string>)
    requires NamesOk(s) && Enabled(s, Action.CreateHost(hk, labels, annotations))
    ensures Advances(s, Do(s, Action.CreateHost(hk, labels, annotations)))
  {
    var s' := Do(s, Action.CreateHost(hk, labels, annotations));
    forall k ensures Log(s, k) == Log(s', k) {
    }
  }

  lemma CallAdvances(s: State, hk: Key, e: Event)
    requires Enabled(s, AgentCalls(hk, e))
    ensures Advances(s, Do(s, AgentCalls(hk, e)))
  {
    var s' := Do(s, AgentCalls(hk, e));
    forall k ensures Log(s, k) <= Log(s', k) {
    }
  }

  lemma EditAdvances(s: State, hk: Key, h: Host)
    requires hk in s.hosts && Grown(s.hosts[hk], h)
    ensures Advances(s, ReplaceHost(s, hk, h))
  {
    ReplaceAdvances(s, hk, h, ReplaceHost(s, hk, h));
  }

  lemma EditingAdvances(s: State, a: Action)
    requires Enabled(s, a) && (a.DeleteHost? || a.RequestUpdate?)
    ensures Advances(s, Do(s, a))
  {
    match a {
      case DeleteHost(hk) => EditAdvances(s, hk, s.hosts[hk].(deleting := true));
      case RequestUpdate(hk) =>
        EditAdvances(s, hk, s.hosts[hk].(labels := s.hosts[hk].labels[InPlaceUpdate := PENDING]));
    }
  }

  lemma LandAdvances(s: State, w: HostWrite)
    requires Inv(s) && w in s.writes
    ensures Advances(s, AfterLanding(s, w))
  {
    if w.hk in s.hosts {
      LandedHost(s, w);
      EditAdvances(s, w.hk, MergeHost(s.hosts[w.hk], w.patch));
    } else {
      HostsUntouchedAdvances(s, s);
    }
  }

  predicate Quiet(a: Action) {
    !(a.CreateHost? || a.DeleteHost? || a.AgentCalls? || a.RequestUpdate? || a.Land? || a.LinkHost? || a.MarkHost?)
  }

  lemma QuietStep(s: State, a: Action)
    requires Enabled(s, a) && Quiet(a)
    ensures var s' := Do(s, a);
            s' == s.(machines := s'.machines, worker := s'.worker, writes := s'.writes, answers := s'.answers)
  {
  }

  lemma QuietAdvances(s: State, a: Action)
    requires Enabled(s, a) && Quiet(a)
    ensures Advances(s, Do(s, a))
  {
    QuietStep(s, a);
    HostsUntouchedAdvances(s, Do(s, a));
  }

  lemma StepAdvances(s: State, a: Action)
    requires Inv(s) && Enabled(s, a)
    ensures Advances(s, Do(s, a))
  {
    match a {
      case CreateHost(hk, labels, annotations) => CreateAdvances(s, hk, labels, annotations);
      case AgentCalls(hk, e) => CallAdvances(s, hk, e);
      case DeleteHost(_) => EditingAdvances(s, a);
      case RequestUpdate(_) => EditingAdvances(s, a);
      case Land(w) => LandAdvances(s, w);
      case LinkHost(fails) => LinkAdvances(s, fails);
      case MarkHost(fails) => MarkAdvances(s, fails);
      case _ => QuietAdvances(s, a);
    }
  }

  lemma RunStep(states: seq<State>, actions: seq<Action>, n: nat)
    requires Run(states, actions) && n < |actions|
    ensures Enabled(states[n], actions[n]) && states[n + 1] == Do(states[n], actions[n])
  {
  }

  lemma RunStepAdvances(states: seq<State>, actions: seq<Action>, n: nat)
    requires Run(states, actions) && n < |actions|
    ensures Advances(states[n], states[n + 1])
  {
    RunKeepsInv(states, actions, n);
    RunStep(states, actions, n);
    StepAdvances(states[n], actions[n]);
  }

  lemma {:induction false} RunAdvances(states: seq<State>, actions: seq<Action>, i: nat, j: nat)
    requires Run(states, actions) && i <= j < |states|
    ensures Advances(states[i], states[j])
    decreases j
  {
    if i < j {
      RunAdvances(states, actions, i, j - 1);
      RunStepAdvances(states, actions, j - 1);
      AdvancesTransitive(states[i], states[j - 1], states[j]);
    } else {
      HostsUntouchedAdvances(states[i], states[i]);
    }
  }

  /** The host is to be reset, or was removed. */
  ghost predicate MarkedOrGone(s: State, hk: Key) {
    hk in s.used && (hk in s.hosts ==> IsTrue(s.hosts[hk].labels, NeedsReset))
  }

  /** That a host is to be reset is never taken back. */
  lemma MarkStands(s: State, s': State, hk: Key)
    requires Advances(s, s') && MarkedOrGone(s, hk)
    ensures MarkedOrGone(s', hk)
  {
    if hk in s'.hosts {
      assert Grown(s.hosts[hk], s'.hosts[hk]);
    }
  }

  /** No label of a host is ever removed, and installed, bootstrapped, reset and needs-reset are never taken back. */
  lemma LabelsOnlyGrow(states: seq<State>, actions: seq<Action>, i: nat, j: nat, hk: Key)
    requires Run(states, actions) && i <= j < |states| && hk in states[i].hosts && hk in states[j].hosts
    ensures states[i].hosts[hk].labels.Keys <= states[j].hosts[hk].labels.Keys
    ensures forall k :: k in FLAGS && IsTrue(states[i].hosts[hk].labels, k) ==> IsTrue(states[j].hosts[hk].labels, k)
  {
    RunAdvances(states, actions, i, j);
    RunKeepsInv(states, actions, i);
  }

  /** Once linked, a host is linked to the same machine for the rest of its life. Its name does not come back either,
      because host names are assumed never to be used again. */
  lemma OwnershipIsForever(states: seq<State>, actions: seq<Action>, i: nat, j: nat, hk: Key)
    requires Run(states, actions) && i <= j < |states| && hk in states[i].hosts && states[i].hosts[hk].machineRef.Some?
    ensures hk in states[j].hosts ==>
              states[j].hosts[hk].machineRef == states[i].hosts[hk].machineRef
              && Get(states[j].hosts[hk].labels, ElementalMachineName)
                 == Get(states[i].hosts[hk].labels, ElementalMachineName)
    ensures hk !in states[j].hosts ==> forall k :: j <= k < |states| ==> hk !in states[k].hosts
  {
    RunAdvances(states, actions, i, j);
    RunKeepsInv(states, actions, i);
    RunKeepsInv(states, actions, j);
    assert HostOk(states[i], hk, states[i].hosts[hk]);
    if hk in states[j].hosts {
      assert HostOk(states[j], hk, states[j].hosts[hk]);
    } else {
      forall k | j <= k < |states| ensures hk !in states[k].hosts {
        RunAdvances(states, actions, j, k);
      }
    }
  }

  /** A host that carried the finalizer and is gone was reset: it left with its reset label, and its agent had seen
      the plugin's reset succeed after a successful DeleteHost of the same iteration. */
  lemma GoneOnlyAfterReset(states: seq<State>, actions: seq<Action>, i: nat, j: nat, hk: Key)
    requires Run(states, actions) && i <= j < |states|
    requires hk in states[i].hosts && FINALIZER in states[i].hosts[hk].finalizers && hk !in states[j].hosts
    ensures hk in states[j].gone && IsTrue(states[j].gone[hk].labels, Reset) && ResetEvidence(Log(states[j], hk))
  {
    RunAdvances(states, actions, i, j);
    RunKeepsInv(states, actions, i);
    RunKeepsInv(states, actions, j);
    assert HostOk(states[i], hk, states[i].hosts[hk]);
    assert hk in states[j].finalized && hk in states[j].used;
    SentResetHasEvidence(states[j], hk);
  }

  // ---- The condition that only a user's edit could cause ----

  predicate NotWaitingForInstall(m: Machine) {
    Get(m.conditions, HostReady) != Some(Condition(false, HostWaitingForInstall))
  }

  predicate WorkerNotWaiting(w: Worker) {
    match w
    case Idle => true
    case Loaded(_, read) => NotWaitingForInstall(read)
    case Searching(_, read, mid, _) => NotWaitingForInstall(read) && NotWaitingForInstall(mid)
    case Linking(_, read, mid, _, _, _) => NotWaitingForInstall(read) && NotWaitingForInstall(mid)
    case Marking(_, read, _, _) => NotWaitingForInstall(read)
    case Saving(_, read, after) => NotWaitingForInstall(read) && NotWaitingForInstall(after)
  }

  ghost predicate NobodyWaits(s: State) {
    WorkerNotWaiting(s.worker) && forall mk :: mk in s.machines ==> NotWaitingForInstall(s.machines[mk])
  }

  lemma EvaluationDoesNotWait(m: Machine, host: Lookup<Host>, cluster: Cluster, answer: TrackerAnswer)
    requires m.hostRef.Some? && NotWaitingForInstall(m) && (host.Found? ==> IsTrue(host.value.labels, Installed))
    ensures NotWaitingForInstall(Evaluated(m, host, cluster, answer).machine)
  {
  }

  lemma GateDoesNotWait(m: Machine, capi: Capi)
    requires NotWaitingForInstall(m)
    ensures var g := Gate(m, capi);
            && (g.Stop? ==> NotWaitingForInstall(g.after.machine))
            && (!g.Stop? ==> NotWaitingForInstall(g.machine))
  {
  }

  lemma DecisionAboutInstalledHost(s: State, capi: Capi, tracker: TrackerAnswer, getFails: bool, listed: Lookup<Key>)
    requires s.worker.Loaded? && ListingAnswers(s.hosts, AlreadyLinked(s.worker.mk), listed)
    requires NotWaitingForInstall(s.worker.read)
    requires var host := s.worker.read.hostRef;
             host.Some? && host.value in s.hosts ==> IsTrue(s.hosts[host.value].labels, Installed)
    ensures WorkerNotWaiting(Decided(s, capi, tracker, getFails, listed))
  {
    var read := s.worker.read;
    GateDoesNotWait(read, capi);
    GateShape(read, capi);
    var g := Gate(read, capi);
    if g.Normal? && read.hostRef.Some? {
      EvaluationDoesNotWait(g.machine, Find(s.hosts, read.hostRef.value, getFails), g.cluster, tracker);
    }
  }

  lemma DecisionDoesNotWait(s: State, capi: Capi, tracker: TrackerAnswer, getFails: bool, listed: Lookup<Key>)
    requires Inv(s) && NobodyWaits(s) && s.worker.Loaded? && ListingAnswers(s.hosts, AlreadyLinked(s.worker.mk), listed)
    ensures WorkerNotWaiting(Decided(s, capi, tracker, getFails, listed))
  {
    var read := s.worker.read;
    assert MachineOk(s.owner, s.worker.mk, read);
    if read.hostRef.Some? && read.hostRef.value in s.hosts {
      assert HostOk(s, read.hostRef.value, s.hosts[read.hostRef.value]);
    }
    DecisionAboutInstalledHost(s, capi, tracker, getFails, listed);
  }

  lemma SaveDoesNotWait(s: State)
    requires NobodyWaits(s) && s.worker.Saving?
    ensures NobodyWaits(AfterSave(s))
  {
    var Saving(mk, read, after) := s.worker;
    if mk in s.machines {
      MergedEntry(s.machines[mk].conditions, read.conditions, after.conditions, HostReady);
    }
  }

  lemma SearchDoesNotWait(s: State, listed: Lookup<Key>)
    requires NobodyWaits(s) && s.worker.Searching?
             && ListingAnswers(s.hosts, Available(s.worker.mk, SelectorOf(s.worker.mid)), listed)
    ensures WorkerNotWaiting(Searched(s, listed))
  {
  }

  lemma LinkDoesNotWait(s: State, fails: bool)
    requires NobodyWaits(s) && s.worker.Linking? && s.worker.owner.dataSecretName.Some?
    ensures NobodyWaits(AfterLink(s, fails))
  {
    var w := s.worker;
    assert WorkerNotWaiting(Saving(w.mk, w.read, w.mid));
    assert WorkerNotWaiting(Saving(w.mk, w.read, Associated(w.mid, w.hk)));
  }

  lemma MarkDoesNotWait(s: State, fails: bool)
    requires NobodyWaits(s) && s.worker.Marking?
    ensures NobodyWaits(AfterMark(s, fails))
  {
    var w := s.worker;
    assert WorkerNotWaiting(Saving(w.mk, w.read, w.read));
    assert WorkerNotWaiting(Saving(w.mk, w.read, Released(w.read)));
  }

  lemma MachineStepDoesNotWait(s: State, a: Action)
    requires NobodyWaits(s) && Enabled(s, a)
    requires a.CreateMachine? || a.EditMachine? || a.DeleteMachine? || a.Load? || a.Crash?
    ensures NobodyWaits(Do(s, a))
  {
  }

  lemma HostStepTouchesNoMachine(s: State, a: Action)
    requires Enabled(s, a)
    requires a.CreateHost? || a.DeleteHost? || a.AgentCalls? || a.HandlePatch? || a.AnswerPatch? || a.ReadHost?
             || a.Land? || a.Drop? || a.RequestUpdate?
    ensures Do(s, a).machines == s.machines && Do(s, a).worker == s.worker
  {
  }

  lemma StepDoesNotWait(s: State, a: Action)
    requires Inv(s) && NobodyWaits(s) && Enabled(s, a)
    ensures NobodyWaits(Do(s, a))
  {
    match a {
      case Decide(capi, tracker, getFails, listed) => DecisionDoesNotWait(s, capi, tracker, getFails, listed);
      case LookUpAvailable(listed) => SearchDoesNotWait(s, listed);
      case SaveMachine => SaveDoesNotWait(s);
      case LinkHost(fails) => LinkDoesNotWait(s, fails);
      case MarkHost(fails) => MarkDoesNotWait(s, fails);
      case CreateMachine(_, _, _, _) => MachineStepDoesNotWait(s, a);
      case EditMachine(_, _, _, _) => MachineStepDoesNotWait(s, a);
      case DeleteMachine(_) => MachineStepDoesNotWait(s, a);
      case Load(_) => MachineStepDoesNotWait(s, a);
      case Crash => MachineStepDoesNotWait(s, a);
      case _ => HostStepTouchesNoMachine(s, a);
    }
  }

  /** No machine ever carries the HostWaitingForInstall reason: association takes installed hosts only, also when it
      finds the host through the lookup that does not ask for the installed label. */
  lemma {:induction false} NeverWaitingForInstall(states: seq<State>, actions: seq<Action>, n: nat)
    requires Run(states, actions) && n < |states|
    ensures NobodyWaits(states[n])
  {
    if n == 0 {
    } else {
      NeverWaitingForInstall(states, actions, n - 1);
      RunKeepsInv(states, actions, n - 1);
      RunStep(states, actions, n - 1);
      StepDoesNotWait(states[n - 1], actions[n - 1]);
    }
  }
}
