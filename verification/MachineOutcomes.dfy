/** What one reconcile of a machine leaves in the store, spelled out in the fields of the stored objects, for every
    machine and every answer of the environment. */
module MachineOutcomes {
  import opened Common
  import opened Objects
  import opened Patches
  import opened Store
  import opened MachineReconciler
  import opened Convergence

  /** The machine can be read and saved. */
  predicate Attempted(env: Env, w: World, mk: Key) {
    && !env.faults.getMachine && !env.faults.patchMachine
    && mk in w.machines && !Finished(w.machines[mk].deleting, w.machines[mk].finalizers)
  }

  predicate CapiFound(capi: Capi) {
    capi.owner.Found? && capi.cluster.Found?
  }

  /** The reconcile stored exactly this machine and changed nothing else; `ok` is what it returned. */
  predicate Stores(env: Env, w: World, mk: Key, m: Machine, ok: bool)
    requires mk in w.machines
  {
    && Reconciled(env, w, mk) == w.(machines := w.machines[mk := m])
    && Worked(env, w.hosts, mk, w.machines[mk]).1.ok == ok
  }

  function Reporting(m: Machine, t: ConditionType, status: bool, reason: Reason): Machine {
    m.(conditions := m.conditions[t := Condition(status, reason)])
  }

  function Unassociated(m: Machine, reason: Reason): Machine {
    Reporting(m, AssociationReady, false, reason)
  }

  // ---- The first checks ----

  lemma StoppedAt(env: Env, w: World, mk: Key, after: Machine, ok: bool)
    requires Attempted(env, w, mk) && Gate(w.machines[mk], env.capi) == Stop(Outcome(after, ok))
    requires SameIdentity(w.machines[mk], after) && !Finished(after.deleting, after.finalizers)
    ensures Stores(env, w, mk, after, ok)
  {
    SavedExactly(w, mk, w.machines[mk], after);
  }

  /** The reconcile of a machine that does not get past the first checks: the condition carries the reason of the first
      one that fails, and hosts, host reference, provider ID and readiness stay. */
  lemma StoppedOutcome(env: Env, w: World, mk: Key)
    requires Attempted(env, w, mk)
    ensures var m, capi := w.machines[mk], env.capi;
            && (!capi.owner.Found? ==> Stores(env, w, mk, Unassociated(m, MissingMachineOwner), capi.owner.Missing?))
            && (capi.owner.Found? && !capi.cluster.Found? ==>
                  Stores(env, w, mk, Unassociated(m, MissingAssociatedCluster), capi.cluster.Missing?))
            && (CapiFound(capi) && m.deleting && FINALIZER !in m.finalizers ==> Stores(env, w, mk, m, true))
            && (CapiFound(capi) && !m.deleting ==>
                  var kept := m.(finalizers := m.finalizers + {FINALIZER});
                  if !capi.cluster.value.infrastructureReady then
                    Stores(env, w, mk, Unassociated(kept, MissingClusterInfrastructureReady), true)
                  else
                    capi.owner.value.dataSecretName.None? ==>
                      Stores(env, w, mk, Unassociated(kept, MissingBootstrapSecret), true))
  {
    var g := Gate(w.machines[mk], env.capi);
    if g.Stop? {
      StoppedAt(env, w, mk, g.after.machine, g.after.ok);
    }
  }

  // ---- A machine with a host ----

  lemma EvaluatedAt(env: Env, w: World, mk: Key)
    requires Attempted(env, w, mk) && Provisionable(w.machines[mk], env.capi) && w.machines[mk].hostRef.Some?
    ensures var m := w.machines[mk];
            var o := Evaluated(m.(finalizers := m.finalizers + {FINALIZER}, ready := false),
                               Find(w.hosts, m.hostRef.value, env.faults.getHost), env.capi.cluster.value,
                               env.tracker(m.hostRef.value));
            Stores(env, w, mk, o.machine, o.ok)
  {
    var m := w.machines[mk];
    var g := Gate(m, env.capi);
    var host := Find(w.hosts, m.hostRef.value, env.faults.getHost);
    var o := Evaluated(g.machine, host, g.cluster, env.tracker(m.hostRef.value));
    EvaluationKeeps(g.machine, host, g.cluster, env.tracker(m.hostRef.value));
    SavedExactly(w, mk, m, o.machine);
  }

  /** A machine whose host is gone gives up the reference and the provider ID; if its read fails, it keeps both. */
  lemma LostHostOutcome(env: Env, w: World, mk: Key)
    requires Attempted(env, w, mk) && Provisionable(w.machines[mk], env.capi) && w.machines[mk].hostRef.Some?
    ensures var m := w.machines[mk];
            var m0 := m.(finalizers := m.finalizers + {FINALIZER}, ready := false);
            var lost := Unassociated(m0, AssociatedHostNotFound);
            && (env.faults.getHost ==> Stores(env, w, mk, lost, false))
            && (!env.faults.getHost && m.hostRef.value !in w.hosts ==>
                  Stores(env, w, mk, lost.(hostRef := None, providerID := None), true))
  {
    EvaluatedAt(env, w, mk);
  }

  /** A machine whose host is there follows the flags of the host, the control plane and the node, in this order. */
  lemma LiveHostOutcome(env: Env, w: World, mk: Key)
    requires Attempted(env, w, mk) && Provisionable(w.machines[mk], env.capi) && w.machines[mk].hostRef.Some?
    requires !env.faults.getHost && w.machines[mk].hostRef.value in w.hosts
    ensures var m := w.machines[mk];
            var hk := m.hostRef.value;
            var labels, cluster, answer := w.hosts[hk].labels, env.capi.cluster.value, env.tracker(hk);
            var id := "elemental://" + hk.ns + "/" + hk.name;
            var m1 := m.(finalizers := m.finalizers + {FINALIZER}, ready := false,
                         conditions := m.conditions[AssociationReady := Condition(true, NoReason)]);
            var m2 := Reporting(m1, HostReady, true, NoReason);
            if Get(labels, Installed) != Some("true") then
              Stores(env, w, mk, Reporting(m1, HostReady, false, HostWaitingForInstall), true)
            else if Get(labels, Bootstrapped) != Some("true") then
              Stores(env, w, mk, Reporting(m1, HostReady, false, HostWaitingForBootstrap), true)
            else if !cluster.hasControlPlaneRef || !cluster.controlPlaneInitialized then
              Stores(env, w, mk, Reporting(m2, ProviderIDReady, false, WaitingForControlPlaneInitialized), true)
            else if m.providerID == Some(id) then Stores(env, w, mk, m2.(ready := true), true)
            else
              match answer
              case NodeUpdated =>
                var m3 := m2.(ready := true, providerID := Some(id));
                Stores(env, w, mk, Reporting(m3, ProviderIDReady, true, NoReason), true)
              case RemoteNodeNotFound =>
                Stores(env, w, mk, Reporting(m2, ProviderIDReady, false, NodeNotFound), false)
              case TrackerError => Stores(env, w, mk, m2, false)
  {
    EvaluatedAt(env, w, mk);
  }

  // ---- A machine without a host ----

  /** The host carries the machine's name and is not being reset. */
  predicate CarriesName(hk: Key, h: Host, mk: Key) {
    hk.ns == mk.ns && Get(h.labels, ElementalMachineName) == Some(mk.name) && NeedsReset !in h.labels
  }

  /** The host is installed, belongs to nobody and is not being reset, and it meets the selector. */
  predicate Free(hk: Key, h: Host, mk: Key, selector: seq<Requirement>) {
    && hk.ns == mk.ns && Get(h.labels, Installed) == Some("true")
    && MachineName !in h.labels && NeedsReset !in h.labels
    && forall r :: r in selector ==> Meets(h.labels, r)
  }

  predicate Meets(labels: Labels, r: Requirement) {
    var value := Get(labels, r.key);
    match r.operator
    case In => value.Some? && value.value in r.values
    case NotIn => value.None? || value.value !in r.values
    case Exists => value.Some?
    case DoesNotExist => value.None?
  }

  /** A selector that the API machinery refuses. */
  predicate Refused(selector: seq<Requirement>) {
    exists r :: r in selector && ((r.operator.In? || r.operator.NotIn?) <==> r.values == [])
  }

  lemma SelectionsMean(mk: Key, selector: seq<Requirement>, hk: Key, h: Host)
    ensures Selects(AlreadyLinked(mk), hk, h) <==> CarriesName(hk, h, mk)
    ensures Selects(Available(mk, selector), hk, h) <==> Free(hk, h, mk, selector)
  {
    SelectsLinked(mk, hk, h);
    SelectsAvailable(mk, selector, hk, h);
    forall r ensures Satisfies(h.labels, r) <==> Meets(h.labels, r) {
    }
  }

  /** The host is the first of a listing that fits. */
  ghost predicate FirstFit(order: seq<Key>, hosts: map<Key, Host>, fits: (Key, Host) -> bool, hk: Key) {
    exists i :: && 0 <= i < |order| && order[i] == hk && hk in hosts && fits(hk, hosts[hk])
                && forall j :: 0 <= j < i && order[j] in hosts ==> !fits(order[j], hosts[order[j]])
  }

  ghost predicate NoFit(order: seq<Key>, hosts: map<Key, Host>, fits: (Key, Host) -> bool) {
    forall hk :: hk in order && hk in hosts ==> !fits(hk, hosts[hk])
  }

  lemma {:induction false} FirstMeans(q: Query, order: seq<Key>, hosts: map<Key, Host>, fits: (Key, Host) -> bool)
    requires forall hk, h :: fits(hk, h) <==> Selects(q, hk, h)
    ensures var first := First(q, order, hosts);
            if first.Some? then FirstFit(order, hosts, fits, first.value) else NoFit(order, hosts, fits)
  {
    if order == [] {
    } else if order[0] in hosts && fits(order[0], hosts[order[0]]) {
      assert First(q, order, hosts) == Some(order[0]);
    } else {
      var rest := order[1..];
      FirstMeans(q, rest, hosts, fits);
      assert First(q, order, hosts) == First(q, rest, hosts);
      var first := First(q, rest, hosts);
      if first.Some? {
        var i :| && 0 <= i < |rest| && rest[i] == first.value
                 && first.value in hosts && fits(first.value, hosts[first.value])
                 && forall j :: 0 <= j < i && rest[j] in hosts ==> !fits(rest[j], hosts[rest[j]]);
        assert order[i + 1] == first.value;
        forall j | 0 <= j < i + 1 && order[j] in hosts ensures !fits(order[j], hosts[order[j]]) {
          if j > 0 {
            assert order[j] == rest[j - 1];
          }
        }
      } else {
        assert order == [order[0]] + rest;
      }
    }
  }

  /** Which host a machine gets: the first that carries its name, or else the first free one that meets its selector. */
  lemma CandidateMeans(env: Env, hosts: map<Key, Host>, mk: Key, m: Machine)
    ensures var selector := if m.selector.Some? then m.selector.value else [];
            var named := (hk: Key, h: Host) => CarriesName(hk, h, mk);
            var free := (hk: Key, h: Host) => Free(hk, h, mk, selector);
            match Candidate(env, hosts, mk, m)
            case Found(hk) =>
              && !env.faults.listLinked
              && (|| FirstFit(env.order, hosts, named, hk)
                  || (NoFit(env.order, hosts, named) && FirstFit(env.order, hosts, free, hk)
                      && !Refused(selector) && !env.faults.listAvailable))
            case Missing =>
              && NoFit(env.order, hosts, named) && NoFit(env.order, hosts, free)
              && !env.faults.listLinked && !env.faults.listAvailable && !Refused(selector)
            case Failed =>
              env.faults.listLinked
              || (NoFit(env.order, hosts, named) && (Refused(selector) || env.faults.listAvailable))
  {
    var selector := SelectorOf(m);
    var named := (hk: Key, h: Host) => CarriesName(hk, h, mk);
    var free := (hk: Key, h: Host) => Free(hk, h, mk, selector);
    forall hk, h ensures named(hk, h) <==> Selects(AlreadyLinked(mk), hk, h) {
      SelectionsMean(mk, selector, hk, h);
    }
    forall hk, h ensures free(hk, h) <==> Selects(Available(mk, selector), hk, h) {
      SelectionsMean(mk, selector, hk, h);
    }
    FirstMeans(AlreadyLinked(mk), env.order, hosts, named);
    FirstMeans(Available(mk, selector), env.order, hosts, free);
    assert SelectorFails(m) <==> Refused(selector);
  }

  /** The link between host and machine, seen on the host: nothing else of it changes. */
  ghost predicate LinkedTo(before: Host, after: Host, mk: Key, m: Machine, owner: OwnerMachine)
    requires owner.dataSecretName.Some?
  {
    && after.machineRef == Some(mk)
    && after.bootstrapSecret == Some(Key(owner.key.ns, owner.dataSecretName.value))
    && after.osVersion == m.osVersion
    && Get(after.labels, MachineName) == Some(owner.key.name)
    && Get(after.labels, ElementalMachineName) == Some(mk.name)
    && (m.clusterName.Some? ==> Get(after.labels, ClusterName) == m.clusterName)
    && (forall k :: k !in {MachineName, ElementalMachineName} && (k == ClusterName ==> m.clusterName.None?) ==>
          Get(after.labels, k) == Get(before.labels, k))
    && after.annotations == before.annotations && after.finalizers == before.finalizers
    && after.deleting == before.deleting && after.conditions == before.conditions && after.phase == before.phase
  }

  lemma LinkedMeans(h: Host, mk: Key, m: Machine, owner: OwnerMachine)
    requires owner.dataSecretName.Some?
    ensures LinkedTo(h, Linked(h, mk, m, owner), mk, m, owner)
  {
  }

  /** A machine without a host that may be associated: with a candidate, both halves of the link are stored, or neither
      if the host cannot be written; without one, the condition says so; after a failed listing nothing does. */
  lemma AssociationOutcome(env: Env, w: World, mk: Key)
    requires Attempted(env, w, mk) && Provisionable(w.machines[mk], env.capi) && w.machines[mk].hostRef.None?
    requires Settled(w)
    ensures var m := w.machines[mk];
            var m0 := m.(finalizers := m.finalizers + {FINALIZER}, ready := false);
            var w' := Reconciled(env, w, mk);
            match Candidate(env, w.hosts, mk, m)
            case Failed => Stores(env, w, mk, m0, false)
            case Missing => Stores(env, w, mk, Unassociated(m0, MissingAvailableHosts), true)
            case Found(hk) =>
              if env.faults.patchHost then Stores(env, w, mk, m0, false)
              else
                && hk in w.hosts && hk in w'.hosts && w'.hosts == w.hosts[hk := w'.hosts[hk]]
                && LinkedTo(w.hosts[hk], w'.hosts[hk], mk, m, env.capi.owner.value)
                && w'.machines == w.machines[mk := m0.(hostRef := Some(hk),
                     conditions := m.conditions[AssociationReady := Condition(true, NoReason)]
                                               [HostReady := Condition(false, HostWaitingForBootstrap)])]
                && Worked(env, w.hosts, mk, m).1.ok
  {
    var m := w.machines[mk];
    var g := Gate(m, env.capi);
    CandidateIsLive(env, w.hosts, mk, m);
    assert Candidate(env, w.hosts, mk, g.machine) == Candidate(env, w.hosts, mk, m);
    var (hosts, after) := Association(env, w.hosts, mk, g.machine, g.owner);
    if Candidate(env, w.hosts, mk, m).Found? && !env.faults.patchHost {
      var hk := Candidate(env, w.hosts, mk, m).value;
      var linked := Linked(w.hosts[hk], mk, g.machine, g.owner);
      LinkedMeans(w.hosts[hk], mk, g.machine, g.owner);
      PatchedExactly(w.hosts, hk, linked);
    }
    SavedExactly(w.(hosts := hosts), mk, m, after.machine);
  }

  // ---- A machine that is being deleted ----

  /** The release of a machine: its host gets the needs-reset label, and only then the finalizer goes and with it,
      unless others hold it, the machine; a host that is missing or cannot be reached keeps the machine. */
  lemma DeletionOutcome(env: Env, w: World, mk: Key)
    requires Attempted(env, w, mk) && CapiFound(env.capi) && Settled(w)
    requires w.machines[mk].deleting && FINALIZER in w.machines[mk].finalizers
    ensures var m := w.machines[mk];
            var released := m.(finalizers := m.finalizers - {FINALIZER});
            var machines := if released.finalizers == {} then w.machines - {mk} else w.machines[mk := released];
            if m.hostRef.None? then
              Reconciled(env, w, mk) == World(w.hosts, machines) && Worked(env, w.hosts, mk, m).1.ok
            else
              var hk := m.hostRef.value;
              if env.faults.getHost || hk !in w.hosts || env.faults.patchHost then
                Stores(env, w, mk, m, !env.faults.getHost && hk !in w.hosts)
              else
                var marked := w.hosts[hk].(labels := w.hosts[hk].labels[NeedsReset := "true"]);
                Reconciled(env, w, mk) == World(w.hosts[hk := marked], machines) && Worked(env, w.hosts, mk, m).1.ok
  {
    var m := w.machines[mk];
    var (hosts, after) := Deletion(env, w.hosts, m);
    if m.hostRef.Some? && m.hostRef.value in w.hosts {
      var hk := m.hostRef.value;
      PatchedExactly(w.hosts, hk, MarkedForReset(w.hosts[hk]));
    }
    SavedExactly(w.(hosts := hosts), mk, m, after.machine);
  }

  // ---- Failing reads and saves ----

  /** A machine that cannot be read or is not there is left alone with its hosts; one that cannot be saved stays, but
      what was done to the hosts is done. */
  lemma FailedOutcome(env: Env, w: World, mk: Key)
    ensures env.faults.getMachine || mk !in w.machines ==> Reconciled(env, w, mk) == w
    ensures env.faults.patchMachine ==>
              && Reconciled(env, w, mk).machines == w.machines
              && Reconciled(env, w, mk).hosts
                 == Reconciled(env.(faults := env.faults.(patchMachine := false)), w, mk).hosts
  {
    if mk in w.machines {
      WorkedAlike(env, env.(faults := env.faults.(patchMachine := false)), w.hosts, mk, w.machines[mk]);
    }
  }

  lemma WorkedAlike(env: Env, env': Env, hosts: map<Key, Host>, mk: Key, m: Machine)
    requires env' == env.(faults := env.faults.(patchMachine := false))
    ensures Worked(env, hosts, mk, m) == Worked(env', hosts, mk, m)
  {
    CandidatesAlike(env, env', hosts, mk);
  }

  lemma CandidatesAlike(env: Env, env': Env, hosts: map<Key, Host>, mk: Key)
    requires env' == env.(faults := env.faults.(patchMachine := false))
    ensures forall m :: Candidate(env, hosts, mk, m) == Candidate(env', hosts, mk, m)
  {
  }
}
