/** internal/controller/elementalmachine_controller.go */
module MachineReconciler {
  import opened Common
  import opened Objects
  import opened Patches
  import opened Store

  /** The CAPI objects a reconcile reads. */
  datatype OwnerMachine = OwnerMachine(key: Key, dataSecretName: Option<string>)
  datatype Cluster = Cluster(infrastructureReady: bool, hasControlPlaneRef: bool, controlPlaneInitialized: bool)
  datatype Capi = Capi(owner: Lookup<OwnerMachine>, cluster: Lookup<Cluster>)

  /** What the remote tracker answers to SetProviderID. */
  datatype TrackerAnswer = NodeUpdated | RemoteNodeNotFound | TrackerError

  /** Which store calls of one reconcile fail. */
  datatype Faults = Faults(getMachine: bool, listLinked: bool, listAvailable: bool, getHost: bool, patchHost: bool,
                           patchMachine: bool)

  /** Everything outside the store: CAPI objects, downstream answers, failing calls and the order of listings. */
  datatype Env = Env(capi: Capi, tracker: Key -> TrackerAnswer, faults: Faults, order: seq<Key>)

  /** A machine as edited by (a part of) a reconcile, and whether that part returned without error. */
  datatype Outcome = Outcome(machine: Machine, ok: bool)

  function WithCondition(m: Machine, ctype: ConditionType, status: bool, reason: Reason): Machine {
    m.(conditions := m.conditions[ctype := Condition(status, reason)])
  }

  function ProviderID(hk: Key): string {
    "elemental://" + hk.ns + "/" + hk.name
  }

  // ---- Selecting a host ----

  predicate WellFormed(r: Requirement) {
    match r.operator
    case In | NotIn => |r.values| > 0
    case Exists | DoesNotExist => |r.values| == 0
  }

  predicate Satisfies(labels: Labels, r: Requirement) {
    match r.operator
    case In => r.key in labels && labels[r.key] in r.values
    case NotIn => r.key in labels ==> labels[r.key] !in r.values
    case Exists => r.key in labels
    case DoesNotExist => r.key !in labels
  }

  /** The two listings: hosts already linked to a machine, and hosts free to be linked. */
  datatype Query = AlreadyLinked(mk: Key) | Available(mk: Key, selector: seq<Requirement>)

  function Requirements(q: Query): seq<Requirement> {
    match q
    case AlreadyLinked(mk) =>
      [Requirement(ElementalMachineName, In, [mk.name]),
       Requirement(NeedsReset, DoesNotExist, [])]
    case Available(mk, selector) =>
      selector +
      [Requirement(Installed, In, [TRUE]),
       Requirement(NeedsReset, DoesNotExist, []),
       Requirement(MachineName, DoesNotExist, [])]
  }

  predicate Selects(q: Query, hk: Key, h: Host) {
    hk.ns == q.mk.ns && forall r :: r in Requirements(q) ==> Satisfies(h.labels, r)
  }

  function Listed(q: Query, order: seq<Key>, hosts: map<Key, Host>): seq<Key> {
    if order == [] then []
    else
      (if order[0] in hosts && Selects(q, order[0], hosts[order[0]]) then [order[0]] else [])
        + Listed(q, order[1..], hosts)
  }

  function First(q: Query, order: seq<Key>, hosts: map<Key, Host>): Option<Key> {
    var items := Listed(q, order, hosts);
    if items == [] then None else Some(items[0])
  }

  lemma {:induction false} ListedExactly(q: Query, order: seq<Key>, hosts: map<Key, Host>, hk: Key)
    ensures hk in Listed(q, order, hosts) <==> hk in order && hk in hosts && Selects(q, hk, hosts[hk])
  {
    if order == [] {
    } else {
      ListedExactly(q, order[1..], hosts, hk);
      assert order == [order[0]] + order[1..];
    }
  }

  lemma FirstIsListed(q: Query, order: seq<Key>, hosts: map<Key, Host>)
    ensures var f := First(q, order, hosts);
            && (f.Some? ==> f.value in order && f.value in hosts && Selects(q, f.value, hosts[f.value]))
            && (f.None? ==> forall hk :: hk in order && hk in hosts ==> !Selects(q, hk, hosts[hk]))
  {
    var items := Listed(q, order, hosts);
    forall hk ensures hk in items <==> hk in order && hk in hosts && Selects(q, hk, hosts[hk]) {
      ListedExactly(q, order, hosts, hk);
    }
    if items != [] {
      assert items[0] in items;
    }
  }

  lemma SelectsLinked(mk: Key, hk: Key, h: Host)
    ensures Selects(AlreadyLinked(mk), hk, h) <==>
              hk.ns == mk.ns && Get(h.labels, ElementalMachineName) == Some(mk.name) && NeedsReset !in h.labels
  {
    var rs := Requirements(AlreadyLinked(mk));
    assert rs[0] in rs && rs[1] in rs;
  }

  lemma SelectsAvailable(mk: Key, selector: seq<Requirement>, hk: Key, h: Host)
    ensures Selects(Available(mk, selector), hk, h) <==>
              && hk.ns == mk.ns
              && (forall r :: r in selector ==> Satisfies(h.labels, r))
              && IsTrue(h.labels, Installed) && NeedsReset !in h.labels && MachineName !in h.labels
  {
    var rs := Requirements(Available(mk, selector));
    var n := |selector|;
    assert rs[n] in rs && rs[n + 1] in rs && rs[n + 2] in rs;
    assert rs[n].values == [TRUE] && TRUE in rs[n].values;
    assert forall r :: r in selector ==> r in rs;
  }

  // ---- What a reconcile does to the machine and the host ----

  /** The checks before the provider specific part. */
  datatype Gated =
    | Stop(after: Outcome)
    | Normal(machine: Machine, owner: OwnerMachine, cluster: Cluster)
    | Delete(machine: Machine)

  function Gate(m: Machine, capi: Capi): (g: Gated)
    ensures g.Normal? ==> g.owner.dataSecretName.Some?
  {
    if !capi.owner.Found? then
      Stop(Outcome(WithCondition(m, AssociationReady, false, MissingMachineOwner), capi.owner.Missing?))
    else if !capi.cluster.Found? then
      Stop(Outcome(WithCondition(m, AssociationReady, false, MissingAssociatedCluster), capi.cluster.Missing?))
    else if m.deleting then
      if FINALIZER in m.finalizers then Delete(m) else Stop(Outcome(m, true))
    else
      var m1 := m.(finalizers := m.finalizers + {FINALIZER});
      if !capi.cluster.value.infrastructureReady then
        Stop(Outcome(WithCondition(m1, AssociationReady, false, MissingClusterInfrastructureReady), true))
      else if capi.owner.value.dataSecretName.None? then
        Stop(Outcome(WithCondition(m1, AssociationReady, false, MissingBootstrapSecret), true))
      else
        Normal(m1.(ready := false), capi.owner.value, capi.cluster.value)
  }

  function WithProviderID(m: Machine, answer: TrackerAnswer): Outcome
    requires m.hostRef.Some?
  {
    var id := ProviderID(m.hostRef.value);
    if m.providerID == Some(id) then Outcome(m, true)
    else match answer
      case RemoteNodeNotFound => Outcome(WithCondition(m, ProviderIDReady, false, NodeNotFound), false)
      case TrackerError => Outcome(m, false)
      case NodeUpdated => Outcome(WithCondition(m.(providerID := Some(id)), ProviderIDReady, true, NoReason), true)
  }

  /** The rest of the reconcile of a machine that has a host reference. */
  function Evaluated(m: Machine, host: Lookup<Host>, cluster: Cluster, answer: TrackerAnswer): Outcome
    requires m.hostRef.Some?
  {
    match host
    case Missing =>
      Outcome(WithCondition(m.(hostRef := None, providerID := None), AssociationReady, false, AssociatedHostNotFound),
              true)
    case Failed =>
      Outcome(WithCondition(m, AssociationReady, false, AssociatedHostNotFound), false)
    case Found(h) =>
      var m1 := WithCondition(m, AssociationReady, true, NoReason);
      if !IsTrue(h.labels, Installed) then Outcome(WithCondition(m1, HostReady, false, HostWaitingForInstall), true)
      else if !IsTrue(h.labels, Bootstrapped)
        then Outcome(WithCondition(m1, HostReady, false, HostWaitingForBootstrap), true)
      else
        var m2 := WithCondition(m1, HostReady, true, NoReason);
        if !cluster.hasControlPlaneRef || !cluster.controlPlaneInitialized then
          Outcome(WithCondition(m2, ProviderIDReady, false, WaitingForControlPlaneInitialized), true)
        else
          var o := WithProviderID(m2, answer);
          if o.ok then Outcome(o.machine.(ready := true), true) else o
  }

  function NoHostAvailable(m: Machine): Machine {
    WithCondition(m, AssociationReady, false, MissingAvailableHosts)
  }

  function Associated(m: Machine, hk: Key): Machine {
    WithCondition(WithCondition(m.(hostRef := Some(hk)), AssociationReady, true, NoReason), HostReady, false,
                  HostWaitingForBootstrap)
  }

  /** The host side of the link. */
  function Linked(h: Host, mk: Key, m: Machine, owner: OwnerMachine): Host
    requires owner.dataSecretName.Some?
  {
    var labels := h.labels[MachineName := owner.key.name][ElementalMachineName := mk.name];
    h.(machineRef := Some(mk),
       bootstrapSecret := Some(Key(owner.key.ns, owner.dataSecretName.value)),
       labels := if m.clusterName.Some? then labels[ClusterName := m.clusterName.value] else labels,
       osVersion := m.osVersion)
  }

  function MarkedForReset(h: Host): Host {
    h.(labels := h.labels[NeedsReset := TRUE])
  }

  function Released(m: Machine): Machine {
    m.(finalizers := m.finalizers - {FINALIZER})
  }

  // ---- One whole reconcile with nobody else writing in between ----

  function Saved(w: World, mk: Key, before: Machine, after: Machine, fails: bool): World {
    if fails then w else w.(machines := PatchedMachines(w.machines, mk, before, after))
  }

  function SelectorFails(m: Machine): bool {
    m.selector.Some? && exists r :: r in m.selector.value && !WellFormed(r)
  }

  function SelectorOf(m: Machine): seq<Requirement> {
    if m.selector.Some? then m.selector.value else []
  }

  /** findAvailableHost: a host linked before wins over a new one. */
  function Candidate(env: Env, hosts: map<Key, Host>, mk: Key, m: Machine): Lookup<Key> {
    var linked := First(AlreadyLinked(mk), env.order, hosts);
    if env.faults.listLinked then Failed
    else if linked.Some? then Found(linked.value)
    else if SelectorFails(m) || env.faults.listAvailable then Failed
    else
      var free := First(Available(mk, SelectorOf(m)), env.order, hosts);
      if free.Some? then Found(free.value) else Missing
  }

  lemma CandidateIsLive(env: Env, hosts: map<Key, Host>, mk: Key, m: Machine)
    ensures var c := Candidate(env, hosts, mk, m);
            c.Found? ==> c.value in hosts
                         && (Selects(AlreadyLinked(mk), c.value, hosts[c.value])
                             || Selects(Available(mk, SelectorOf(m)), c.value, hosts[c.value]))
  {
    FirstIsListed(AlreadyLinked(mk), env.order, hosts);
    FirstIsListed(Available(mk, SelectorOf(m)), env.order, hosts);
  }

  /** associateElementalHost on the store and on the machine's copy. */
  function Association(env: Env, hosts: map<Key, Host>, mk: Key, m: Machine, owner: OwnerMachine)
    : (map<Key, Host>, Outcome)
    requires owner.dataSecretName.Some?
  {
    match Candidate(env, hosts, mk, m)
    case Failed => (hosts, Outcome(m, false))
    case Missing => (hosts, Outcome(NoHostAvailable(m), true))
    case Found(hk) =>
      if env.faults.patchHost || hk !in hosts then (hosts, Outcome(m, false))
      else (PatchedHosts(hosts, hk, hosts[hk], Linked(hosts[hk], mk, m, owner)), Outcome(Associated(m, hk), true))
  }

  /** reconcileDelete on the store and on the machine's copy. */
  function Deletion(env: Env, hosts: map<Key, Host>, m: Machine): (map<Key, Host>, Outcome) {
    if m.hostRef.None? then (hosts, Outcome(Released(m), true))
    else
      var hk := m.hostRef.value;
      match Find(hosts, hk, env.faults.getHost)
      case Failed => (hosts, Outcome(m, false))
      case Missing => (hosts, Outcome(m, true))
      case Found(h) =>
        if env.faults.patchHost then (hosts, Outcome(m, false))
        else (PatchedHosts(hosts, hk, h, MarkedForReset(h)), Outcome(Released(m), true))
  }

  /** The edited machine and the hosts after everything but the deferred machine patch. */
  function Worked(env: Env, hosts: map<Key, Host>, mk: Key, m: Machine): (map<Key, Host>, Outcome) {
    match Gate(m, env.capi)
    case Stop(after) => (hosts, after)
    case Delete(m1) => Deletion(env, hosts, m1)
    case Normal(m1, owner, cluster) =>
      if m1.hostRef.None? then Association(env, hosts, mk, m1, owner)
      else
        var hk := m1.hostRef.value;
        (hosts, Evaluated(m1, Find(hosts, hk, env.faults.getHost), cluster, env.tracker(hk)))
  }

  function Reconciled(env: Env, w: World, mk: Key): World {
    if env.faults.getMachine || mk !in w.machines then w
    else
      var m := w.machines[mk];
      var (hosts, after) := Worked(env, w.hosts, mk, m);
      Saved(w.(hosts := hosts), mk, m, after.machine, env.faults.patchMachine)
  }

  // ---- The controller's methods ----

  class ElementalMachineReconciler {
    const client: Client
    const env: Env

    constructor (client: Client, env: Env)
      ensures this.client == client && this.env == env
    {
      this.client, this.env := client, env;
    }

    method Reconcile(mk: Key) returns (ok: bool)
      modifies client
      ensures client.Contents() == Reconciled(env, old(client.Contents()), mk)
      ensures ok <==> !env.faults.getMachine && (mk in old(client.machines) ==>
                !env.faults.patchMachine && Worked(env, old(client.hosts), mk, old(client.machines)[mk]).1.ok)
    {
      var found := client.GetMachine(mk, env.faults.getMachine);
      if found.Missing? {
        return true;
      }
      if found.Failed? {
        return false;
      }
      var machine := found.value;
      var before := machine.Value();
      ok := ReconcileMachine(machine);
      var patched := client.PatchMachine(mk, before, machine.Value(), env.faults.patchMachine);
      ok := ok && patched;
    }

    /** The body of Reconcile between fetching the machine and the deferred patch. */
    method ReconcileMachine(machine: MachineObject) returns (ok: bool)
      modifies client, machine
      ensures client.machines == old(client.machines)
      ensures var (hosts, after) := Worked(env, old(client.hosts), machine.key, old(machine.Value()));
              client.hosts == hosts && machine.Value() == after.machine && ok == after.ok
    {
      var capi := env.capi;
      if !capi.owner.Found? {
        machine.SetCondition(AssociationReady, false, MissingMachineOwner);
        return capi.owner.Missing?;
      }
      if !capi.cluster.Found? {
        machine.SetCondition(AssociationReady, false, MissingAssociatedCluster);
        return capi.cluster.Missing?;
      }
      var cluster := capi.cluster.value;
      if !machine.deleting {
        if FINALIZER !in machine.finalizers {
          machine.finalizers := machine.finalizers + {FINALIZER};
        }
        assert machine.finalizers == old(machine.finalizers) + {FINALIZER};
        if !cluster.infrastructureReady {
          machine.SetCondition(AssociationReady, false, MissingClusterInfrastructureReady);
          return true;
        }
        if capi.owner.value.dataSecretName.None? {
          machine.SetCondition(AssociationReady, false, MissingBootstrapSecret);
          return true;
        }
        ok := ReconcileNormal(machine, capi.owner.value, cluster);
        return;
      }
      if FINALIZER in machine.finalizers {
        ok := ReconcileDelete(machine);
        return;
      }
      ok := true;
    }

    method ReconcileNormal(machine: MachineObject, owner: OwnerMachine, cluster: Cluster) returns (ok: bool)
      requires owner.dataSecretName.Some?
      modifies client, machine
      ensures client.machines == old(client.machines)
      ensures var m := old(machine.Value()).(ready := false);
              if m.hostRef.None? then
                var (hosts, after) := Association(env, old(client.hosts), machine.key, m, owner);
                client.hosts == hosts && machine.Value() == after.machine && ok == after.ok
              else
                var hk := m.hostRef.value;
                var after := Evaluated(m, Find(old(client.hosts), hk, env.faults.getHost), cluster, env.tracker(hk));
                client.hosts == old(client.hosts) && machine.Value() == after.machine && ok == after.ok
    {
      machine.ready := false;
      if machine.hostRef.None? {
        ok := AssociateElementalHost(machine, owner);
        return;
      }
      var found := client.GetHost(machine.hostRef.value, env.faults.getHost);
      if found.Missing? {
        machine.SetCondition(AssociationReady, false, AssociatedHostNotFound);
        machine.providerID := None;
        machine.hostRef := None;
        return true;
      }
      if found.Failed? {
        machine.SetCondition(AssociationReady, false, AssociatedHostNotFound);
        return false;
      }
      machine.SetCondition(AssociationReady, true, NoReason);
      var host := found.value;
      if Installed !in host.labels || host.labels[Installed] != TRUE {
        machine.SetCondition(HostReady, false, HostWaitingForInstall);
        return true;
      }
      if Bootstrapped !in host.labels || host.labels[Bootstrapped] != TRUE {
        machine.SetCondition(HostReady, false, HostWaitingForBootstrap);
        return true;
      }
      machine.SetCondition(HostReady, true, NoReason);
      if !cluster.hasControlPlaneRef || (cluster.hasControlPlaneRef && !cluster.controlPlaneInitialized) {
        machine.SetCondition(ProviderIDReady, false, WaitingForControlPlaneInitialized);
        return true;
      }
      ok := SetProviderID(machine);
      if !ok {
        return;
      }
      machine.ready := true;
    }

    method SetProviderID(machine: MachineObject) returns (ok: bool)
      modifies machine
      ensures old(machine.hostRef).None? ==> !ok && machine.Value() == old(machine.Value())
      ensures old(machine.hostRef).Some? ==>
                var after := WithProviderID(old(machine.Value()), env.tracker(old(machine.hostRef).value));
                machine.Value() == after.machine && ok == after.ok
    {
      if machine.hostRef.None? {
        return false;
      }
      var hk := machine.hostRef.value;
      var id := ProviderID(hk);
      if machine.providerID.Some? && machine.providerID.value == id {
        return true;
      }
      match env.tracker(hk) {
        case RemoteNodeNotFound =>
          machine.SetCondition(ProviderIDReady, false, NodeNotFound);
          return false;
        case TrackerError =>
          return false;
        case NodeUpdated =>
          machine.providerID := Some(id);
          machine.SetCondition(ProviderIDReady, true, NoReason);
          return true;
      }
    }

    method AssociateElementalHost(machine: MachineObject, owner: OwnerMachine) returns (ok: bool)
      requires owner.dataSecretName.Some?
      modifies client, machine
      ensures client.machines == old(client.machines)
      ensures var (hosts, after) := Association(env, old(client.hosts), machine.key, old(machine.Value()), owner);
              client.hosts == hosts && machine.Value() == after.machine && ok == after.ok
    {
      var candidate := FindAvailableHost(machine);
      if candidate.Failed? {
        return false;
      }
      if candidate.Missing? {
        machine.SetCondition(AssociationReady, false, MissingAvailableHosts);
        return true;
      }
      var host := candidate.value;
      ok := LinkElementalHostToElementalMachine(owner, machine, host);
      if !ok {
        return;
      }
      machine.hostRef := Some(host.key);
      machine.SetCondition(AssociationReady, true, NoReason);
      machine.SetCondition(HostReady, false, HostWaitingForBootstrap);
    }

    method LinkElementalHostToElementalMachine(owner: OwnerMachine, machine: MachineObject, host: HostObject)
      returns (ok: bool)
      requires owner.dataSecretName.Some? && host.key in client.hosts
      modifies client, host
      ensures client.machines == old(client.machines) && ok == !env.faults.patchHost
      ensures client.hosts ==
              if ok
              then PatchedHosts(old(client.hosts), host.key, old(host.Value()),
                                Linked(old(host.Value()), machine.key, old(machine.Value()), owner))
              else old(client.hosts)
    {
      var before := host.Value();
      host.machineRef := Some(machine.key);
      host.bootstrapSecret := Some(Key(owner.key.ns, owner.dataSecretName.value));
      host.SetLabel(MachineName, owner.key.name);
      host.SetLabel(ElementalMachineName, machine.key.name);
      if machine.clusterName.Some? {
        host.SetLabel(ClusterName, machine.clusterName.value);
      }
      host.osVersion := machine.osVersion;
      assert host.Value() == Linked(before, machine.key, machine.Value(), owner);
      ok := client.PatchHost(host.key, before, host.Value(), env.faults.patchHost);
    }

    method FindAvailableHost(machine: MachineObject) returns (host: Lookup<HostObject>)
      ensures var c := Candidate(env, client.hosts, machine.key, machine.Value());
              && (host.Failed? <==> c.Failed?) && (host.Missing? <==> c.Missing?)
              && (host.Found? ==> fresh(host.value) && host.value.key == c.value
                                  && c.value in client.hosts && host.value.Value() == client.hosts[c.value])
    {
      CandidateIsLive(env, client.hosts, machine.key, machine.Value());
      host := LookUp(AlreadyLinked(machine.key), env.faults.listLinked);
      if !host.Missing? {
        return;
      }
      if machine.selector.Some? && exists r :: r in machine.selector.value && !WellFormed(r) {
        return Failed;
      }
      var selector := if machine.selector.Some? then machine.selector.value else [];
      host := LookUp(Available(machine.key, selector), env.faults.listAvailable);
    }

    /** Lists the hosts of a query and returns a copy of the first one, if any. */
    method LookUp(q: Query, fails: bool) returns (host: Lookup<HostObject>)
      ensures var first := First(q, env.order, client.hosts);
              && (host.Failed? <==> fails) && (host.Missing? <==> !fails && first.None?)
              && (host.Found? ==> fresh(host.value) && first == Some(host.value.key)
                                  && host.value.key in client.hosts
                                  && host.value.Value() == client.hosts[host.value.key])
    {
      if fails {
        return Failed;
      }
      var items := Listed(q, env.order, client.hosts);
      FirstIsListed(q, env.order, client.hosts);
      if items == [] {
        return Missing;
      }
      var first := new HostObject(items[0], client.hosts[items[0]]);
      host := Found(first);
    }

    method ReconcileDelete(machine: MachineObject) returns (ok: bool)
      modifies client, machine
      ensures client.machines == old(client.machines)
      ensures var (hosts, after) := Deletion(env, old(client.hosts), old(machine.Value()));
              client.hosts == hosts && machine.Value() == after.machine && ok == after.ok
    {
      if machine.hostRef.Some? {
        var found := client.GetHost(machine.hostRef.value, env.faults.getHost);
        if found.Missing? {
          return true;
        }
        if found.Failed? {
          return false;
        }
        var host := found.value;
        var before := host.Value();
        host.SetLabel(NeedsReset, TRUE);
        ok := client.PatchHost(host.key, before, host.Value(), env.faults.patchHost);
        if !ok {
          return;
        }
      }
      machine.finalizers := machine.finalizers - {FINALIZER};
      ok := true;
    }
  }
}
