/** internal/controller/elementalhost_controller.go */
module HostReconciler {
  import opened Common
  import opened Objects
  import opened Patches
  import opened Store

  function WithCondition(h: Host, ctype: ConditionType, status: bool, reason: Reason): Host {
    h.(conditions := h.conditions[ctype := Condition(status, reason)])
  }

  /** The reason the OS version is not ready after the machine's instructions changed. */
  function MutationReason(labels: Labels): Reason {
    var pending := InPlaceUpdate in labels && labels[InPlaceUpdate] == PENDING;
    if IsTrue(labels, Bootstrapped) && !pending then InPlaceUpdateNotPending else WaitingForOSReconcile
  }

  /** `machine` answers the read of the OS version of the machine the host is linked to. */
  function WithMachineOsVersion(h: Host, machine: Lookup<OsVersion>): Host {
    if machine.Found? && h.osVersion != machine.value then
      WithCondition(h.(osVersion := machine.value), OSVersionReady, false, MutationReason(h.labels))
    else h
  }

  /** The conditions that follow from the labels the agent reports. */
  function ReportedConditions(labels: Labels, conditions: Conditions): Conditions {
    var c := if IsTrue(labels, Installed)
             then conditions[RegistrationReady := Condition(true, NoReason)]
                            [InstallationReady := Condition(true, NoReason)]
             else conditions;
    if IsTrue(labels, Bootstrapped) then c[BootstrapReady := Condition(true, NoReason)] else c
  }

  function ReconciledNormal(h: Host, machine: Lookup<OsVersion>): Host {
    var h1 := if h.machineRef.Some? then WithMachineOsVersion(h, machine) else h;
    if h.machineRef.Some? && machine.Failed? then h1
    else h1.(conditions := ReportedConditions(h1.labels, h1.conditions))
  }

  function ReconciledDelete(h: Host): Host {
    if IsTrue(h.labels, Reset) then
      WithCondition(h.(finalizers := h.finalizers - {FINALIZER}), ResetReady, true, NoReason)
    else if !IsTrue(h.labels, NeedsReset) then
      WithCondition(h.(labels := h.labels[NeedsReset := TRUE]), ResetReady, false, WaitingForReset)
    else h
  }

  function Reconciled(h: Host, machine: Lookup<OsVersion>): Host {
    if !h.deleting then ReconciledNormal(h.(finalizers := h.finalizers + {FINALIZER}), machine)
    else if FINALIZER in h.finalizers then ReconciledDelete(h)
    else h
  }

  /** The OS version of the machine a host is linked to, as the store has it. */
  function MachineOsVersion(machines: map<Key, Machine>, h: Host, fails: bool): Lookup<OsVersion> {
    if h.machineRef.None? then Missing
    else match Find(machines, h.machineRef.value, fails)
      case Failed => Failed
      case Missing => Missing
      case Found(m) => Found(m.osVersion)
  }

  method ReconcileOSVersionManagement(client: Client, host: HostObject, getFails: bool) returns (ok: bool)
    requires host.machineRef.Some?
    modifies host
    ensures var machine := MachineOsVersion(client.machines, old(host.Value()), getFails);
            ok == !machine.Failed? && host.Value() == WithMachineOsVersion(old(host.Value()), machine)
  {
    var found := client.GetMachine(host.machineRef.value, getFails);
    if found.Missing? {
      return true;
    }
    if found.Failed? {
      return false;
    }
    var machine := found.value;
    if host.osVersion != machine.osVersion {
      host.osVersion := machine.osVersion;
      var isAlreadyBootstrapped := Bootstrapped in host.labels && host.labels[Bootstrapped] == TRUE;
      var isInPlaceUpdatePending := InPlaceUpdate in host.labels && host.labels[InPlaceUpdate] == PENDING;
      if isAlreadyBootstrapped && !isInPlaceUpdatePending {
        host.SetCondition(OSVersionReady, false, InPlaceUpdateNotPending);
      } else {
        host.SetCondition(OSVersionReady, false, WaitingForOSReconcile);
      }
    }
    ok := true;
  }

  method ReconcileNormal(client: Client, host: HostObject, getFails: bool) returns (ok: bool)
    modifies host
    ensures var machine := MachineOsVersion(client.machines, old(host.Value()), getFails);
            ok == !machine.Failed? && host.Value() == ReconciledNormal(old(host.Value()), machine)
  {
    if host.machineRef.Some? {
      ok := ReconcileOSVersionManagement(client, host, getFails);
      if !ok {
        return;
      }
    }
    if Installed in host.labels && host.labels[Installed] == TRUE {
      host.SetCondition(RegistrationReady, true, NoReason);
      host.SetCondition(InstallationReady, true, NoReason);
    }
    if Bootstrapped in host.labels && host.labels[Bootstrapped] == TRUE {
      host.SetCondition(BootstrapReady, true, NoReason);
    }
    ok := true;
  }

  method ReconcileDelete(host: HostObject)
    modifies host
    ensures host.Value() == ReconciledDelete(old(host.Value()))
  {
    if Reset in host.labels && host.labels[Reset] == TRUE {
      host.finalizers := host.finalizers - {FINALIZER};
      host.SetCondition(ResetReady, true, NoReason);
      return;
    }
    if NeedsReset !in host.labels || host.labels[NeedsReset] != TRUE {
      host.SetLabel(NeedsReset, TRUE);
      host.SetCondition(ResetReady, false, WaitingForReset);
    }
  }

  datatype HostFaults = HostFaults(getHost: bool, getMachine: bool, patch: bool)

  /** The hosts after a whole reconcile of one of them: it is stored also when the read of its machine fails. */
  function ReconciledStore(w: World, hk: Key, faults: HostFaults): map<Key, Host> {
    if faults.getHost || faults.patch || hk !in w.hosts then w.hosts
    else PutHost(w.hosts, hk, Reconciled(w.hosts[hk], MachineOsVersion(w.machines, w.hosts[hk], faults.getMachine)))
  }

  /** Only the read of the machine of a host that is not being deleted makes its reconcile return an error. */
  predicate ReconcileFails(machines: map<Key, Machine>, h: Host, fails: bool) {
    !h.deleting && MachineOsVersion(machines, h, fails).Failed?
  }

  /** One whole reconcile with nobody else writing: the deferred patch also runs after an error. */
  method Reconcile(client: Client, hk: Key, faults: HostFaults) returns (ok: bool)
    modifies client
    ensures client.machines == old(client.machines)
    ensures client.hosts == ReconciledStore(old(client.Contents()), hk, faults)
    ensures ok <==> !faults.getHost && (hk in old(client.hosts) ==>
              !faults.patch && !ReconcileFails(old(client.machines), old(client.hosts)[hk], faults.getMachine))
  {
    var found := client.GetHost(hk, faults.getHost);
    if found.Missing? {
      return true;
    }
    if found.Failed? {
      return false;
    }
    var host := found.value;
    ghost var h := client.hosts[hk];
    ghost var machine := MachineOsVersion(client.machines, h, faults.getMachine);
    var before := host.Value();
    ok := true;
    if !host.deleting {
      if FINALIZER !in host.finalizers {
        host.finalizers := host.finalizers + {FINALIZER};
      }
      assert host.Value() == h.(finalizers := h.finalizers + {FINALIZER});
      ok := ReconcileNormal(client, host, faults.getMachine);
    } else if FINALIZER in host.finalizers {
      ReconcileDelete(host);
    }
    assert host.Value() == Reconciled(h, machine);
    var patched := client.PatchHost(hk, before, host.Value(), faults.patch);
    if !faults.patch {
      HostRoundTrip(h, Reconciled(h, machine));
    }
    ok := ok && patched;
  }

  /** Reconciling again changes nothing, whatever the host and the answer of the machine's read. */
  lemma ReconcileIsIdempotent(h: Host, machine: Lookup<OsVersion>)
    ensures Reconciled(Reconciled(h, machine), machine) == Reconciled(h, machine)
  {
    if !h.deleting {
      var h0 := h.(finalizers := h.finalizers + {FINALIZER});
      var once := ReconciledNormal(h0, machine);
      ConditionsSettle(h0, machine);
      assert once.(finalizers := once.finalizers + {FINALIZER}) == once;
    } else if FINALIZER in h.finalizers && !IsTrue(h.labels, Reset) && !IsTrue(h.labels, NeedsReset) {
      assert IsTrue(Reconciled(h, machine).labels, NeedsReset);
    }
  }

  lemma ConditionsSettle(h: Host, machine: Lookup<OsVersion>)
    ensures ReconciledNormal(ReconciledNormal(h, machine), machine) == ReconciledNormal(h, machine)
  {
    var h1 := if h.machineRef.Some? then WithMachineOsVersion(h, machine) else h;
    assert h1.labels == h.labels && h1.machineRef == h.machineRef;
    ReportsSettle(h.labels, h1.conditions);
  }

  lemma ReportsSettle(labels: Labels, conditions: Conditions)
    ensures var once := ReportedConditions(labels, conditions);
            && ReportedConditions(labels, once) == once
            && Get(once, OSVersionReady) == Get(conditions, OSVersionReady)
  {
  }

  /** After a reconcile a linked host that is not being deleted has its machine's OS version, and whenever that value
      changed, the condition says why it is not ready yet. */
  lemma OsVersionPropagates(machines: map<Key, Machine>, h: Host)
    requires !h.deleting && h.machineRef.Some? && h.machineRef.value in machines
    ensures var after := Reconciled(h, MachineOsVersion(machines, h, false));
            && after.osVersion == machines[h.machineRef.value].osVersion
            && (after.osVersion != h.osVersion ==>
                  Get(after.conditions, OSVersionReady) == Some(Condition(false, MutationReason(h.labels))))
            && (after.osVersion == h.osVersion ==>
                 Get(after.conditions, OSVersionReady) == Get(h.conditions, OSVersionReady))
  {
    var h0 := h.(finalizers := h.finalizers + {FINALIZER});
    var h1 := WithMachineOsVersion(h0, MachineOsVersion(machines, h, false));
    ReportsSettle(h1.labels, h1.conditions);
  }

  /** A reconcile takes the finalizer away only from a host that is being deleted and was reset. */
  lemma FinalizerOnlyAfterReset(h: Host, machine: Lookup<OsVersion>)
    ensures FINALIZER in h.finalizers && FINALIZER !in Reconciled(h, machine).finalizers <==>
              h.deleting && FINALIZER in h.finalizers && IsTrue(h.labels, Reset)
  {
  }

  // ---- What a reconcile leaves behind, field by field ----

  /** The condition that a reconcile of a host that is not being deleted stores under one type. `changed` says that the
      machine's OS version was new to the host. */
  function StoredCondition(h: Host, changed: bool, t: ConditionType): Option<Condition> {
    var installed := Get(h.labels, Installed) == Some("true");
    var bootstrapped := Get(h.labels, Bootstrapped) == Some("true");
    match t
    case RegistrationReady => if installed then Some(Condition(true, NoReason)) else Get(h.conditions, t)
    case InstallationReady => if installed then Some(Condition(true, NoReason)) else Get(h.conditions, t)
    case BootstrapReady => if bootstrapped then Some(Condition(true, NoReason)) else Get(h.conditions, t)
    case OSVersionReady =>
      if !changed then Get(h.conditions, t)
      else if bootstrapped && Get(h.labels, InPlaceUpdate) != Some("pending") then
        Some(Condition(false, InPlaceUpdateNotPending))
      else Some(Condition(false, WaitingForOSReconcile))
    case _ => Get(h.conditions, t)
  }

  /** A host that is not being deleted gets the finalizer, the OS version of its machine, and the conditions that its
      labels imply; if the machine cannot be read, only the finalizer. Nothing else of it changes. */
  lemma LiveHostOutcome(machines: map<Key, Machine>, h: Host, fails: bool)
    requires !h.deleting
    ensures var after := Reconciled(h, MachineOsVersion(machines, h, fails));
            var linked := h.machineRef.Some?;
            var osVersion := if linked && !fails && h.machineRef.value in machines
                             then machines[h.machineRef.value].osVersion else h.osVersion;
            && after == h.(finalizers := h.finalizers + {FINALIZER}, osVersion := osVersion,
                           conditions := after.conditions)
            && (linked && fails ==> after.conditions == h.conditions)
            && (!(linked && fails) ==>
                  forall t :: Get(after.conditions, t) == StoredCondition(h, osVersion != h.osVersion, t))
  {
    var h0 := h.(finalizers := h.finalizers + {FINALIZER});
    var machine := MachineOsVersion(machines, h, fails);
    assert machine == MachineOsVersion(machines, h0, fails);
    var h1 := if h.machineRef.Some? then WithMachineOsVersion(h0, machine) else h0;
    CopiedOsVersion(h0, machine);
    forall t
      ensures Get(ReportedConditions(h1.labels, h1.conditions), t) == StoredCondition(h, h1.osVersion != h.osVersion, t)
    {
      ReportedCondition(h1.labels, h1.conditions, t);
    }
  }

  lemma ReportedCondition(labels: Labels, conditions: Conditions, t: ConditionType)
    ensures Get(ReportedConditions(labels, conditions), t) ==
              if (t == RegistrationReady || t == InstallationReady) && Get(labels, Installed) == Some("true")
              then Some(Condition(true, NoReason))
              else if t == BootstrapReady && Get(labels, Bootstrapped) == Some("true")
              then Some(Condition(true, NoReason))
              else Get(conditions, t)
  {
  }

  lemma CopiedOsVersion(h: Host, machine: Lookup<OsVersion>)
    ensures var after := WithMachineOsVersion(h, machine);
            && after == h.(osVersion := if machine.Found? then machine.value else h.osVersion,
                           conditions := after.conditions)
            && (after.osVersion == h.osVersion ==> after.conditions == h.conditions)
            && (after.osVersion != h.osVersion ==>
                  after.conditions == h.conditions[OSVersionReady := Condition(false,
                    if Get(h.labels, Bootstrapped) == Some("true") && Get(h.labels, InPlaceUpdate) != Some("pending")
                    then InPlaceUpdateNotPending else WaitingForOSReconcile)])
  {
  }

  /** A host that is being deleted loses the finalizer once it was reset, and otherwise asks for its reset, once. */
  lemma DeletedHostOutcome(h: Host, machine: Lookup<OsVersion>)
    requires h.deleting
    ensures var after := Reconciled(h, machine);
            if FINALIZER !in h.finalizers then after == h
            else if Get(h.labels, Reset) == Some("true") then
              after == h.(finalizers := h.finalizers - {FINALIZER},
                          conditions := h.conditions[ResetReady := Condition(true, NoReason)])
            else if Get(h.labels, NeedsReset) == Some("true") then after == h
            else
              after == h.(labels := h.labels[NeedsReset := "true"],
                          conditions := h.conditions[ResetReady := Condition(false, WaitingForReset)])
  {
  }

  /** A host that is to go but was not reset always asks for its reset afterwards. */
  lemma DeletedHostAsksForReset(h: Host, machine: Lookup<OsVersion>)
    requires h.deleting && FINALIZER in h.finalizers && Get(h.labels, Reset) != Some("true")
    ensures Get(Reconciled(h, machine).labels, NeedsReset) == Some("true")
  {
    DeletedHostOutcome(h, machine);
  }

  /** What a whole reconcile stores and when it returns an error. The edited host is stored also after the read of its
      machine failed, which is the error of a linked host that is not being deleted; a host that is to go and lost its
      last finalizer is removed. */
  lemma ErrorsMean(w: World, hk: Key, faults: HostFaults)
    requires hk in w.hosts
    ensures ReconcileFails(w.machines, w.hosts[hk], faults.getMachine) <==>
              !w.hosts[hk].deleting && w.hosts[hk].machineRef.Some? && faults.getMachine
    ensures faults.getHost || faults.patch ==> ReconciledStore(w, hk, faults) == w.hosts
    ensures !faults.getHost && !faults.patch ==>
              var after := Reconciled(w.hosts[hk], MachineOsVersion(w.machines, w.hosts[hk], faults.getMachine));
              ReconciledStore(w, hk, faults)
              == if after.deleting && after.finalizers == {} then w.hosts - {hk} else w.hosts[hk := after]
  {
  }
}
