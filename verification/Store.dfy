/** The management cluster's store, and the in-memory copies that handlers and controllers edit. */
module Store {
  import opened Common
  import opened Objects
  import opened Patches

  datatype World = World(hosts: map<Key, Host>, machines: map<Key, Machine>)

  /** Stores a host; one that is being deleted and has no finalizer left disappears. */
  function PutHost(hosts: map<Key, Host>, hk: Key, host: Host): map<Key, Host> {
    if Finished(host.deleting, host.finalizers) then hosts - {hk} else hosts[hk := host]
  }

  function PatchedHosts(hosts: map<Key, Host>, hk: Key, before: Host, after: Host): map<Key, Host> {
    if hk in hosts then PutHost(hosts, hk, MergeHost(hosts[hk], DiffHost(before, after))) else hosts
  }

  function PutMachine(machines: map<Key, Machine>, mk: Key, machine: Machine): map<Key, Machine> {
    if Finished(machine.deleting, machine.finalizers) then machines - {mk} else machines[mk := machine]
  }

  function PatchedMachines(machines: map<Key, Machine>, mk: Key, before: Machine, after: Machine): map<Key, Machine> {
    if mk in machines then PutMachine(machines, mk, MergeMachine(machines[mk], DiffMachine(before, after)))
      else machines
  }

  /** A fetched copy of an ElementalHost. */
  class HostObject {
    const key: Key
    var labels: Labels
    var annotations: map<string, string>
    var finalizers: set<string>
    const deleting: bool
    var machineRef: Option<Key>
    var bootstrapSecret: Option<Key>
    var osVersion: OsVersion
    var conditions: Conditions
    var phase: HostPhase

    function Value(): Host
      reads this
    {
      Host(labels, annotations, finalizers, deleting, machineRef, bootstrapSecret, osVersion, conditions, phase)
    }

    constructor (key: Key, host: Host)
      ensures this.key == key && Value() == host
    {
      this.key := key;
      labels, annotations, finalizers, deleting := host.labels, host.annotations, host.finalizers, host.deleting;
      machineRef, bootstrapSecret, osVersion := host.machineRef, host.bootstrapSecret, host.osVersion;
      conditions, phase := host.conditions, host.phase;
    }

    method SetLabel(name: LabelKey, value: string)
      modifies this`labels
      ensures labels == old(labels)[name := value]
    {
      labels := labels[name := value];
    }

    method SetCondition(ctype: ConditionType, status: bool, reason: Reason)
      modifies this`conditions
      ensures conditions == old(conditions)[ctype := Condition(status, reason)]
    {
      conditions := conditions[ctype := Condition(status, reason)];
    }
  }

  /** A fetched copy of an ElementalMachine. */
  class MachineObject {
    const key: Key
    const clusterName: Option<string>
    var finalizers: set<string>
    const deleting: bool
    const selector: Option<seq<Requirement>>
    var hostRef: Option<Key>
    var providerID: Option<string>
    var ready: bool
    const osVersion: OsVersion
    var conditions: Conditions

    function Value(): Machine
      reads this
    {
      Machine(clusterName, finalizers, deleting, selector, hostRef, providerID, ready, osVersion, conditions)
    }

    constructor (key: Key, machine: Machine)
      ensures this.key == key && Value() == machine
    {
      this.key := key;
      clusterName, finalizers := machine.clusterName, machine.finalizers;
      deleting, selector := machine.deleting, machine.selector;
      hostRef, providerID, ready, osVersion := machine.hostRef, machine.providerID, machine.ready, machine.osVersion;
      conditions := machine.conditions;
    }

    method SetCondition(ctype: ConditionType, status: bool, reason: Reason)
      modifies this`conditions
      ensures conditions == old(conditions)[ctype := Condition(status, reason)]
    {
      conditions := conditions[ctype := Condition(status, reason)];
    }
  }

  /** The client of the store. `fails` is the environment's answer to a call: a failed call has no effect. */
  class Client {
    var hosts: map<Key, Host>
    var machines: map<Key, Machine>

    function Contents(): World
      reads this
    {
      World(hosts, machines)
    }

    method GetHost(hk: Key, fails: bool) returns (found: Lookup<HostObject>)
      ensures found.Failed? <==> fails
      ensures found.Missing? <==> !fails && hk !in hosts
      ensures found.Found? ==>
                fresh(found.value) && found.value.key == hk && hk in hosts && found.value.Value() == hosts[hk]
    {
      if fails {
        return Failed;
      }
      if hk !in hosts {
        return Missing;
      }
      var host := new HostObject(hk, hosts[hk]);
      found := Found(host);
    }

    method GetMachine(mk: Key, fails: bool) returns (found: Lookup<MachineObject>)
      ensures found.Failed? <==> fails
      ensures found.Missing? <==> !fails && mk !in machines
      ensures found.Found? ==>
                fresh(found.value) && found.value.key == mk && mk in machines && found.value.Value() == machines[mk]
    {
      if fails {
        return Failed;
      }
      if mk !in machines {
        return Missing;
      }
      var machine := new MachineObject(mk, machines[mk]);
      found := Found(machine);
    }

    method PatchHost(hk: Key, before: Host, after: Host, fails: bool) returns (ok: bool)
      modifies this
      ensures machines == old(machines)
      ensures ok <==> !fails && hk in old(hosts)
      ensures hosts == if ok then PatchedHosts(old(hosts), hk, before, after) else old(hosts)
    {
      ok := !fails && hk in hosts;
      if ok {
        hosts := PutHost(hosts, hk, MergeHost(hosts[hk], DiffHost(before, after)));
      }
    }

    method DeleteHost(hk: Key, fails: bool) returns (ok: bool)
      modifies this
      ensures machines == old(machines)
      ensures ok <==> !fails && hk in old(hosts)
      ensures hosts == if ok then PutHost(old(hosts), hk, old(hosts)[hk].(deleting := true)) else old(hosts)
    {
      ok := !fails && hk in hosts;
      if ok {
        hosts := PutHost(hosts, hk, hosts[hk].(deleting := true));
      }
    }

    method PatchMachine(mk: Key, before: Machine, after: Machine, fails: bool) returns (ok: bool)
      modifies this
      ensures hosts == old(hosts)
      ensures ok <==> !fails && mk in old(machines)
      ensures machines == if ok then PatchedMachines(old(machines), mk, before, after) else old(machines)
    {
      ok := !fails && mk in machines;
      if ok {
        machines := PutMachine(machines, mk, MergeMachine(machines[mk], DiffMachine(before, after)));
      }
    }
  }
}
