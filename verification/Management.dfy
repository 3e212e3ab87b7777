/** The management cluster as a labelled transition system. Every store access of a machine reconcile is a step of its
    own and the reconcile may die between any two; PATCH handlers and host reconciles read in one step and write in
    a later one, any number of them at a time; agents, users and deletions interleave anywhere. */
module Management {
  import opened Common
  import opened Objects
  import opened Patches
  import opened Store
  import opened ElementalApi
  import HostReconciler
  import opened MachineReconciler
  import opened AgentProtocol

  /** A computed patch of a host on its way to the store. It may land never, once, or again after a retry. */
  datatype HostWrite = HostWrite(hk: Key, patch: HostPatch)

  /** A reply that a PATCH handler has given, on its way to the agent of the host. It may arrive late, or never. */
  datatype Answer = Answer(hk: Key, response: HostResponse)

  /** The only machine reconcile under way. `read` is the machine as fetched, `mid` and `after` its edited copy. */
  datatype Worker =
    | Idle
    | Loaded(mk: Key, read: Machine)
    | Searching(mk: Key, read: Machine, mid: Machine, owner: OwnerMachine)
    | Linking(mk: Key, read: Machine, mid: Machine, owner: OwnerMachine, hk: Key, hostRead: Host)
    | Marking(mk: Key, read: Machine, hk: Key, hostRead: Host)
    | Saving(mk: Key, read: Machine, after: Machine)

  /** The last five fields are history: every host name ever used, the machine each host was first linked to,
      the hosts that ever carried the finalizer, the last value of removed hosts, and the log of each host's agent. */
  datatype State = State(
    hosts: map<Key, Host>,
    machines: map<Key, Machine>,
    worker: Worker,
    writes: set<HostWrite>,
    answers: set<Answer>,
    used: set<Key>,
    owner: map<Key, Key>,
    finalized: set<Key>,
    gone: map<Key, Host>,
    logs: map<Key, seq<Event>>)

  function Log(s: State, hk: Key): seq<Event> {
    if hk in s.logs then s.logs[hk] else []
  }

  predicate Sent(log: seq<Event>, op: Op) {
    exists p :: 0 <= p < |log| && log[p].op == op
  }

  function ReplaceHost(s: State, hk: Key, h: Host): State {
    s.(hosts := PutHost(s.hosts, hk, h),
       gone := if Finished(h.deleting, h.finalizers) then s.gone[hk := h] else s.gone,
       finalized := if FINALIZER in h.finalizers then s.finalized + {hk} else s.finalized)
  }

  datatype Action =
    | CreateHost(hk: Key, labels: Labels, annotations: map<string, string>)
    | DeleteHost(hk: Key)
    | AgentCalls(hk: Key, e: Event)
    | HandlePatch(hk: Key, request: HostPatchRequest)
    | AnswerPatch(hk: Key)
    | ReadHost(hk: Key, machineFails: bool)
    | Land(write: HostWrite)
    | Drop(write: HostWrite)
    | RequestUpdate(hk: Key)
    | CreateMachine(mk: Key, clusterName: Option<string>, selector: Option<seq<Requirement>>, osVersion: OsVersion)
    | EditMachine(mk: Key, clusterName: Option<string>, selector: Option<seq<Requirement>>, osVersion: OsVersion)
    | DeleteMachine(mk: Key)
    | Load(mk: Key)
    | Decide(capi: Capi, tracker: TrackerAnswer, getFails: bool, listed: Lookup<Key>)
    | LookUpAvailable(listed: Lookup<Key>)
    | LinkHost(fails: bool)
    | MarkHost(fails: bool)
    | SaveMachine
    | Crash

  /** What a listing that takes the first match may answer. */
  predicate ListingAnswers(hosts: map<Key, Host>, q: Query, listed: Lookup<Key>) {
    match listed
    case Failed => true
    case Missing => forall hk :: hk in hosts ==> !Selects(q, hk, hosts[hk])
    case Found(hk) => hk in hosts && Selects(q, hk, hosts[hk])
  }

  /** A request of a host's agent: no reserved free-form labels, flags only as `true` and only after the agent sent
      them. */
  predicate FromAgent(log: seq<Event>, p: HostPatchRequest) {
    && p.labels.Keys !! RESERVED
    && (p.installed.Some? ==> p.installed.value && Sent(log, PatchInstalled))
    && (p.bootstrapped.Some? ==> p.bootstrapped.value && Sent(log, PatchBootstrapped))
    && (p.reset.Some? ==> p.reset.value && Sent(log, PatchReset))
  }

  ghost predicate Enabled(s: State, a: Action) {
    match a
    case CreateHost(hk, labels, _) => hk !in s.used && labels.Keys !! RESERVED
    case DeleteHost(hk) => hk in s.hosts
    case AgentCalls(hk, e) =>
      && MaySend(Log(s, hk), e.op)
      && (e.op.PatchRunning? && e.ok ==> Answer(hk, e.op.reply) in s.answers)
      && (e == Event(Op.DeleteHost, true) ==> hk in s.used && (hk in s.hosts ==> s.hosts[hk].deleting))
    case HandlePatch(hk, request) => hk in s.hosts && FromAgent(Log(s, hk), request)
    case AnswerPatch(hk) => hk in s.hosts
    case ReadHost(hk, _) => hk in s.hosts
    case Land(write) => write in s.writes
    case Drop(write) => write in s.writes
    case RequestUpdate(hk) => hk in s.hosts
    case CreateMachine(mk, _, _, _) => mk !in s.machines
    case EditMachine(mk, _, _, _) => mk in s.machines
    case DeleteMachine(mk) => mk in s.machines
    case Load(mk) => s.worker.Idle? && mk in s.machines
    case Decide(capi, _, _, listed) =>
      s.worker.Loaded? && ListingAnswers(s.hosts, AlreadyLinked(s.worker.mk), listed)
    case LookUpAvailable(listed) =>
      s.worker.Searching? && ListingAnswers(s.hosts, Available(s.worker.mk, SelectorOf(s.worker.mid)), listed)
    case LinkHost(_) => s.worker.Linking? && s.worker.owner.dataSecretName.Some?
    case MarkHost(_) => s.worker.Marking?
    case SaveMachine => s.worker.Saving?
    case Crash => true
  }

  function Queued(s: State, hk: Key, before: Host, after: Host): State {
    s.(writes := s.writes + {HostWrite(hk, DiffHost(before, after))})
  }

  /** The step from a fetched machine to the first thing that is done about it. */
  function Decided(s: State, capi: Capi, tracker: TrackerAnswer, getFails: bool, listed: Lookup<Key>): Worker
    requires s.worker.Loaded? && ListingAnswers(s.hosts, AlreadyLinked(s.worker.mk), listed)
  {
    var mk := s.worker.mk;
    var read := s.worker.read;
    match Gate(read, capi)
    case Stop(after) => Saving(mk, read, after.machine)
    case Delete(m) =>
      if m.hostRef.None? then Saving(mk, read, Released(m))
      else
        var host := Find(s.hosts, m.hostRef.value, getFails);
        if host.Found? then Marking(mk, read, m.hostRef.value, host.value) else Saving(mk, read, m)
    case Normal(m, owner, cluster) =>
      if m.hostRef.Some? then
        Saving(mk, read, Evaluated(m, Find(s.hosts, m.hostRef.value, getFails), cluster, tracker).machine)
      else
        match listed
        case Failed => Saving(mk, read, m)
        case Missing => Searching(mk, read, m, owner)
        case Found(hk) => Linking(mk, read, m, owner, hk, s.hosts[hk])
  }

  function Searched(s: State, listed: Lookup<Key>): Worker
    requires s.worker.Searching?
    requires listed.Found? ==> listed.value in s.hosts
  {
    var Searching(mk, read, mid, owner) := s.worker;
    if SelectorFails(mid) || listed.Failed? then Saving(mk, read, mid)
    else if listed.Missing? then Saving(mk, read, NoHostAvailable(mid))
    else Linking(mk, read, mid, owner, listed.value, s.hosts[listed.value])
  }

  function AfterLanding(s: State, write: HostWrite): State {
    if write.hk in s.hosts then ReplaceHost(s, write.hk, MergeHost(s.hosts[write.hk], write.patch)) else s
  }

  /** The host as read is linked, and what changed of it is merged into the stored host. */
  function AfterLink(s: State, fails: bool): State
    requires s.worker.Linking? && s.worker.owner.dataSecretName.Some?
  {
    var Linking(mk, read, mid, owner, hk, hostRead) := s.worker;
    if fails || hk !in s.hosts then s.(worker := Saving(mk, read, mid))
    else
      var patch := DiffHost(hostRead, Linked(hostRead, mk, mid, owner));
      ReplaceHost(s, hk, MergeHost(s.hosts[hk], patch))
        .(owner := s.owner[hk := mk], worker := Saving(mk, read, Associated(mid, hk)))
  }

  function AfterMark(s: State, fails: bool): State
    requires s.worker.Marking?
  {
    var Marking(mk, read, hk, hostRead) := s.worker;
    if fails || hk !in s.hosts then s.(worker := Saving(mk, read, read))
    else
      var patch := DiffHost(hostRead, MarkedForReset(hostRead));
      ReplaceHost(s, hk, MergeHost(s.hosts[hk], patch)).(worker := Saving(mk, read, Released(read)))
  }

  function AfterSave(s: State): State
    requires s.worker.Saving?
  {
    var Saving(mk, read, after) := s.worker;
    s.(machines := PatchedMachines(s.machines, mk, read, after), worker := Idle)
  }

  function NewMachine(clusterName: Option<string>, selector: Option<seq<Requirement>>, osVersion: OsVersion): Machine {
    Machine(clusterName, {}, false, selector, None, None, false, osVersion, map[])
  }

  function Do(s: State, a: Action): State
    requires Enabled(s, a)
  {
    match a
    case CreateHost(hk, labels, annotations) =>
      s.(hosts := s.hosts[hk := Host(labels, annotations, {}, false, None, None, map[], map[], NoPhase)],
         used := s.used + {hk})
    case DeleteHost(hk) => ReplaceHost(s, hk, s.hosts[hk].(deleting := true))
    case AgentCalls(hk, e) => s.(logs := s.logs[hk := Log(s, hk) + [e]])
    case HandlePatch(hk, request) =>
      if Admissible(s.hosts[hk], request) then Queued(s, hk, s.hosts[hk], Applied(s.hosts[hk], request)) else s
    case AnswerPatch(hk) => s.(answers := s.answers + {Answer(hk, FromElementalHost(s.hosts[hk]))})
    case ReadHost(hk, machineFails) =>
      var h := s.hosts[hk];
      Queued(s, hk, h, HostReconciler.Reconciled(h, HostReconciler.MachineOsVersion(s.machines, h, machineFails)))
    case Land(write) => AfterLanding(s, write)
    case Drop(write) => s.(writes := s.writes - {write})
    case RequestUpdate(hk) =>
      ReplaceHost(s, hk, s.hosts[hk].(labels := s.hosts[hk].labels[InPlaceUpdate := PENDING]))
    case CreateMachine(mk, clusterName, selector, osVersion) =>
      s.(machines := PutMachine(s.machines, mk, NewMachine(clusterName, selector, osVersion)))
    case EditMachine(mk, clusterName, selector, osVersion) =>
      s.(machines := PutMachine(s.machines, mk, s.machines[mk].(clusterName := clusterName, selector := selector,
                                                                osVersion := osVersion)))
    case DeleteMachine(mk) => s.(machines := PutMachine(s.machines, mk, s.machines[mk].(deleting := true)))
    case Load(mk) => s.(worker := Loaded(mk, s.machines[mk]))
    case Decide(capi, tracker, getFails, listed) => s.(worker := Decided(s, capi, tracker, getFails, listed))
    case LookUpAvailable(listed) => s.(worker := Searched(s, listed))
    case LinkHost(fails) => AfterLink(s, fails)
    case MarkHost(fails) => AfterMark(s, fails)
    case SaveMachine => AfterSave(s)
    case Crash => s.(worker := Idle)
  }

  const EMPTY := State(map[], map[], Idle, {}, {}, {}, map[], {}, map[], map[])

  /** A run: the states before and after each action, from the empty cluster. */
  ghost predicate Run(states: seq<State>, actions: seq<Action>) {
    && |states| == |actions| + 1
    && states[0] == EMPTY
    && Steps(states, actions)
  }

  ghost predicate Steps(states: seq<State>, actions: seq<Action>)
    requires |states| == |actions| + 1
  {
    forall i {:trigger Enabled(states[i], actions[i])} ::
      0 <= i < |actions| ==> Enabled(states[i], actions[i]) && states[i + 1] == Do(states[i], actions[i])
  }

  /** The PATCH requests the agent really sends are the ones the transition system admits. */
  lemma AgentRequestsAreAdmitted(log: seq<Event>, op: Op)
    requires Sent(log, op) && Request(op).Some?
    ensures FromAgent(log, Request(op).value)
  {
  }
}
