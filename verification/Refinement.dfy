/** An undisturbed call of a handler or a controller is a path of the transition system: what the methods are proved to
    do to the store is one of the behaviours the runs range over. */
module Refinement {
  import opened Common
  import opened Objects
  import opened Patches
  import opened Store
  import opened ElementalApi
  import HostReconciler
  import opened MachineReconciler
  import opened AgentProtocol
  import opened RetryLoops
  import opened Agent
  import opened Management
  import opened ManagementSafety
  import opened ManagementRuns

  ghost predicate Path(s: State, actions: seq<Action>, s': State)
    decreases |actions|
  {
    if actions == [] then s' == s
    else Enabled(s, actions[0]) && Path(Do(s, actions[0]), actions[1..], s')
  }

  function StoreOf(s: State): World {
    World(s.hosts, s.machines)
  }

  lemma OneStep(s: State, a: Action, rest: seq<Action>, s': State)
    requires Enabled(s, a) && Path(Do(s, a), rest, s')
    ensures Path(s, [a] + rest, s')
  {
    assert ([a] + rest)[1..] == rest;
  }

  lemma {:induction false} PathsCompose(s: State, a: seq<Action>, m: State, b: seq<Action>, s': State)
    requires Path(s, a, m) && Path(m, b, s')
    ensures Path(s, a + b, s')
    decreases |a|
  {
    if a == [] {
      assert a + b == b;
    } else {
      PathsCompose(Do(s, a[0]), a[1..], m, b, s');
      OneStep(s, a[0], a[1..] + b, s');
      assert [a[0]] + (a[1..] + b) == a + b;
    }
  }

  /** What holds in every reachable state holds after every path from one. */
  lemma {:induction false} PathStaysReachable(s: State, actions: seq<Action>, s': State)
    requires Reachable(s) && Path(s, actions, s')
    ensures Reachable(s')
    decreases |actions|
  {
    if actions == [] {
      assert s' == s;
    } else {
      StepStaysReachable(s, actions[0]);
      PathStaysReachable(Do(s, actions[0]), actions[1..], s');
    }
  }

  /** The last step of a machine reconcile, whose patch may fail. */
  lemma FinishPath(s: State, fails: bool) returns (actions: seq<Action>, s': State)
    requires s.worker.Saving? && s.worker.mk in s.machines
    ensures Path(s, actions, s') && s'.worker.Idle?
    ensures StoreOf(s') == Saved(StoreOf(s), s.worker.mk, s.worker.read, s.worker.after, fails)
  {
    var a := if fails then Crash else SaveMachine;
    s' := Do(s, a);
    actions := [a];
    OneStep(s, a, [], s');
  }

  lemma LinkPath(s: State, faults: Faults) returns (actions: seq<Action>, s': State)
    requires s.worker.Linking? && s.worker.mk in s.machines && s.worker.hk in s.hosts
             && s.worker.owner.dataSecretName.Some?
    requires s.worker.hostRead == s.hosts[s.worker.hk]
    ensures var Linking(mk, read, mid, owner, hk, _) := s.worker;
            var after := if faults.patchHost then mid else Associated(mid, hk);
            var hosts := if faults.patchHost then s.hosts
                         else PatchedHosts(s.hosts, hk, s.hosts[hk], Linked(s.hosts[hk], mk, mid, owner));
            && Path(s, actions, s') && s'.worker.Idle?
            && StoreOf(s') == Saved(World(hosts, s.machines), mk, read, after, faults.patchMachine)
  {
    var s1 := Do(s, LinkHost(faults.patchHost));
    var rest;
    rest, s' := FinishPath(s1, faults.patchMachine);
    actions := [LinkHost(faults.patchHost)] + rest;
    OneStep(s, LinkHost(faults.patchHost), rest, s');
  }

  lemma MarkPath(s: State, faults: Faults) returns (actions: seq<Action>, s': State)
    requires s.worker.Marking? && s.worker.mk in s.machines && s.worker.hk in s.hosts
             && s.worker.hostRead == s.hosts[s.worker.hk]
    ensures var Marking(mk, read, hk, h) := s.worker;
            var after := if faults.patchHost then read else Released(read);
            var hosts := if faults.patchHost then s.hosts else PatchedHosts(s.hosts, hk, h, MarkedForReset(h));
            && Path(s, actions, s') && s'.worker.Idle?
            && StoreOf(s') == Saved(World(hosts, s.machines), mk, read, after, faults.patchMachine)
  {
    var s1 := Do(s, MarkHost(faults.patchHost));
    var rest;
    rest, s' := FinishPath(s1, faults.patchMachine);
    actions := [MarkHost(faults.patchHost)] + rest;
    OneStep(s, MarkHost(faults.patchHost), rest, s');
  }

  /** The answer of a listing as the transition system sees it. */
  function ListingAnswer(q: Query, order: seq<Key>, hosts: map<Key, Host>, fails: bool): Lookup<Key> {
    if fails then Failed
    else
      var first := First(q, order, hosts);
      if first.Some? then Found(first.value) else Missing
  }

  lemma ListingAnswerIsValid(q: Query, order: seq<Key>, hosts: map<Key, Host>, fails: bool)
    requires forall hk :: hk in hosts ==> hk in order
    ensures ListingAnswers(hosts, q, ListingAnswer(q, order, hosts, fails))
  {
    FirstIsListed(q, order, hosts);
  }

  lemma SearchPath(s: State, env: Env) returns (actions: seq<Action>, s': State)
    requires s.worker.Searching? && s.worker.mk in s.machines && s.worker.owner.dataSecretName.Some?
    requires forall hk :: hk in s.hosts ==> hk in env.order
    requires First(AlreadyLinked(s.worker.mk), env.order, s.hosts).None? && !env.faults.listLinked
    ensures var Searching(mk, read, mid, owner) := s.worker;
            var (hosts, after) := Association(env, s.hosts, mk, mid, owner);
            && Path(s, actions, s') && s'.worker.Idle?
            && StoreOf(s') == Saved(World(hosts, s.machines), mk, read, after.machine, env.faults.patchMachine)
  {
    var Searching(mk, read, mid, owner) := s.worker;
    var q := Available(mk, SelectorOf(mid));
    var listed := ListingAnswer(q, env.order, s.hosts, env.faults.listAvailable);
    ListingAnswerIsValid(q, env.order, s.hosts, env.faults.listAvailable);
    var s1 := Do(s, LookUpAvailable(listed));
    var rest;
    if s1.worker.Linking? {
      rest, s' := LinkPath(s1, env.faults);
    } else {
      rest, s' := FinishPath(s1, env.faults.patchMachine);
    }
    actions := [LookUpAvailable(listed)] + rest;
    OneStep(s, LookUpAvailable(listed), rest, s');
  }

  function TrackerFor(env: Env, m: Machine): TrackerAnswer {
    if m.hostRef.Some? then env.tracker(m.hostRef.value) else NodeUpdated
  }

  /** What is left to do in each state of the worker to end with these hosts and this edited machine. */
  predicate LeftToDo(env: Env, before: map<Key, Host>, w: Worker, mk: Key, read: Machine, hosts: map<Key, Host>,
                     after: Machine) {
    !w.Idle? && w.mk == mk && w.read == read &&
    match w
    case Saving(_, _, edited) => hosts == before && after == edited
    case Searching(_, _, mid, owner) =>
      && owner.dataSecretName.Some?
      && (var (h, o) := Association(env, before, mk, mid, owner); hosts == h && after == o.machine)
      && First(AlreadyLinked(mk), env.order, before).None? && !env.faults.listLinked
    case Linking(_, _, mid, owner, hk, hostRead) =>
      && owner.dataSecretName.Some? && hk in before && hostRead == before[hk]
      && after == (if env.faults.patchHost then mid else Associated(mid, hk))
      && hosts == (if env.faults.patchHost then before
                   else PatchedHosts(before, hk, hostRead, Linked(hostRead, mk, mid, owner)))
    case Marking(_, _, hk, hostRead) =>
      && hk in before && hostRead == before[hk]
      && after == (if env.faults.patchHost then read else Released(read))
      && hosts == (if env.faults.patchHost then before
                   else PatchedHosts(before, hk, hostRead, MarkedForReset(hostRead)))
    case _ => false
  }

  lemma DecidedWork(s: State, env: Env, listed: Lookup<Key>)
    requires s.worker.Loaded? && ListingAnswers(s.hosts, AlreadyLinked(s.worker.mk), listed)
    requires listed == ListingAnswer(AlreadyLinked(s.worker.mk), env.order, s.hosts, env.faults.listLinked)
    ensures var Loaded(mk, read) := s.worker;
            var (hosts, after) := Worked(env, s.hosts, mk, read);
            var w := Decided(s, env.capi, TrackerFor(env, read), env.faults.getHost, listed);
            LeftToDo(env, s.hosts, w, mk, read, hosts, after.machine)
  {
    GateKeepsHostRef(s.worker.read, env.capi);
  }

  lemma ContinuePath(s: State, env: Env, hosts: map<Key, Host>, after: Machine)
    returns (actions: seq<Action>, s': State)
    requires !s.worker.Idle? && s.worker.mk in s.machines && (forall hk :: hk in s.hosts ==> hk in env.order)
    requires LeftToDo(env, s.hosts, s.worker, s.worker.mk, s.worker.read, hosts, after)
    ensures Path(s, actions, s') && s'.worker.Idle?
    ensures StoreOf(s') == Saved(World(hosts, s.machines), s.worker.mk, s.worker.read, after, env.faults.patchMachine)
  {
    match s.worker {
      case Searching(_, _, _, _) => actions, s' := SearchPath(s, env);
      case Linking(_, _, _, _, _, _) => actions, s' := LinkPath(s, env.faults);
      case Marking(_, _, _, _) => actions, s' := MarkPath(s, env.faults);
      case Saving(_, _, _) => actions, s' := FinishPath(s, env.faults.patchMachine);
    }
  }

  lemma GateKeepsHostRef(m: Machine, capi: Capi)
    ensures var g := Gate(m, capi);
            && (g.Delete? ==> g.machine == m)
            && (g.Normal? ==> g.machine.hostRef == m.hostRef)
  {
  }

  /** The steps after the machine was fetched. */
  lemma DecidePath(s: State, env: Env) returns (actions: seq<Action>, s': State)
    requires s.worker.Loaded? && s.worker.mk in s.machines && (forall hk :: hk in s.hosts ==> hk in env.order)
    ensures var Loaded(mk, read) := s.worker;
            var (hosts, after) := Worked(env, s.hosts, mk, read);
            && Path(s, actions, s') && s'.worker.Idle?
            && StoreOf(s') == Saved(World(hosts, s.machines), mk, read, after.machine, env.faults.patchMachine)
  {
    var Loaded(mk, read) := s.worker;
    var listed := ListingAnswer(AlreadyLinked(mk), env.order, s.hosts, env.faults.listLinked);
    ListingAnswerIsValid(AlreadyLinked(mk), env.order, s.hosts, env.faults.listLinked);
    DecidedWork(s, env, listed);
    var a := Decide(env.capi, TrackerFor(env, read), env.faults.getHost, listed);
    var s1 := s.(worker := Decided(s, env.capi, TrackerFor(env, read), env.faults.getHost, listed));
    assert Enabled(s, a) && Do(s, a) == s1;
    var (hosts, after) := Worked(env, s.hosts, mk, read);
    var rest;
    rest, s' := ContinuePath(s1, env, hosts, after.machine);
    actions := [a] + rest;
    OneStep(s, a, rest, s');
  }

  /** A whole machine reconcile. */
  lemma MachineReconcileIsAPath(s: State, env: Env, mk: Key) returns (actions: seq<Action>, s': State)
    requires s.worker.Idle? && (forall hk :: hk in s.hosts ==> hk in env.order)
    ensures Path(s, actions, s') && s'.worker.Idle? && StoreOf(s') == Reconciled(env, StoreOf(s), mk)
  {
    if env.faults.getMachine || mk !in s.machines {
      actions, s' := [], s;
    } else {
      var s1 := Do(s, Load(mk));
      var rest;
      rest, s' := DecidePath(s1, env);
      actions := [Load(mk)] + rest;
      OneStep(s, Load(mk), rest, s');
    }
  }

  /** A whole host reconcile, whichever calls fail. */
  lemma HostReconcileIsAPath(s: State, hk: Key, faults: HostReconciler.HostFaults)
    returns (actions: seq<Action>, s': State)
    ensures Path(s, actions, s') && s'.machines == s.machines && s'.worker == s.worker && s'.logs == s.logs
    ensures s'.hosts == HostReconciler.ReconciledStore(StoreOf(s), hk, faults)
  {
    if faults.getHost || faults.patch || hk !in s.hosts {
      actions, s' := [], s;
    } else {
      var h := s.hosts[hk];
      var machine := HostReconciler.MachineOsVersion(s.machines, h, faults.getMachine);
      ReconcileKeepsDeletion(h, machine);
      actions, s' := ReadThenLand(s, ReadHost(hk, faults.getMachine), hk, HostReconciler.Reconciled(h, machine));
    }
  }

  lemma ReconcileKeepsDeletion(h: Host, machine: Lookup<OsVersion>)
    ensures HostReconciler.Reconciled(h, machine).deleting == h.deleting
  {
  }

  lemma ReadThenLand(s: State, read: Action, hk: Key, after: Host) returns (actions: seq<Action>, s': State)
    requires hk in s.hosts && Enabled(s, read) && Do(s, read) == Queued(s, hk, s.hosts[hk], after)
    requires after.deleting == s.hosts[hk].deleting
    ensures Path(s, actions, s') && s'.machines == s.machines && s'.worker == s.worker && s'.logs == s.logs
    ensures s'.hosts == PutHost(s.hosts, hk, after)
  {
    var write := HostWrite(hk, DiffHost(s.hosts[hk], after));
    HostRoundTrip(s.hosts[hk], after);
    var s1 := Do(s, read);
    s' := Do(s1, Land(write));
    OneStep(s1, Land(write), [], s');
    OneStep(s, read, [Land(write)], s');
    actions := [read] + [Land(write)];
  }

  /** A whole PATCH request of an agent, whatever the environment answers. */
  lemma PatchIsAPath(s: State, hk: Key, p: HostPatchRequest, env: RequestEnv) returns (actions: seq<Action>, s': State)
    requires FromAgent(Log(s, hk), p)
    ensures Path(s, actions, s') && s'.machines == s.machines && s'.worker == s.worker && s'.logs == s.logs
    ensures s'.hosts == PatchedStore(s.hosts, hk, p, env)
  {
    if Granted(s.hosts, hk, env) && Admissible(s.hosts[hk], p) && !env.writeFails {
      actions, s' := ReadThenLand(s, HandlePatch(hk, p), hk, Applied(s.hosts[hk], p));
    } else {
      actions, s' := [], s;
    }
  }

  // ---- The agent ----

  function Logged(s: State, hk: Key, e: Event): State {
    s.(logs := s.logs[hk := Log(s, hk) + [e]])
  }

  lemma CallStep(s: State, hk: Key, e: Event)
    requires Enabled(s, AgentCalls(hk, e))
    ensures Path(s, [AgentCalls(hk, e)], Logged(s, hk, e))
  {
    OneStep(s, AgentCalls(hk, e), [], Logged(s, hk, e));
  }

  /** The recorded reply of a PATCH call that succeeds is the one the handler gives. */
  predicate RepliesAs(hosts: map<Key, Host>, hk: Key, op: Op, env: RequestEnv)
    requires Request(op).Some?
  {
    op.PatchRunning? && PatchSucceeds(hosts, hk, Request(op).value, env) ==>
      op.reply == FromElementalHost(PatchedStore(hosts, hk, Request(op).value, env)[hk])
  }

  /** A PATCH call of an agent: the agent logs the call with the outcome and the reply that the handler gives it, and
      the store changes as the handler changes it. */
  lemma PatchCallIsAPath(s: State, hk: Key, op: Op, env: RequestEnv) returns (actions: seq<Action>, s': State)
    requires Request(op).Some? && MaySend(Log(s, hk), op) && RepliesAs(s.hosts, hk, op, env)
    ensures var p := Request(op).value;
            && Path(s, actions, s') && s'.machines == s.machines && s'.worker == s.worker
            && s'.hosts == PatchedStore(s.hosts, hk, p, env)
            && Log(s', hk) == Log(s, hk) + [Event(op, PatchSucceeds(s.hosts, hk, p, env))]
  {
    if op.PatchRunning? {
      actions, s' := RunningCallIsAPath(s, hk, op, env);
    } else {
      var e := Event(op, PatchSucceeds(s.hosts, hk, Request(op).value, env));
      CallStep(s, hk, e);
      var s1 := Logged(s, hk, e);
      assert Log(s1, hk)[|Log(s, hk)|] == e;
      AgentRequestsAreAdmitted(Log(s1, hk), op);
      var rest;
      rest, s' := PatchIsAPath(s1, hk, Request(op).value, env);
      actions := [AgentCalls(hk, e)] + rest;
      PathsCompose(s, [AgentCalls(hk, e)], s1, rest, s');
    }
  }

  /** The call that opens an iteration of the run loop: patch, answer, and only then the log. */
  lemma RunningCallIsAPath(s: State, hk: Key, op: Op, env: RequestEnv) returns (actions: seq<Action>, s': State)
    requires op.PatchRunning? && RepliesAs(s.hosts, hk, op, env)
    ensures var p := Request(op).value;
            && Path(s, actions, s') && s'.machines == s.machines && s'.worker == s.worker
            && s'.hosts == PatchedStore(s.hosts, hk, p, env)
            && Log(s', hk) == Log(s, hk) + [Event(op, PatchSucceeds(s.hosts, hk, p, env))]
  {
    var e := Event(op, PatchSucceeds(s.hosts, hk, Request(op).value, env));
    var patch, s1 := PatchIsAPath(s, hk, Request(op).value, env);
    if e.ok {
      var s2 := Do(s1, AnswerPatch(hk));
      CallStep(s2, hk, e);
      s' := Logged(s2, hk, e);
      OneStep(s1, AnswerPatch(hk), [AgentCalls(hk, e)], s');
      PathsCompose(s, patch, s1, [AnswerPatch(hk)] + [AgentCalls(hk, e)], s');
      actions := patch + ([AnswerPatch(hk)] + [AgentCalls(hk, e)]);
    } else {
      CallStep(s1, hk, e);
      s' := Logged(s1, hk, e);
      PathsCompose(s, patch, s1, [AgentCalls(hk, e)], s');
      actions := patch + [AgentCalls(hk, e)];
    }
  }

  /** A DELETE call of an agent: a host that the agent may take for marked is marked, or gone. */
  lemma DeleteIsAPath(s: State, hk: Key, env: RequestEnv) returns (actions: seq<Action>, s': State)
    requires Reachable(s)
    ensures Path(s, actions, s') && s'.machines == s.machines && s'.worker == s.worker
    ensures s'.hosts == DeletedStore(s.hosts, hk, env)
    ensures Log(s', hk) == Log(s, hk) + [Event(Op.DeleteHost, DeleteSucceeds(s.hosts, hk, env))]
    ensures DeleteSucceeds(s.hosts, hk, env) && !s.hosts[hk].deleting ==>
              actions == [Action.DeleteHost(hk), AgentCalls(hk, Event(Op.DeleteHost, true))]
  {
    var e := Event(Op.DeleteHost, DeleteSucceeds(s.hosts, hk, env));
    HostNamesAreUsed(s);
    if e.ok && !s.hosts[hk].deleting {
      var s1 := Do(s, Action.DeleteHost(hk));
      CallStep(s1, hk, e);
      s' := Logged(s1, hk, e);
      actions := [Action.DeleteHost(hk)] + [AgentCalls(hk, e)];
      OneStep(s, Action.DeleteHost(hk), [AgentCalls(hk, e)], s');
    } else {
      CallStep(s, hk, e);
      actions, s' := [AgentCalls(hk, e)], Logged(s, hk, e);
    }
  }

  lemma HostNamesAreUsed(s: State)
    requires Reachable(s)
    ensures forall hk :: hk in s.hosts ==> hk in s.used
  {
    ReachableIsOk(s);
  }

  /** The host was given the replies that its log holds since call n. */
  predicate RepliesGiven(s: State, hk: Key, log: seq<Event>, n: nat) {
    forall q :: n <= q < |log| && log[q].op.PatchRunning? && log[q].ok ==> Answer(hk, log[q].op.reply) in s.answers
  }

  predicate DeletesHost(log: seq<Event>, n: nat) {
    exists q :: n <= q < |log| && log[q] == Event(Op.DeleteHost, true)
  }

  /** The hosts once one of them is marked for deletion; a host without finalizers goes at once. */
  function MarkedForDeletion(hosts: map<Key, Host>, hk: Key): map<Key, Host> {
    if hk in hosts && !hosts[hk].deleting then PutHost(hosts, hk, hosts[hk].(deleting := true)) else hosts
  }

  /** A successful DeleteHost of a log, with the step that marks the host if it is not marked yet. */
  lemma DeletionStep(s: State, hk: Key) returns (actions: seq<Action>, s': State)
    requires hk in s.used
    ensures var e := Event(Op.DeleteHost, true);
            && Path(s, actions, s') && s'.hosts == MarkedForDeletion(s.hosts, hk)
            && s'.logs == s.logs[hk := Log(s, hk) + [e]] && s'.machines == s.machines && s'.worker == s.worker
            && s'.used == s.used && s'.answers == s.answers
  {
    var e := Event(Op.DeleteHost, true);
    if hk in s.hosts && !s.hosts[hk].deleting {
      var s1 := Do(s, Action.DeleteHost(hk));
      CallStep(s1, hk, e);
      s' := Logged(s1, hk, e);
      actions := [Action.DeleteHost(hk)] + [AgentCalls(hk, e)];
      OneStep(s, Action.DeleteHost(hk), [AgentCalls(hk, e)], s');
    } else {
      CallStep(s, hk, e);
      actions, s' := [AgentCalls(hk, e)], Logged(s, hk, e);
    }
  }

  lemma CallAsStep(s: State, hk: Key, e: Event) returns (actions: seq<Action>, s': State)
    requires MaySend(Log(s, hk), e.op) && (e == Event(Op.DeleteHost, true) ==> hk in s.used)
    requires e.op.PatchRunning? && e.ok ==> Answer(hk, e.op.reply) in s.answers
    ensures Path(s, actions, s') && s'.machines == s.machines && s'.worker == s.worker
    ensures s'.hosts == if e == Event(Op.DeleteHost, true) then MarkedForDeletion(s.hosts, hk) else s.hosts
    ensures s'.logs == s.logs[hk := Log(s, hk) + [e]] && s'.used == s.used && s'.answers == s.answers
  {
    if e == Event(Op.DeleteHost, true) {
      actions, s' := DeletionStep(s, hk);
    } else {
      CallStep(s, hk, e);
      actions, s' := [AgentCalls(hk, e)], Logged(s, hk, e);
    }
  }

  /** Whatever the handlers of an agent do, their log is a path: each of their calls is a step that the transition
      system lets interleave anywhere, and a successful DeleteHost finds the host marked, or marks it. */
  lemma {:induction false} LogIsAPath(s: State, hk: Key, log: seq<Event>) returns (actions: seq<Action>, s': State)
    requires LogOk(log) && Log(s, hk) <= log && RepliesGiven(s, hk, log, |Log(s, hk)|)
    requires DeletesHost(log, |Log(s, hk)|) ==> hk in s.used
    ensures Path(s, actions, s') && s'.machines == s.machines && s'.worker == s.worker && Log(s', hk) == log
    ensures s'.hosts == if DeletesHost(log, |Log(s, hk)|) then MarkedForDeletion(s.hosts, hk) else s.hosts
    ensures forall k :: k != hk ==> Log(s', k) == Log(s, k)
    decreases |log| - |Log(s, hk)|
  {
    var n := |Log(s, hk)|;
    if n == |log| {
      actions, s' := [], s;
    } else {
      Justified(log, n);
      assert log[..n] == Log(s, hk);
      var first, s1 := CallAsStep(s, hk, log[n]);
      assert DeletesHost(log, n) <==> log[n] == Event(Op.DeleteHost, true) || DeletesHost(log, n + 1);
      var rest;
      rest, s' := LogIsAPath(s1, hk, log);
      actions := first + rest;
      PathsCompose(s, first, s1, rest, s');
    }
  }

  /** The log that the agent of cmd/agent and internal/agent/phase really keeps is a path. */
  lemma AgentIsAPath(agentContext: AgentContext, s: State, hk: Key) returns (actions: seq<Action>, s': State)
    requires agentContext.Valid() && Log(s, hk) <= agentContext.log
    requires RepliesGiven(s, hk, agentContext.log, |Log(s, hk)|)
    requires DeletesHost(agentContext.log, |Log(s, hk)|) ==> hk in s.used
    ensures Path(s, actions, s') && s'.machines == s.machines && Log(s', hk) == agentContext.log
    ensures s'.hosts ==
              if DeletesHost(agentContext.log, |Log(s, hk)|) then MarkedForDeletion(s.hosts, hk) else s.hosts
  {
    actions, s' := LogIsAPath(s, hk, agentContext.log);
  }

  // ---- Both halves together ----

  const HEALTHY := RequestEnv(Found(()), true, false, false, false)

  const NO_HOST_FAULTS := HostReconciler.HostFaults(false, false, false)

  lemma DeletionIsMarked(s: State, hk: Key)
    requires Reachable(s) && hk in s.hosts && DeletedThisRound(Log(s, hk))
    ensures s.hosts[hk].deleting
  {
    ReachableIsOk(s);
    var log := Log(s, hk);
    var i :| 0 <= i < |log| && log[i] == Event(Op.DeleteHost, true) && OnlyResetSteps(log, i);
    assert Happened(log, Op.DeleteHost);
  }

  lemma ReportedResetReleases(h: Host, machine: Lookup<OsVersion>)
    requires h.deleting && h.finalizers == {FINALIZER}
    ensures var patched := Applied(h, Request(PatchReset).value);
            && patched.deleting && patched.finalizers == {FINALIZER}
            && HostReconciler.Reconciled(patched, machine).finalizers == {}
  {
    AppliedLabel(h.labels, Request(PatchReset).value, Reset);
    HostReconciler.FinalizerOnlyAfterReset(Applied(h, Request(PatchReset).value), machine);
  }

  lemma DeletingHostsWait(s: State, hk: Key)
    requires Reachable(s) && hk in s.hosts && s.hosts[hk].deleting
    ensures s.hosts[hk].finalizers == {FINALIZER}
  {
    ReachableIsOk(s);
    assert HostOk(s, hk, s.hosts[hk]);
  }

  /** What the report of a reset and then one reconcile do to the stored hosts. */
  lemma ReportThenReconcile(hosts: map<Key, Host>, machines: map<Key, Machine>, hk: Key)
    requires hk in hosts && hosts[hk].deleting && hosts[hk].finalizers == {FINALIZER}
    ensures var reported := PatchedStore(hosts, hk, Request(PatchReset).value, HEALTHY);
            HostReconciler.ReconciledStore(World(reported, machines), hk, NO_HOST_FAULTS) == hosts - {hk}
  {
    var patched := Applied(hosts[hk], Request(PatchReset).value);
    var machine := HostReconciler.MachineOsVersion(machines, patched, false);
    ReportedResetReleases(hosts[hk], machine);
    ReconcileKeepsDeletion(patched, machine);
    assert PatchedStore(hosts, hk, Request(PatchReset).value, HEALTHY) == hosts[hk := patched];
    assert hosts[hk := patched] - {hk} == hosts - {hk};
  }

  /** The report of a reset, once the agent sent it, and then one reconcile of the host. */
  lemma ReleasePath(s: State, hk: Key) returns (actions: seq<Action>, s': State)
    requires Reachable(s) && hk in s.hosts && s.hosts[hk].deleting && Sent(Log(s, hk), PatchReset)
    ensures Path(s, actions, s') && s'.hosts == s.hosts - {hk} && s'.machines == s.machines
  {
    DeletingHostsWait(s, hk);
    ReportThenReconcile(s.hosts, s.machines, hk);
    AgentRequestsAreAdmitted(Log(s, hk), PatchReset);
    var report, s1 := PatchIsAPath(s, hk, Request(PatchReset).value, HEALTHY);
    var reconcile;
    reconcile, s' := HostReconcileIsAPath(s1, hk, NO_HOST_FAULTS);
    actions := report + reconcile;
    PathsCompose(s, report, s1, reconcile, s');
  }

  /** A host does go once it was reset: as soon as its agent may report the reset, the report and one reconcile of the
      host are a path to a state without it, from every reachable state. */
  lemma ResetReleasesTheHost(s: State, hk: Key) returns (actions: seq<Action>, s': State)
    requires Reachable(s) && hk in s.hosts && MaySend(Log(s, hk), PatchReset)
    ensures Path(s, actions, s') && Reachable(s')
    ensures s'.hosts == s.hosts - {hk} && s'.machines == s.machines
  {
    DeletionIsMarked(s, hk);
    var e := Event(PatchReset, true);
    CallStep(s, hk, e);
    var s1 := Logged(s, hk, e);
    PathStaysReachable(s, [AgentCalls(hk, e)], s1);
    assert Log(s1, hk)[|Log(s, hk)|].op == PatchReset;
    var rest;
    rest, s' := ReleasePath(s1, hk);
    actions := [AgentCalls(hk, e)] + rest;
    PathsCompose(s, [AgentCalls(hk, e)], s1, rest, s');
    PathStaysReachable(s, actions, s');
  }

  /** The log of a finished reset reports it, after a DeleteHost of its own, and acts on no reply. */
  lemma FinishedReset(log: seq<Event>, n: nat)
    requires LogOk(log) && 0 < n <= |log| && log[n - 1].op == SetPhase(Resetting) && RetrySession(ResetRetry, log, n)
    ensures Sent(log, PatchReset) && DeletesHost(log, n)
    ensures forall q :: n <= q < |log| ==> !log[q].op.PatchRunning?
  {
    var p := |log| - 1;
    assert log[p].op == PatchReset;
    Justified(log, p);
    var before := log[..p];
    var i :| 0 <= i < p && before[i] == Event(Op.DeleteHost, true) && OnlyResetSteps(before, i);
    assert before[n - 1] == log[n - 1];
    assert log[i] == Event(Op.DeleteHost, true) && n <= i;
  }

  lemma MarkingIsLocal(hosts: map<Key, Host>, hk: Key)
    ensures var marked := MarkedForDeletion(hosts, hk);
            && marked - {hk} == hosts - {hk}
            && (if hk in marked then marked[hk].deleting else marked == hosts - {hk})
  {
  }

  /** A whole reset, from its first call on: the calls of the agent, its report and one reconcile of the host are a path
      from any reachable state to a reachable one without the host, whatever failed on the way. */
  lemma WholeResetReleasesTheHost(agentContext: AgentContext, s: State, hk: Key, n: nat)
    returns (actions: seq<Action>, s': State)
    requires agentContext.Valid() && Reachable(s) && hk in s.hosts
    requires n < |agentContext.log| && Log(s, hk) == agentContext.log[..n]
    requires agentContext.log[n].op == SetPhase(Resetting) && RetrySession(ResetRetry, agentContext.log, n + 1)
    ensures Path(s, actions, s') && Reachable(s')
    ensures s'.hosts == s.hosts - {hk} && s'.machines == s.machines
  {
    var log := agentContext.log;
    FinishedReset(log, n + 1);
    HostNamesAreUsed(s);
    assert DeletesHost(log, n);
    MarkingIsLocal(s.hosts, hk);
    var calls, s1 := LogIsAPath(s, hk, log);
    PathStaysReachable(s, calls, s1);
    if hk in s1.hosts {
      var rest;
      rest, s' := ReleasePath(s1, hk);
      actions := calls + rest;
      PathsCompose(s, calls, s1, rest, s');
    } else {
      actions, s' := calls, s1;
    }
    PathStaysReachable(s, actions, s');
  }

  /** What one reconcile does to a stored host that is to go but was not reset. */
  lemma ReconcileAsks(hosts: map<Key, Host>, machines: map<Key, Machine>, hk: Key)
    requires hk in hosts && hosts[hk].deleting && hosts[hk].finalizers == {FINALIZER}
    requires Get(hosts[hk].labels, Reset) != Some("true")
    ensures var after := HostReconciler.ReconciledStore(World(hosts, machines), hk, NO_HOST_FAULTS);
            && after - {hk} == hosts - {hk}
            && hk in after && after[hk].deleting && after[hk].finalizers == {FINALIZER}
            && Get(after[hk].labels, NeedsReset) == Some("true")
  {
    var machine := HostReconciler.MachineOsVersion(machines, hosts[hk], false);
    HostReconciler.DeletedHostOutcome(hosts[hk], machine);
    HostReconciler.DeletedHostAsksForReset(hosts[hk], machine);
  }

  /** What the call that opens an iteration of the run loop does to such a host, and what it is told. */
  lemma RunningCallAsks(hosts: map<Key, Host>, hk: Key, r: HostResponse)
    requires hk in hosts && hosts[hk].deleting && hosts[hk].finalizers == {FINALIZER}
    requires Get(hosts[hk].labels, NeedsReset) == Some("true")
    requires r == FromElementalHost(hosts[hk].(phase := Running))
    ensures var p := Request(PatchRunning(r)).value;
            && PatchSucceeds(hosts, hk, p, HEALTHY) && RepliesAs(hosts, hk, PatchRunning(r), HEALTHY)
            && PatchedStore(hosts, hk, p, HEALTHY) == hosts[hk := hosts[hk].(phase := Running)]
    ensures r.needsReset
  {
    ReportsLeaveTheirMark(hosts[hk], PatchRunning(r));
    ResponseFlags(hosts[hk].(phase := Running));
  }

  /** A host that is to go is asked for its reset: from every reachable state, one reconcile of the host and the next
      call of its agent are a path to a state in which the agent was told so. */
  lemma DeletedHostIsAsked(s: State, hk: Key) returns (actions: seq<Action>, s': State, r: HostResponse)
    requires Reachable(s) && hk in s.hosts && s.hosts[hk].deleting && Get(s.hosts[hk].labels, Reset) != Some("true")
    ensures Path(s, actions, s') && Reachable(s')
    ensures Log(s', hk) == Log(s, hk) + [Event(PatchRunning(r), true)] && r.needsReset
    ensures s'.machines == s.machines && hk in s'.hosts && s'.hosts[hk].deleting && s'.hosts - {hk} == s.hosts - {hk}
  {
    DeletingHostsWait(s, hk);
    ReconcileAsks(s.hosts, s.machines, hk);
    var reconcile, s1 := HostReconcileIsAPath(s, hk, NO_HOST_FAULTS);
    r := FromElementalHost(s1.hosts[hk].(phase := Running));
    RunningCallAsks(s1.hosts, hk, r);
    var call;
    call, s' := PatchCallIsAPath(s1, hk, PatchRunning(r), HEALTHY);
    actions := reconcile + call;
    PathsCompose(s, reconcile, s1, call, s');
    PathStaysReachable(s, actions, s');
  }

  /** The rest of a reset in which nothing fails, up to the reset itself: the trigger, and then the first iteration of
      the reset loop. */
  function ResetCalls(reg: Registration): seq<Event> {
    [Event(Op.TriggerReset, true), Event(Op.DeleteHost, true), Event(GetRegistration(reg), true),
     Event(Marshal(ResetDocument), true), Event(PluginReset(reg.reset), true)]
  }

  lemma ResetCallsAreJustified(log: seq<Event>, r: HostResponse, reg: Registration)
    requires LogOk(log) && Last(log, Event(PatchRunning(r), true)) && r.needsReset
    ensures LogOk(log + ResetCalls(reg)) && MaySend(log + ResetCalls(reg), PatchReset)
  {
    assert RoundStart(log, |log| - 1, r);
    var calls := ResetCalls(reg);
    var log1 := log + [calls[0]];
    LogGrows(log, calls[0]);
    var log2 := log1 + [calls[1]];
    LogGrows(log1, calls[1]);
    var log3 := log2 + [calls[2]];
    LogGrows(log2, calls[2]);
    var log4 := log3 + [calls[3]];
    LogGrows(log3, calls[3]);
    var n := |log1|;
    assert log4[n] == Event(Op.DeleteHost, true) && OnlyResetSteps(log4, n);
    LogGrows(log4, calls[4]);
    var log5 := log4 + [calls[4]];
    assert log5[n] == Event(Op.DeleteHost, true) && OnlyResetSteps(log5, n);
    assert IsReset(log5[n + 3]);
    assert log5 == log + calls;
  }

  /** A host that was reset goes with its next reconcile. */
  lemma ResetHostGoes(s: State, hk: Key) returns (actions: seq<Action>, s': State)
    requires Reachable(s) && hk in s.hosts && s.hosts[hk].deleting && Get(s.hosts[hk].labels, Reset) == Some("true")
    ensures Path(s, actions, s') && s'.hosts == s.hosts - {hk} && s'.machines == s.machines
  {
    DeletingHostsWait(s, hk);
    HostReconciler.DeletedHostOutcome(s.hosts[hk], HostReconciler.MachineOsVersion(s.machines, s.hosts[hk], false));
    actions, s' := HostReconcileIsAPath(s, hk, NO_HOST_FAULTS);
  }

  lemma LogIsJustified(s: State, hk: Key)
    requires Reachable(s)
    ensures LogOk(Log(s, hk))
  {
    ReachableIsOk(s);
  }

  /** No host that is to go is ever stuck: whatever happened to it and its agent so far, from every reachable state some
      path leads to a state without it. */
  lemma NoDeletedHostIsStuck(s: State, hk: Key, reg: Registration) returns (actions: seq<Action>, s': State)
    requires Reachable(s) && hk in s.hosts && s.hosts[hk].deleting
    ensures Path(s, actions, s') && Reachable(s')
    ensures s'.hosts == s.hosts - {hk} && s'.machines == s.machines
  {
    if Get(s.hosts[hk].labels, Reset) == Some("true") {
      actions, s' := ResetHostGoes(s, hk);
    } else {
      var ask, s1, r := DeletedHostIsAsked(s, hk);
      LogIsJustified(s1, hk);
      ResetCallsAreJustified(Log(s1, hk), r, reg);
      HostNamesAreUsed(s1);
      var reset, s2 := LogIsAPath(s1, hk, Log(s1, hk) + ResetCalls(reg));
      PathsCompose(s, ask, s1, reset, s2);
      PathStaysReachable(s, ask + reset, s2);
      var release;
      release, s' := ResetReleasesTheHost(s2, hk);
      actions := ask + reset + release;
      PathsCompose(s, ask + reset, s2, release, s');
    }
    PathStaysReachable(s, actions, s');
  }
}
