/** The machine side of a release: a machine gives up its host, or leaves, only once that host is marked for reset or
    gone. Between the mark and the save of the machine anything may happen, and the reconcile may die. */
module ManagementRelease {
  import opened Common
  import opened Objects
  import opened Patches
  import opened Store
  import opened MachineReconciler
  import opened Management
  import opened ManagementSafety
  import opened ManagementRuns

  ghost predicate MayGiveUp(s: State, host: Option<Key>) {
    host.Some? ==> MarkedOrGone(s, host.value)
  }

  predicate OwnFinalizers(m: Machine) {
    m.finalizers <= {FINALIZER}
  }

  /** Saving this edited copy takes the reference or the finalizer away. */
  predicate GivesUp(read: Machine, after: Machine) {
    after.hostRef != read.hostRef || (FINALIZER in read.finalizers && FINALIZER !in after.finalizers)
  }

  ghost predicate WorkerReleases(s: State, w: Worker) {
    match w
    case Idle => true
    case Loaded(_, read) => OwnFinalizers(read)
    case Searching(_, read, mid, _) => OwnFinalizers(read) && OwnFinalizers(mid) && read.hostRef.None?
    case Linking(_, read, mid, _, _, _) => OwnFinalizers(read) && OwnFinalizers(mid) && read.hostRef.None?
    case Marking(_, read, hk, hostRead) =>
      && OwnFinalizers(read) && read.hostRef == Some(hk)
      && hk in s.used && (IsTrue(hostRead.labels, NeedsReset) ==> MarkedOrGone(s, hk))
    case Saving(_, read, after) =>
      OwnFinalizers(read) && OwnFinalizers(after) && (GivesUp(read, after) ==> MayGiveUp(s, read.hostRef))
  }

  /** No stored machine is one that the store would already have removed. */
  ghost predicate StoredOk(m: Machine) {
    OwnFinalizers(m) && !Finished(m.deleting, m.finalizers)
  }

  ghost predicate ReleaseOk(s: State) {
    WorkerReleases(s, s.worker) && forall mk :: mk in s.machines ==> StoredOk(s.machines[mk])
  }

  // ---- The worker ----

  lemma WorkerGoesOn(s: State, s': State, w: Worker)
    requires Advances(s, s') && WorkerReleases(s, w)
    ensures WorkerReleases(s', w)
  {
    match w {
      case Marking(_, _, hk, hostRead) =>
        if IsTrue(hostRead.labels, NeedsReset) {
          MarkStands(s, s', hk);
        }
      case Saving(_, read, after) =>
        if GivesUp(read, after) && read.hostRef.Some? {
          MarkStands(s, s', read.hostRef.value);
        }
      case _ =>
    }
  }

  lemma EvaluationGivesUp(m: Machine, host: Lookup<Host>, cluster: Cluster, answer: TrackerAnswer)
    requires m.hostRef.Some?
    ensures var after := Evaluated(m, host, cluster, answer).machine;
            after.finalizers == m.finalizers && (after.hostRef != m.hostRef ==> host.Missing?)
  {
  }

  /** What a decision leads to, for a machine without a host. */
  lemma DecisionWithoutHost(s: State, capi: Capi, tracker: TrackerAnswer, getFails: bool, listed: Lookup<Key>)
    requires s.worker.Loaded? && ListingAnswers(s.hosts, AlreadyLinked(s.worker.mk), listed)
    requires OwnFinalizers(s.worker.read) && s.worker.read.hostRef.None?
    ensures WorkerReleases(s, Decided(s, capi, tracker, getFails, listed))
  {
    GateShape(s.worker.read, capi);
  }

  lemma DecisionWithHost(s: State, capi: Capi, tracker: TrackerAnswer, getFails: bool, listed: Lookup<Key>)
    requires NamesOk(s) && s.worker.Loaded? && ListingAnswers(s.hosts, AlreadyLinked(s.worker.mk), listed)
    requires OwnFinalizers(s.worker.read) && s.worker.read.hostRef.Some? && s.worker.read.hostRef.value in s.used
    ensures WorkerReleases(s, Decided(s, capi, tracker, getFails, listed))
  {
    var read := s.worker.read;
    GateShape(read, capi);
    var g := Gate(read, capi);
    if g.Normal? {
      EvaluationGivesUp(g.machine, Find(s.hosts, read.hostRef.value, getFails), g.cluster, tracker);
    }
  }

  lemma DecisionReleases(s: State, capi: Capi, tracker: TrackerAnswer, getFails: bool, listed: Lookup<Key>)
    requires Inv(s) && WorkerReleases(s, s.worker)
    requires s.worker.Loaded? && ListingAnswers(s.hosts, AlreadyLinked(s.worker.mk), listed)
    ensures WorkerReleases(s, Decided(s, capi, tracker, getFails, listed))
  {
    if s.worker.read.hostRef.None? {
      DecisionWithoutHost(s, capi, tracker, getFails, listed);
    } else {
      assert MachineOk(s.owner, s.worker.mk, s.worker.read);
      DecisionWithHost(s, capi, tracker, getFails, listed);
    }
  }

  lemma SearchReleases(s: State, listed: Lookup<Key>)
    requires s.worker.Searching? && WorkerReleases(s, s.worker) && (listed.Found? ==> listed.value in s.hosts)
    ensures WorkerReleases(s, Searched(s, listed))
  {
  }

  lemma LinkReleases(s: State, fails: bool)
    requires s.worker.Linking? && s.worker.owner.dataSecretName.Some? && WorkerReleases(s, s.worker)
    ensures var s' := AfterLink(s, fails);
            WorkerReleases(s', s'.worker) && s'.machines == s.machines
  {
  }

  /** The mark is on the host when the machine is released, also if it was there before. */
  lemma MarkReleases(s: State, fails: bool)
    requires s.worker.Marking? && WorkerReleases(s, s.worker)
    ensures var s' := AfterMark(s, fails);
            WorkerReleases(s', s'.worker) && s'.machines == s.machines
  {
    var Marking(mk, read, hk, hostRead) := s.worker;
    var s' := AfterMark(s, fails);
    if !fails && hk in s.hosts {
      MergedMark(s.hosts[hk].labels, hostRead.labels);
      assert MarkedOrGone(s', hk);
    }
  }

  // ---- The stored machines ----

  lemma MergeReleases(current: Machine, read: Machine, after: Machine)
    requires StoredOk(current) && OwnFinalizers(after)
    ensures OwnFinalizers(MergeMachine(current, DiffMachine(read, after)))
  {
  }

  lemma PutReleases(machines: map<Key, Machine>, mk: Key, m: Machine)
    requires (forall k :: k in machines ==> StoredOk(machines[k])) && OwnFinalizers(m)
    ensures forall k :: k in PutMachine(machines, mk, m) ==> StoredOk(PutMachine(machines, mk, m)[k])
  {
  }

  lemma SaveReleases(s: State)
    requires ReleaseOk(s) && s.worker.Saving?
    ensures ReleaseOk(AfterSave(s))
  {
    var Saving(mk, read, after) := s.worker;
    if mk in s.machines {
      MergeReleases(s.machines[mk], read, after);
      PutReleases(s.machines, mk, MergeMachine(s.machines[mk], DiffMachine(read, after)));
    }
  }

  lemma UserReleases(s: State, a: Action)
    requires ReleaseOk(s) && Enabled(s, a) && (a.CreateMachine? || a.EditMachine? || a.DeleteMachine?)
    ensures var s' := Do(s, a);
            s'.worker == s.worker && forall mk :: mk in s'.machines ==> StoredOk(s'.machines[mk])
  {
    match a {
      case CreateMachine(mk, clusterName, selector, osVersion) =>
        PutReleases(s.machines, mk, NewMachine(clusterName, selector, osVersion));
      case EditMachine(mk, clusterName, selector, osVersion) =>
        var edited := s.machines[mk].(clusterName := clusterName, selector := selector, osVersion := osVersion);
        PutReleases(s.machines, mk, edited);
      case DeleteMachine(mk) => PutReleases(s.machines, mk, s.machines[mk].(deleting := true));
    }
  }

  lemma WorkerMoveKeepsRelease(s: State, w: Worker)
    requires ReleaseOk(s) && WorkerReleases(s, w)
    ensures ReleaseOk(s.(worker := w))
  {
    var s' := s.(worker := w);
    assert s'.hosts == s.hosts && s'.used == s.used;
    if w.Saving? && w.read.hostRef.Some? {
      assert MarkedOrGone(s', w.read.hostRef.value) == MarkedOrGone(s, w.read.hostRef.value);
    }
  }

  lemma WorkerStepKeepsRelease(s: State, a: Action)
    requires Inv(s) && ReleaseOk(s) && Enabled(s, a)
    requires a.Decide? || a.LookUpAvailable? || a.Load? || a.Crash?
    ensures ReleaseOk(Do(s, a))
  {
    match a {
      case Decide(capi, tracker, getFails, listed) => DecisionReleases(s, capi, tracker, getFails, listed);
      case LookUpAvailable(listed) => SearchReleases(s, listed);
      case Load(mk) => assert StoredOk(s.machines[mk]);
      case Crash =>
    }
    WorkerMoveKeepsRelease(s, Do(s, a).worker);
  }

  lemma OtherStepKeepsRelease(s: State, a: Action)
    requires Inv(s) && ReleaseOk(s) && Enabled(s, a)
    requires !(a.Decide? || a.LookUpAvailable? || a.LinkHost? || a.MarkHost? || a.SaveMachine? || a.Load? || a.Crash?)
    ensures ReleaseOk(Do(s, a))
  {
    StepAdvances(s, a);
    if a.CreateMachine? || a.EditMachine? || a.DeleteMachine? {
      UserReleases(s, a);
    } else {
      HostStepTouchesNoMachine(s, a);
    }
    WorkerGoesOn(s, Do(s, a), s.worker);
  }

  lemma WriteStepKeepsRelease(s: State, a: Action)
    requires ReleaseOk(s) && Enabled(s, a) && (a.LinkHost? || a.MarkHost? || a.SaveMachine?)
    ensures ReleaseOk(Do(s, a))
  {
    match a {
      case LinkHost(fails) => LinkReleases(s, fails);
      case MarkHost(fails) => MarkReleases(s, fails);
      case SaveMachine => SaveReleases(s);
    }
  }

  lemma StepKeepsRelease(s: State, a: Action)
    requires Inv(s) && ReleaseOk(s) && Enabled(s, a)
    ensures ReleaseOk(Do(s, a))
  {
    if a.Decide? || a.LookUpAvailable? || a.Load? || a.Crash? {
      WorkerStepKeepsRelease(s, a);
    } else if a.LinkHost? || a.MarkHost? || a.SaveMachine? {
      WriteStepKeepsRelease(s, a);
    } else {
      OtherStepKeepsRelease(s, a);
    }
  }

  lemma {:induction false} RunKeepsRelease(states: seq<State>, actions: seq<Action>, n: nat)
    requires Run(states, actions) && n < |states|
    ensures ReleaseOk(states[n])
  {
    if n == 0 {
      assert states[0] == EMPTY;
    } else {
      RunKeepsRelease(states, actions, n - 1);
      RunKeepsInv(states, actions, n - 1);
      RunStep(states, actions, n - 1);
      StepKeepsRelease(states[n - 1], actions[n - 1]);
    }
  }

  // ---- References ----

  ghost predicate Refers(s: State, mk: Key, hk: Key) {
    mk in s.machines && s.machines[mk].hostRef == Some(hk)
  }

  /** A save that changes the reference or removes the machine gives up what was read. */
  lemma MergeKeepsReference(owner: map<Key, Key>, mk: Key, current: Machine, read: Machine, after: Machine)
    requires StoredOk(current) && current.hostRef.Some? && OwnFinalizers(after) && SavableOk(owner, mk, read, after)
    requires !GivesUp(read, after)
    ensures var merged := MergeMachine(current, DiffMachine(read, after));
            merged.hostRef == current.hostRef && !Finished(merged.deleting, merged.finalizers)
  {
  }

  lemma SaveKeepsReference(s: State, mk: Key, hk: Key)
    requires WorkerOk(s) && ReleaseOk(s) && s.worker.Saving? && Refers(s, mk, hk)
    ensures Refers(AfterSave(s), mk, hk) || MarkedOrGone(s, hk)
  {
    var Saving(saved, read, after) := s.worker;
    if saved == mk {
      assert StoredOk(s.machines[mk]);
      if GivesUp(read, after) {
        assert Tracks(s, mk, read);
      } else {
        MergeKeepsReference(s.owner, mk, s.machines[mk], read, after);
      }
    }
  }

  lemma UserKeepsReference(s: State, a: Action, mk: Key, hk: Key)
    requires MachinesOk(s) && ReleaseOk(s) && Refers(s, mk, hk)
    requires Enabled(s, a) && (a.CreateMachine? || a.EditMachine? || a.DeleteMachine?)
    ensures Refers(Do(s, a), mk, hk)
  {
    assert MachineOk(s.owner, mk, s.machines[mk]) && StoredOk(s.machines[mk]);
  }

  lemma WorkerTouchesNoMachine(s: State, a: Action)
    requires Enabled(s, a) && (a.Load? || a.Decide? || a.LookUpAvailable? || a.LinkHost? || a.MarkHost? || a.Crash?)
    ensures Do(s, a).machines == s.machines
  {
  }

  lemma StepKeepsReference(s: State, a: Action, mk: Key, hk: Key)
    requires Inv(s) && ReleaseOk(s) && Enabled(s, a) && Refers(s, mk, hk)
    ensures Refers(Do(s, a), mk, hk) || MarkedOrGone(s, hk)
  {
    if a.SaveMachine? {
      SaveKeepsReference(s, mk, hk);
    } else if a.CreateMachine? || a.EditMachine? || a.DeleteMachine? {
      UserKeepsReference(s, a, mk, hk);
    } else if a.Load? || a.Decide? || a.LookUpAvailable? || a.LinkHost? || a.MarkHost? || a.Crash? {
      WorkerTouchesNoMachine(s, a);
    } else {
      HostStepTouchesNoMachine(s, a);
    }
  }

  /** From the state in which a machine refers to a host on, in every later state it still does, or that host is marked
      for reset or gone. In particular a machine that left the store has released its host. */
  lemma {:induction false} HostsAreReleased(states: seq<State>, actions: seq<Action>, i: nat, j: nat, mk: Key, hk: Key)
    requires Run(states, actions) && i <= j < |states| && Refers(states[i], mk, hk)
    ensures Refers(states[j], mk, hk) || MarkedOrGone(states[j], hk)
    decreases j
  {
    if i == j {
    } else {
      HostsAreReleased(states, actions, i, j - 1, mk, hk);
      RunStepAdvances(states, actions, j - 1);
      if MarkedOrGone(states[j - 1], hk) {
        MarkStands(states[j - 1], states[j], hk);
      } else {
        RunKeepsInv(states, actions, j - 1);
        RunKeepsRelease(states, actions, j - 1);
        RunStep(states, actions, j - 1);
        StepKeepsReference(states[j - 1], actions[j - 1], mk, hk);
      }
    }
  }
}
