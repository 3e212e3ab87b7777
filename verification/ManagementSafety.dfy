/** The invariant of the management cluster and what follows from it in every run. */
module ManagementSafety {
  import opened Common
  import opened Objects
  import opened Patches
  import opened Store
  import opened ElementalApi
  import HostReconciler
  import opened MachineReconciler
  import opened AgentProtocol
  import opened Management

  // ---- The invariant, piece by piece ----

  const FLAGS: set<LabelKey> := {Installed, Bootstrapped, NeedsReset, Reset}

  /** A host carries either all traces of its link or none, and the link names its first owner. */
  ghost predicate LinkOk(owner: map<Key, Key>, hk: Key, h: Host) {
    if hk in owner then
      && owner[hk].ns == hk.ns
      && h.machineRef == Some(owner[hk])
      && Get(h.labels, ElementalMachineName) == Some(owner[hk].name)
      && MachineName in h.labels
      && h.bootstrapSecret.Some?
      && IsTrue(h.labels, Installed)
    else
      && h.machineRef.None?
      && ElementalMachineName !in h.labels
      && MachineName !in h.labels
      && h.bootstrapSecret.None?
  }

  /** The flags on a host are "true" if present, and were reported by its agent. */
  ghost predicate FlagsOk(log: seq<Event>, h: Host) {
    && (forall k :: k in FLAGS && k in h.labels ==> h.labels[k] == TRUE)
    && (Installed in h.labels ==> Sent(log, PatchInstalled))
    && (Bootstrapped in h.labels ==> Sent(log, PatchBootstrapped) && h.bootstrapSecret.Some?)
    && (Reset in h.labels ==> Sent(log, PatchReset))
  }

  ghost predicate FinalizersOk(finalized: set<Key>, hk: Key, h: Host) {
    && h.finalizers <= {FINALIZER}
    && !Finished(h.deleting, h.finalizers)
    && (hk in finalized <==> FINALIZER in h.finalizers)
  }

  ghost predicate HostOk(s: State, hk: Key, h: Host) {
    LinkOk(s.owner, hk, h) && FlagsOk(Log(s, hk), h) && FinalizersOk(s.finalized, hk, h)
  }

  ghost predicate HostsOk(s: State) {
    forall hk :: hk in s.hosts ==> HostOk(s, hk, s.hosts[hk])
  }

  /** A live host that is linked and not being reset. */
  ghost predicate Holds(s: State, hk: Key) {
    hk in s.hosts && hk in s.owner && NeedsReset !in s.hosts[hk].labels
  }

  /** Among the hosts linked to one machine at most one is not being reset. */
  ghost predicate NoDoubleAllocation(s: State) {
    forall a, b :: Holds(s, a) && Holds(s, b) && s.owner[a] == s.owner[b] ==> a == b
  }

  ghost predicate MachineOk(owner: map<Key, Key>, mk: Key, m: Machine) {
    && (m.hostRef.Some? ==>
          m.hostRef.value in owner && owner[m.hostRef.value] == mk && (FINALIZER in m.finalizers || m.deleting))
    && (m.providerID.Some? ==> m.hostRef.Some? && m.providerID.value == ProviderID(m.hostRef.value))
    && (m.ready ==> m.providerID.Some?)
  }

  ghost predicate MachinesOk(s: State) {
    forall mk :: mk in s.machines ==> MachineOk(s.owner, mk, s.machines[mk])
  }

  /** What a pending patch may do to its host, whenever it lands. */
  ghost predicate WriteOk(s: State, w: HostWrite) {
    var p := w.patch;
    && p.machineRef.Keep? && p.bootstrapSecret.Keep?
    && (forall k :: k in p.labels ==> p.labels[k].Some? && k != MachineName && k != ElementalMachineName)
    && (forall k :: k in FLAGS && k in p.labels ==> p.labels[k].value == TRUE)
    && (Installed in p.labels ==> Sent(Log(s, w.hk), PatchInstalled))
    && (Bootstrapped in p.labels ==> Sent(Log(s, w.hk), PatchBootstrapped)
                                     && (w.hk in s.hosts ==> s.hosts[w.hk].bootstrapSecret.Some?))
    && (Reset in p.labels ==> Sent(Log(s, w.hk), PatchReset))
    && w.hk in s.used
    && (p.finalizers.Put? ==>
          || p.finalizers.value == {FINALIZER}
          || (p.finalizers.value == {}
              && (w.hk in s.hosts ==> s.hosts[w.hk].deleting && Reset in s.hosts[w.hk].labels)))
  }

  ghost predicate WritesOk(s: State) {
    forall w :: w in s.writes ==> WriteOk(s, w)
  }

  ghost predicate NamesOk(s: State) {
    && (forall hk :: hk in s.used <==> hk in s.hosts || hk in s.gone)
    && (forall hk :: hk in s.gone ==> hk !in s.hosts)
    && (forall hk :: hk in s.owner ==> hk in s.used && s.owner[hk].ns == hk.ns)
    && (forall hk :: hk in s.finalized ==> hk in s.used)
  }

  /** A host that ever carried the finalizer was reset before it went. */
  ghost predicate GoneOk(s: State) {
    forall hk :: hk in s.gone && hk in s.finalized ==> IsTrue(s.gone[hk].labels, Reset) && Sent(Log(s, hk), PatchReset)
  }

  ghost predicate LogsOk(s: State) {
    forall hk :: hk in s.logs ==>
      && LogOk(s.logs[hk])
      && (Happened(s.logs[hk], Op.DeleteHost) ==> hk in s.used && (hk in s.hosts ==> s.hosts[hk].deleting))
  }

  /** The stored machine still is what the reconcile read, up to what only users change. */
  ghost predicate Tracks(s: State, mk: Key, read: Machine) {
    mk in s.machines ==>
      var m := s.machines[mk];
      && m.hostRef == read.hostRef && m.providerID == read.providerID && m.ready == read.ready
      && (FINALIZER in read.finalizers ==> FINALIZER in m.finalizers)
      && (read.deleting && FINALIZER in read.finalizers ==> m.deleting)
  }

  /** A machine that is going away without this controller's finalizer is left alone. */
  ghost predicate Leaving(m: Machine) {
    m.deleting && FINALIZER !in m.finalizers
  }

  ghost predicate ReadOk(s: State, mk: Key, read: Machine) {
    && MachineOk(s.owner, mk, read)
    && (Leaving(read) || Tracks(s, mk, read))
    && (FINALIZER in read.finalizers ==> mk in s.machines)
  }

  /** The edited copy before an association: it has no host. */
  ghost predicate MidOk(read: Machine, mid: Machine) {
    && !read.deleting && !mid.deleting && mid.hostRef.None? && mid.providerID.None? && !mid.ready
    && mid.finalizers == read.finalizers + {FINALIZER}
  }

  ghost predicate NoneLinked(s: State, mk: Key) {
    forall hk :: Holds(s, hk) ==> s.owner[hk] != mk
  }

  /** How a host may have changed since it was read, while nobody links it. */
  ghost predicate Evolved(a: Host, b: Host) {
    && a.labels.Keys <= b.labels.Keys
    && (forall k :: k in FLAGS && IsTrue(a.labels, k) ==> IsTrue(b.labels, k))
    && Get(a.labels, ElementalMachineName) == Get(b.labels, ElementalMachineName)
    && Get(a.labels, MachineName) == Get(b.labels, MachineName)
    && a.machineRef == b.machineRef && a.bootstrapSecret == b.bootstrapSecret
    && (a.deleting ==> b.deleting)
  }

  ghost predicate LinkingOk(s: State, mk: Key, hk: Key, hostRead: Host) {
    && hk in s.used && hk.ns == mk.ns
    && (hk in s.hosts ==> Evolved(hostRead, s.hosts[hk]))
    && IsTrue(hostRead.labels, Installed)
    && (if hk in s.owner then s.owner[hk] == mk
        else
          && NoneLinked(s, mk) && hostRead.machineRef.None? && hostRead.bootstrapSecret.None?
          && ElementalMachineName !in hostRead.labels && MachineName !in hostRead.labels)
    && (hk in s.owner ==> hostRead.machineRef == Some(mk) && Get(hostRead.labels, ElementalMachineName) == Some(mk.name)
                          && hostRead.bootstrapSecret.Some? && MachineName in hostRead.labels)
  }

  ghost predicate SameCore(a: Machine, b: Machine) {
    a.finalizers == b.finalizers && a.hostRef == b.hostRef && a.providerID == b.providerID && a.ready == b.ready
  }

  /** An edited copy that may be saved over the machine it was read from. */
  ghost predicate SavableOk(owner: map<Key, Key>, mk: Key, read: Machine, after: Machine) {
    || SameCore(read, after)
    || (&& !Leaving(read) && MachineOk(owner, mk, after) && after.deleting == read.deleting
        && (FINALIZER in read.finalizers || FINALIZER in after.finalizers)
        && (FINALIZER !in after.finalizers ==> read.deleting))
  }

  ghost predicate WorkerOk(s: State) {
    match s.worker
    case Idle => true
    case Loaded(mk, read) => ReadOk(s, mk, read)
    case Searching(mk, read, mid, owner) =>
      ReadOk(s, mk, read) && MidOk(read, mid) && NoneLinked(s, mk) && owner.dataSecretName.Some?
    case Linking(mk, read, mid, owner, hk, hostRead) =>
      ReadOk(s, mk, read) && MidOk(read, mid) && LinkingOk(s, mk, hk, hostRead) && owner.dataSecretName.Some?
    case Marking(mk, read, hk, hostRead) =>
      ReadOk(s, mk, read) && read.deleting && FINALIZER in read.finalizers
    case Saving(mk, read, after) =>
      ReadOk(s, mk, read)
      && SavableOk(s.owner, mk, read, after)
  }

  ghost predicate Inv(s: State) {
    HostsOk(s) && NoDoubleAllocation(s) && MachinesOk(s) && WritesOk(s) && NamesOk(s) && GoneOk(s) && LogsOk(s)
      && WorkerOk(s)
  }

  // ---- Host changes keep the invariant ----

  ghost predicate Grown(a: Host, b: Host) {
    && a.labels.Keys <= b.labels.Keys
    && (forall k :: k in FLAGS && IsTrue(a.labels, k) ==> IsTrue(b.labels, k))
    && (a.machineRef.Some? ==> b.machineRef == a.machineRef)
    && (a.bootstrapSecret.Some? ==> b.bootstrapSecret.Some?)
    && (a.deleting ==> b.deleting)
  }

  /** The finalizer stays, or the host goes: then it was reset. */
  ghost predicate FinalizerStep(a: Host, b: Host) {
    && b.finalizers <= {FINALIZER}
    && (FINALIZER in a.finalizers && FINALIZER !in b.finalizers ==> b.deleting && IsTrue(b.labels, Reset))
    && (b.deleting && !a.deleting ==> a.finalizers == b.finalizers)
  }

  lemma ReplaceKeepsHosts(s: State, hk: Key, h: Host)
    requires HostsOk(s) && hk in s.hosts
    requires LinkOk(s.owner, hk, h) && FlagsOk(Log(s, hk), h) && FinalizerStep(s.hosts[hk], h)
    requires s.hosts[hk].deleting ==> h.deleting
    ensures HostsOk(ReplaceHost(s, hk, h))
  {
    var s' := ReplaceHost(s, hk, h);
    forall k | k in s'.hosts ensures HostOk(s', k, s'.hosts[k]) {
      assert HostOk(s, k, s.hosts[k]);
      if k == hk {
        assert HostOk(s, hk, s.hosts[hk]);
        assert h.finalizers == {} || h.finalizers == {FINALIZER};
      }
    }
  }

  lemma ReplaceKeepsHistory(s: State, hk: Key, h: Host)
    requires HostsOk(s) && NamesOk(s) && GoneOk(s) && hk in s.hosts
    requires FlagsOk(Log(s, hk), h) && FinalizerStep(s.hosts[hk], h)
    ensures NamesOk(ReplaceHost(s, hk, h)) && GoneOk(ReplaceHost(s, hk, h))
  {
    var s' := ReplaceHost(s, hk, h);
    assert HostOk(s, hk, s.hosts[hk]);
    forall k | k in s'.gone && k in s'.finalized
      ensures IsTrue(s'.gone[k].labels, Reset) && Sent(Log(s', k), PatchReset) {
      assert Log(s', k) == Log(s, k);
      if k == hk && Finished(h.deleting, h.finalizers) {
        assert FINALIZER !in h.finalizers;
      }
    }
  }

  lemma ReplaceKeepsHolders(s: State, hk: Key, h: Host)
    requires NoDoubleAllocation(s) && hk in s.hosts && s.hosts[hk].labels.Keys <= h.labels.Keys
    ensures NoDoubleAllocation(ReplaceHost(s, hk, h))
  {
    var s' := ReplaceHost(s, hk, h);
    forall a | Holds(s', a) ensures Holds(s, a) {
      assert a == hk ==> NeedsReset !in h.labels;
    }
  }

  lemma ReplaceKeepsWrites(s: State, hk: Key, h: Host)
    requires WritesOk(s) && LogsOk(s) && hk in s.hosts && Grown(s.hosts[hk], h)
    requires forall k :: k in FLAGS && k in s.hosts[hk].labels ==> k in h.labels
    ensures var s' := ReplaceHost(s, hk, h);
            WritesOk(s') && LogsOk(s')
  {
    var s' := ReplaceHost(s, hk, h);
    forall w | w in s'.writes ensures WriteOk(s', w) {
      assert WriteOk(s, w) && Log(s', w.hk) == Log(s, w.hk);
    }
  }

  lemma ReplaceKeepsWorker(s: State, hk: Key, h: Host)
    requires WorkerOk(s) && hk in s.hosts && Evolved(s.hosts[hk], h)
    ensures WorkerOk(ReplaceHost(s, hk, h))
  {
    var s' := ReplaceHost(s, hk, h);
    forall a | Holds(s', a) ensures Holds(s, a) {
    }
  }

  /** A change by anyone who does not link the host. */
  lemma ReplaceKeepsInv(s: State, hk: Key, h: Host)
    requires Inv(s) && hk in s.hosts
    requires Evolved(s.hosts[hk], h) && FlagsOk(Log(s, hk), h) && FinalizerStep(s.hosts[hk], h)
    ensures Inv(ReplaceHost(s, hk, h))
  {
    assert HostOk(s, hk, s.hosts[hk]);
    ReplaceKeepsHosts(s, hk, h);
    ReplaceKeepsHistory(s, hk, h);
    ReplaceKeepsHolders(s, hk, h);
    ReplaceKeepsWrites(s, hk, h);
    ReplaceKeepsWorker(s, hk, h);
  }

  // ---- Patches on their way ----

  lemma MergedLabel(current: Labels, diff: map<LabelKey, Option<string>>, k: LabelKey)
    ensures Get(MergeMap(current, diff), k) == if k in diff then diff[k] else Get(current, k)
  {
  }

  lemma LandedHost(s: State, w: HostWrite)
    requires Inv(s) && w in s.writes && w.hk in s.hosts
    ensures var b := MergeHost(s.hosts[w.hk], w.patch);
            Evolved(s.hosts[w.hk], b) && FlagsOk(Log(s, w.hk), b) && FinalizerStep(s.hosts[w.hk], b)
  {
    var a := s.hosts[w.hk];
    var b := MergeHost(a, w.patch);
    assert WriteOk(s, w) && HostOk(s, w.hk, a);
    forall k: LabelKey ensures Get(b.labels, k) == if k in w.patch.labels then w.patch.labels[k] else Get(a.labels, k) {
      MergedLabel(a.labels, w.patch.labels, k);
    }
    forall k | k in a.labels ensures k in b.labels {
      assert Get(b.labels, k).Some?;
    }
    forall k | k in FLAGS && k in b.labels ensures b.labels[k] == TRUE {
      assert Get(b.labels, k) == Some(b.labels[k]);
    }
    forall k | k in FLAGS && k in b.labels ensures k in a.labels || k in w.patch.labels {
      assert Get(b.labels, k).Some?;
    }
  }

  lemma LandKeepsInv(s: State, w: HostWrite)
    requires Inv(s) && w in s.writes && w.hk in s.hosts
    ensures Inv(ReplaceHost(s, w.hk, MergeHost(s.hosts[w.hk], w.patch)))
  {
    LandedHost(s, w);
    ReplaceKeepsInv(s, w.hk, MergeHost(s.hosts[w.hk], w.patch));
  }

  lemma QueueKeepsInv(s: State, w: HostWrite)
    requires Inv(s) && WriteOk(s, w)
    ensures Inv(s.(writes := s.writes + {w}))
  {
    var s' := s.(writes := s.writes + {w});
    OnlyWritesDiffer(s, s');
    forall v | v in s'.writes ensures WriteOk(s, v) {
    }
    forall v | v in s'.writes ensures WriteOk(s', v) {
      assert WriteOk(s, v) && Log(s', v.hk) == Log(s, v.hk);
    }
  }

  lemma OnlyWritesDiffer(s: State, s': State)
    requires Inv(s) && s' == s.(writes := s'.writes)
    ensures HostsOk(s') && NoDoubleAllocation(s') && MachinesOk(s') && NamesOk(s') && GoneOk(s') && LogsOk(s')
            && WorkerOk(s')
  {
    forall hk | hk in s'.hosts ensures HostOk(s', hk, s'.hosts[hk]) {
      assert HostOk(s, hk, s.hosts[hk]);
    }
    forall a ensures Holds(s', a) <==> Holds(s, a) {
    }
  }

  lemma OnlyAnswersDiffer(s: State, s': State)
    requires Inv(s) && s' == s.(answers := s'.answers)
    ensures Inv(s')
  {
    forall hk | hk in s'.hosts ensures HostOk(s', hk, s'.hosts[hk]) {
      assert HostOk(s, hk, s.hosts[hk]);
    }
    forall a ensures Holds(s', a) <==> Holds(s, a) {
    }
    forall w | w in s'.writes ensures WriteOk(s', w) {
      assert WriteOk(s, w) && Log(s', w.hk) == Log(s, w.hk);
    }
  }

  lemma DiffLabel(before: Labels, after: Labels, k: LabelKey)
    ensures k in DiffMap(before, after) <==> Get(before, k) != Get(after, k)
    ensures k in DiffMap(before, after) ==> DiffMap(before, after)[k] == Get(after, k)
  {
    if Get(before, k) != Get(after, k) {
      assert k in before.Keys + after.Keys;
    }
  }

  /** The labels that an agent's request writes. */
  lemma RequestedLabels(labels: Labels, p: HostPatchRequest)
    requires p.labels.Keys !! RESERVED
    ensures var d := DiffMap(labels, AppliedLabels(labels, p));
            && (forall k :: k in d ==> d[k].Some? && k != MachineName && k != ElementalMachineName && k != NeedsReset)
            && (Installed in d ==> p.installed.Some? && d[Installed] == Some(TRUE))
            && (Bootstrapped in d ==> p.bootstrapped.Some? && d[Bootstrapped] == Some(TRUE))
            && (Reset in d ==> p.reset.Some? && d[Reset] == Some(TRUE))
  {
    var after := AppliedLabels(labels, p);
    forall k | k in DiffMap(labels, after)
      ensures Written(p, k).Some? && DiffMap(labels, after)[k] == Written(p, k)
      ensures k in RESERVED ==> k !in p.labels
    {
      DiffLabel(labels, after, k);
      AppliedLabel(labels, p, k);
    }
  }

  lemma PatchRequestIsSafe(s: State, hk: Key, p: HostPatchRequest)
    requires hk in s.hosts && hk in s.used && FromAgent(Log(s, hk), p) && Admissible(s.hosts[hk], p)
    ensures WriteOk(s, HostWrite(hk, DiffHost(s.hosts[hk], Applied(s.hosts[hk], p))))
  {
    var h := s.hosts[hk];
    RequestedLabels(h.labels, p);
    LabelWriteIsSafe(s, hk, h, Applied(h, p));
  }

  lemma LabelWriteIsSafe(s: State, hk: Key, before: Host, after: Host)
    requires hk in s.used
    requires after.machineRef == before.machineRef && after.bootstrapSecret == before.bootstrapSecret
    requires after.finalizers == before.finalizers
    requires var d := DiffMap(before.labels, after.labels);
             && (forall k :: k in d ==> d[k].Some? && k != MachineName && k != ElementalMachineName && k != NeedsReset)
             && (Installed in d ==> d[Installed] == Some(TRUE) && Sent(Log(s, hk), PatchInstalled))
             && (Bootstrapped in d ==> d[Bootstrapped] == Some(TRUE) && Sent(Log(s, hk), PatchBootstrapped)
                                       && (hk in s.hosts ==> s.hosts[hk].bootstrapSecret.Some?))
             && (Reset in d ==> d[Reset] == Some(TRUE) && Sent(Log(s, hk), PatchReset))
    ensures WriteOk(s, HostWrite(hk, DiffHost(before, after)))
  {
    var patch := DiffHost(before, after);
    forall k | k in FLAGS && k in patch.labels ensures patch.labels[k].value == TRUE {
    }
  }

  lemma HostReconcileShape(h: Host, machine: Lookup<OsVersion>)
    ensures var after := HostReconciler.Reconciled(h, machine);
            && after.machineRef == h.machineRef && after.bootstrapSecret == h.bootstrapSecret
            && (after.labels == h.labels || after.labels == h.labels[NeedsReset := TRUE])
            && (after.finalizers == h.finalizers + {FINALIZER} || after.finalizers == h.finalizers
                || (after.finalizers == h.finalizers - {FINALIZER} && h.deleting && IsTrue(h.labels, Reset)))
  {
  }

  lemma HostReconcileIsSafe(s: State, hk: Key, machine: Lookup<OsVersion>)
    requires hk in s.hosts && hk in s.used && s.hosts[hk].finalizers <= {FINALIZER}
    ensures WriteOk(s, HostWrite(hk, DiffHost(s.hosts[hk], HostReconciler.Reconciled(s.hosts[hk], machine))))
  {
    var h := s.hosts[hk];
    HostReconcileShape(h, machine);
    var after := HostReconciler.Reconciled(h, machine);
    OnlyNeedsResetDiffers(h.labels, after.labels);
    assert h.finalizers == {} || h.finalizers == {FINALIZER};
    assert after.finalizers == {} || after.finalizers == {FINALIZER};
  }

  lemma OnlyNeedsResetDiffers(before: Labels, after: Labels)
    requires after == before || after == before[NeedsReset := TRUE]
    ensures var d := DiffMap(before, after);
            forall k :: k in d ==> k == NeedsReset && d[k] == Some(TRUE)
  {
    forall k | k in DiffMap(before, after) ensures k == NeedsReset && DiffMap(before, after)[k] == Some(TRUE) {
      DiffLabel(before, after, k);
    }
  }

  // ---- Direct changes of hosts ----

  lemma DeleteHostKeepsInv(s: State, hk: Key)
    requires Inv(s) && hk in s.hosts
    ensures Inv(ReplaceHost(s, hk, s.hosts[hk].(deleting := true)))
  {
    assert HostOk(s, hk, s.hosts[hk]);
    ReplaceKeepsInv(s, hk, s.hosts[hk].(deleting := true));
  }

  lemma RequestUpdateKeepsInv(s: State, hk: Key)
    requires Inv(s) && hk in s.hosts
    ensures Inv(ReplaceHost(s, hk, s.hosts[hk].(labels := s.hosts[hk].labels[InPlaceUpdate := PENDING])))
  {
    assert HostOk(s, hk, s.hosts[hk]);
    ReplaceKeepsInv(s, hk, s.hosts[hk].(labels := s.hosts[hk].labels[InPlaceUpdate := PENDING]));
  }

  lemma CreateHostKeepsInv(s: State, hk: Key, labels: Labels, annotations: map<string, string>)
    requires Inv(s) && Enabled(s, Action.CreateHost(hk, labels, annotations))
    ensures Inv(Do(s, Action.CreateHost(hk, labels, annotations)))
  {
    var s' := Do(s, Action.CreateHost(hk, labels, annotations));
    forall k | k in s'.hosts ensures HostOk(s', k, s'.hosts[k]) {
      if k != hk {
        assert HostOk(s, k, s.hosts[k]) && Log(s', k) == Log(s, k);
      } else {
        assert hk !in s.owner && hk !in s.finalized;
      }
    }
    forall a | Holds(s', a) ensures Holds(s, a) {
    }
    CreateHostKeepsRest(s, hk, labels, annotations);
  }

  lemma CreateHostKeepsRest(s: State, hk: Key, labels: Labels, annotations: map<string, string>)
    requires Inv(s) && Enabled(s, Action.CreateHost(hk, labels, annotations))
    ensures var s' := Do(s, Action.CreateHost(hk, labels, annotations));
            WritesOk(s') && WorkerOk(s')
  {
    var s' := Do(s, Action.CreateHost(hk, labels, annotations));
    forall w | w in s'.writes ensures WriteOk(s', w) {
      assert WriteOk(s, w) && Log(s', w.hk) == Log(s, w.hk) && w.hk != hk;
    }
    forall a | Holds(s', a) ensures Holds(s, a) {
    }
  }

  lemma SentGrows(log: seq<Event>, e: Event, op: Op)
    requires Sent(log, op)
    ensures Sent(log + [e], op)
  {
    var p :| 0 <= p < |log| && log[p].op == op;
    assert (log + [e])[p].op == op;
  }

  lemma AgentCallKeepsInv(s: State, hk: Key, e: Event)
    requires Inv(s) && Enabled(s, AgentCalls(hk, e))
    ensures Inv(Do(s, AgentCalls(hk, e)))
  {
    var s' := Do(s, AgentCalls(hk, e));
    var log := Log(s, hk);
    LogGrows(log, e);
    forall op | Sent(log, op) ensures Sent(log + [e], op) {
      SentGrows(log, e, op);
    }
    assert Happened(log + [e], Op.DeleteHost) ==> Happened(log, Op.DeleteHost) || e == Event(Op.DeleteHost, true);
    forall k, op | Sent(Log(s, k), op) ensures Sent(Log(s', k), op) {
    }
    forall k | k in s'.hosts ensures HostOk(s', k, s'.hosts[k]) {
      assert HostOk(s, k, s.hosts[k]);
    }
    forall w | w in s'.writes ensures WriteOk(s', w) {
      assert WriteOk(s, w);
    }
    assert NoDoubleAllocation(s') by {
      forall a | Holds(s', a) ensures Holds(s, a) {
      }
    }
    AgentCallKeepsWorker(s, hk, e);
  }

  lemma AgentCallKeepsWorker(s: State, hk: Key, e: Event)
    requires WorkerOk(s) && Enabled(s, AgentCalls(hk, e))
    ensures WorkerOk(Do(s, AgentCalls(hk, e)))
  {
    var s' := Do(s, AgentCalls(hk, e));
    forall a | Holds(s', a) ensures Holds(s, a) {
    }
  }

  // ---- Machines and the worker ----

  /** Steps that leave hosts, history and pending patches alone. */
  lemma OnlyMachinesDiffer(s: State, s': State)
    requires Inv(s) && s' == s.(machines := s'.machines, worker := s'.worker)
    ensures HostsOk(s') && NoDoubleAllocation(s') && WritesOk(s') && NamesOk(s') && GoneOk(s') && LogsOk(s')
  {
    forall hk | hk in s'.hosts ensures HostOk(s', hk, s'.hosts[hk]) {
      assert HostOk(s, hk, s.hosts[hk]);
    }
    forall a ensures Holds(s', a) <==> Holds(s, a) {
    }
    forall w | w in s'.writes ensures WriteOk(s', w) {
      assert WriteOk(s, w) && Log(s', w.hk) == Log(s, w.hk);
    }
  }

  /** Another value for one machine, which the worker may have read before. */
  lemma MachineChangeKeepsWorker(s: State, s': State)
    requires WorkerOk(s) && s' == s.(machines := s'.machines)
    requires !s.worker.Idle? ==> ReadOk(s', s.worker.mk, s.worker.read)
    ensures WorkerOk(s')
  {
    forall a ensures Holds(s', a) <==> Holds(s, a) {
    }
  }

  ghost predicate UserChange(s: State, mk: Key, m: Machine) {
    && MachineOk(s.owner, mk, m)
    && (mk in s.machines ==> SameCore(s.machines[mk], m) && (s.machines[mk].deleting ==> m.deleting))
    && (mk !in s.machines ==> m.hostRef.None? && m.providerID.None? && !m.ready)
  }

  lemma ReadStaysOk(s: State, mk: Key, m: Machine, wk: Key, read: Machine)
    requires UserChange(s, mk, m) && ReadOk(s, wk, read)
    ensures ReadOk(s.(machines := PutMachine(s.machines, mk, m)), wk, read)
  {
  }

  lemma PutMachineKeepsInv(s: State, mk: Key, m: Machine)
    requires Inv(s) && UserChange(s, mk, m)
    ensures Inv(s.(machines := PutMachine(s.machines, mk, m)))
  {
    var s' := s.(machines := PutMachine(s.machines, mk, m));
    OnlyMachinesDiffer(s, s');
    assert MachinesOk(s') by {
      forall k | k in s'.machines ensures MachineOk(s'.owner, k, s'.machines[k]) {
        assert k != mk ==> MachineOk(s.owner, k, s.machines[k]);
      }
    }
    assert WorkerOk(s') by {
      if !s.worker.Idle? {
        assert ReadOk(s, s.worker.mk, s.worker.read);
        ReadStaysOk(s, mk, m, s.worker.mk, s.worker.read);
      }
      MachineChangeKeepsWorker(s, s');
    }
  }

  lemma UserMachineKeepsInv(s: State, a: Action)
    requires Inv(s) && Enabled(s, a) && (a.CreateMachine? || a.EditMachine? || a.DeleteMachine?)
    ensures Inv(Do(s, a))
  {
    match a {
      case CreateMachine(mk, clusterName, selector, osVersion) =>
        PutMachineKeepsInv(s, mk, NewMachine(clusterName, selector, osVersion));
      case EditMachine(mk, clusterName, selector, osVersion) =>
        assert MachineOk(s.owner, mk, s.machines[mk]);
        PutMachineKeepsInv(s, mk, s.machines[mk].(clusterName := clusterName, selector := selector,
                                                  osVersion := osVersion));
      case DeleteMachine(mk) =>
        assert MachineOk(s.owner, mk, s.machines[mk]);
        PutMachineKeepsInv(s, mk, s.machines[mk].(deleting := true));
    }
  }

  lemma GateShape(m: Machine, capi: Capi)
    ensures var g := Gate(m, capi);
            && (g.Stop? ==> g.after.machine.deleting == m.deleting && g.after.machine.hostRef == m.hostRef
                            && g.after.machine.providerID == m.providerID && g.after.machine.ready == m.ready
                            && (g.after.machine.finalizers == m.finalizers
                                || (!m.deleting && g.after.machine.finalizers == m.finalizers + {FINALIZER})))
            && (g.Normal? ==> !m.deleting && g.machine == m.(finalizers := m.finalizers + {FINALIZER}, ready := false))
            && (g.Delete? ==> g.machine == m && m.deleting && FINALIZER in m.finalizers)
  {
  }

  lemma EvaluatedIsOk(owner: map<Key, Key>, mk: Key, m: Machine, host: Lookup<Host>, cluster: Cluster,
                      answer: TrackerAnswer)
    requires m.hostRef.Some? && MachineOk(owner, mk, m) && !m.ready
    ensures var after := Evaluated(m, host, cluster, answer).machine;
            MachineOk(owner, mk, after) && after.deleting == m.deleting && after.finalizers == m.finalizers
  {
  }

  lemma DecideKeepsWorker(s: State, capi: Capi, tracker: TrackerAnswer, getFails: bool, listed: Lookup<Key>)
    requires Inv(s) && s.worker.Loaded? && ListingAnswers(s.hosts, AlreadyLinked(s.worker.mk), listed)
    ensures WorkerOk(s.(worker := Decided(s, capi, tracker, getFails, listed)))
  {
    var s' := s.(worker := Decided(s, capi, tracker, getFails, listed));
    var mk, read := s.worker.mk, s.worker.read;
    GateShape(read, capi);
    assert ReadOk(s', mk, read);
    match Gate(read, capi) {
      case Stop(after) =>
        assert SavableOk(s'.owner, mk, read, after.machine);
      case Delete(m) =>
      case Normal(m, owner, cluster) =>
        if m.hostRef.Some? {
          EvaluatedIsOk(s.owner, mk, m, Find(s.hosts, m.hostRef.value, getFails), cluster, tracker);
        } else if listed.Failed? {
          assert MachineOk(s'.owner, mk, m);
        } else if listed.Missing? {
          NothingListedMeansNoneLinked(s, mk);
          assert NoneLinked(s', mk) by {
            forall a ensures Holds(s', a) <==> Holds(s, a) {
            }
          }
        } else {
          ListedHostIsLinkable(s, mk, listed.value);
          assert LinkingOk(s', mk, listed.value, s.hosts[listed.value]);
        }
    }
  }

  lemma NothingListedMeansNoneLinked(s: State, mk: Key)
    requires HostsOk(s) && ListingAnswers(s.hosts, AlreadyLinked(mk), Lookup.Missing)
    ensures NoneLinked(s, mk)
  {
    forall hk | Holds(s, hk) ensures s.owner[hk] != mk {
      assert HostOk(s, hk, s.hosts[hk]);
      SelectsLinked(mk, hk, s.hosts[hk]);
      assert !Selects(AlreadyLinked(mk), hk, s.hosts[hk]);
    }
  }

  lemma ListedHostIsLinkable(s: State, mk: Key, hk: Key)
    requires HostsOk(s) && NamesOk(s) && hk in s.hosts && Selects(AlreadyLinked(mk), hk, s.hosts[hk])
    ensures LinkingOk(s, mk, hk, s.hosts[hk]) && Holds(s, hk) && s.owner[hk] == mk
  {
    assert HostOk(s, hk, s.hosts[hk]);
    SelectsLinked(mk, hk, s.hosts[hk]);
    assert s.owner[hk] == Key(s.owner[hk].ns, s.owner[hk].name);
  }

  lemma SearchKeepsWorker(s: State, listed: Lookup<Key>)
    requires Inv(s) && Enabled(s, LookUpAvailable(listed))
    ensures WorkerOk(Do(s, LookUpAvailable(listed)))
  {
    var s' := Do(s, LookUpAvailable(listed));
    var Searching(mk, read, mid, owner) := s.worker;
    assert ReadOk(s', mk, read) && MachineOk(s'.owner, mk, mid) && MachineOk(s'.owner, mk, NoHostAvailable(mid));
    if s'.worker.Linking? {
      var hk := listed.value;
      assert HostOk(s, hk, s.hosts[hk]);
      SelectsAvailable(mk, SelectorOf(mid), hk, s.hosts[hk]);
      assert NoneLinked(s', mk) by {
        forall a ensures Holds(s', a) <==> Holds(s, a) {
        }
      }
      assert LinkingOk(s', mk, hk, s.hosts[hk]);
    }
  }

  lemma MergedMachineIsOk(owner: map<Key, Key>, mk: Key, current: Machine, read: Machine, after: Machine)
    requires MachineOk(owner, mk, current) && SavableOk(owner, mk, read, after)
    requires SameCore(read, after) ||
             (&& current.hostRef == read.hostRef && current.providerID == read.providerID && current.ready == read.ready
              && (FINALIZER in read.finalizers ==> FINALIZER in current.finalizers)
              && (read.deleting && FINALIZER in read.finalizers ==> current.deleting))
    ensures MachineOk(owner, mk, MergeMachine(current, DiffMachine(read, after)))
  {
  }

  lemma SaveKeepsInv(s: State)
    requires Inv(s) && s.worker.Saving?
    ensures Inv(AfterSave(s))
  {
    var s' := AfterSave(s);
    var Saving(mk, read, after) := s.worker;
    OnlyMachinesDiffer(s, s');
    if mk in s.machines {
      MergedMachineIsOk(s.owner, mk, s.machines[mk], read, after);
    }
    forall k | k in s'.machines ensures MachineOk(s'.owner, k, s'.machines[k]) {
      assert MachineOk(s.owner, k, s.machines[k]);
    }
  }

  // ---- The link ----

  /** The labels of a host whose link was computed on an older copy. */
  lemma MergedLinkLabels(current: Labels, hostRead: Host, mk: Key, m: Machine, owner: OwnerMachine)
    requires owner.dataSecretName.Some?
    requires Get(hostRead.labels, ElementalMachineName) == Get(current, ElementalMachineName)
    requires Get(hostRead.labels, MachineName) == Get(current, MachineName)
    ensures var labels := MergeMap(current, DiffMap(hostRead.labels, Linked(hostRead, mk, m, owner).labels));
            && Get(labels, ElementalMachineName) == Some(mk.name) && Get(labels, MachineName) == Some(owner.key.name)
            && (forall k :: k in FLAGS ==> Get(labels, k) == Get(current, k))
            && current.Keys <= labels.Keys
  {
    var linked := Linked(hostRead, mk, m, owner).labels;
    var labels := MergeMap(current, DiffMap(hostRead.labels, linked));
    LinkedLabels(hostRead, mk, m, owner);
    forall k: LabelKey ensures Get(labels, k) == if Get(hostRead.labels, k) == Get(linked, k) then Get(current, k)
      else Get(linked, k) {
      MergedEntry(current, hostRead.labels, linked, k);
    }
    forall k | k in current ensures k in labels {
      assert Get(labels, k).Some?;
    }
  }

  function MergedLink(cur: Host, hostRead: Host, mk: Key, mid: Machine, owner: OwnerMachine): Host
    requires owner.dataSecretName.Some?
  {
    MergeHost(cur, DiffHost(hostRead, Linked(hostRead, mk, mid, owner)))
  }

  lemma MergedLinkIsOk(s: State, mk: Key, hk: Key, hostRead: Host, mid: Machine, owner: OwnerMachine)
    requires HostsOk(s) && LinkingOk(s, mk, hk, hostRead) && hk in s.hosts && owner.dataSecretName.Some?
    ensures var h := MergedLink(s.hosts[hk], hostRead, mk, mid, owner);
            && LinkOk(s.owner[hk := mk], hk, h) && FlagsOk(Log(s, hk), h) && Grown(s.hosts[hk], h)
            && h.finalizers == s.hosts[hk].finalizers && h.deleting == s.hosts[hk].deleting
            && (forall k :: k in FLAGS && k in s.hosts[hk].labels ==> k in h.labels)
  {
    var cur := s.hosts[hk];
    assert HostOk(s, hk, cur) && Evolved(hostRead, cur);
    MergedLinkLabels(cur.labels, hostRead, mk, mid, owner);
    var h := MergedLink(cur, hostRead, mk, mid, owner);
    assert forall k :: k in FLAGS ==> Get(h.labels, k) == Get(cur.labels, k);
    assert h.machineRef == Some(mk) && h.bootstrapSecret.Some?;
    assert Get(cur.labels, Installed) == Some(TRUE);
    forall k | k in FLAGS ensures (k in h.labels <==> k in cur.labels)
      && (k in h.labels ==> h.labels[k] == cur.labels[k]) {
      assert Get(h.labels, k) == Get(cur.labels, k);
    }
  }

  lemma LinkedLabels(h: Host, mk: Key, m: Machine, owner: OwnerMachine)
    requires owner.dataSecretName.Some?
    ensures var labels := Linked(h, mk, m, owner).labels;
            && Get(labels, ElementalMachineName) == Some(mk.name) && Get(labels, MachineName) == Some(owner.key.name)
            && (forall k :: k in FLAGS ==> Get(labels, k) == Get(h.labels, k))
            && (forall k :: Get(labels, k).None? ==> Get(h.labels, k).None?)
  {
  }

  lemma LinkKeepsHosts(s: State, s': State, mk: Key, hk: Key, h: Host)
    requires HostsOk(s) && MachinesOk(s) && hk in s.hosts && LinkOk(s.owner[hk := mk], hk, h) && FlagsOk(Log(s, hk), h)
    requires h.finalizers == s.hosts[hk].finalizers && h.deleting == s.hosts[hk].deleting
    requires hk in s.owner ==> s.owner[hk] == mk
    requires s' == ReplaceHost(s, hk, h).(owner := s.owner[hk := mk], worker := s'.worker)
    ensures HostsOk(s') && MachinesOk(s')
  {
    assert HostOk(s, hk, s.hosts[hk]);
    forall k | k in s'.hosts ensures HostOk(s', k, s'.hosts[k]) {
      assert HostOk(s, k, s.hosts[k]) && Log(s', k) == Log(s, k);
    }
    forall k | k in s'.machines ensures MachineOk(s'.owner, k, s'.machines[k]) {
      assert MachineOk(s.owner, k, s.machines[k]);
    }
  }

  lemma LinkKeepsHolders(s: State, s': State, mk: Key, hk: Key, h: Host)
    requires NoDoubleAllocation(s) && hk in s.hosts && s.hosts[hk].labels.Keys <= h.labels.Keys
    requires if hk in s.owner then s.owner[hk] == mk else NoneLinked(s, mk)
    requires s' == ReplaceHost(s, hk, h).(owner := s.owner[hk := mk], worker := s'.worker)
    ensures NoDoubleAllocation(s')
  {
    forall a | Holds(s', a) && a != hk ensures Holds(s, a) && s'.owner[a] == s.owner[a] {
    }
    if hk in s.owner && Holds(s', hk) {
      assert Holds(s, hk);
    }
  }

  lemma LinkedKeepsInv(s: State, s': State, mk: Key, hk: Key, h: Host)
    requires Inv(s) && hk in s.hosts
    requires LinkOk(s.owner[hk := mk], hk, h) && FlagsOk(Log(s, hk), h) && Grown(s.hosts[hk], h)
    requires h.finalizers == s.hosts[hk].finalizers && h.deleting == s.hosts[hk].deleting
    requires forall k :: k in FLAGS && k in s.hosts[hk].labels ==> k in h.labels
    requires if hk in s.owner then s.owner[hk] == mk else NoneLinked(s, mk)
    requires s' == ReplaceHost(s, hk, h).(owner := s.owner[hk := mk], worker := s'.worker) && WorkerOk(s')
    ensures Inv(s')
  {
    assert HostOk(s, hk, s.hosts[hk]);
    LinkKeepsHosts(s, s', mk, hk, h);
    LinkKeepsHolders(s, s', mk, hk, h);
    ReplaceKeepsWrites(s, hk, h);
    ReplaceKeepsHistory(s, hk, h);
    OnlyOwnerDiffers(ReplaceHost(s, hk, h), s', mk, hk);
  }

  lemma OnlyOwnerDiffers(s: State, s': State, mk: Key, hk: Key)
    requires NamesOk(s) && GoneOk(s) && WritesOk(s) && LogsOk(s) && hk in s.used && hk.ns == mk.ns
    requires s' == s.(owner := s.owner[hk := mk], worker := s'.worker)
    ensures NamesOk(s') && GoneOk(s') && WritesOk(s') && LogsOk(s')
  {
    forall w | w in s'.writes ensures WriteOk(s', w) {
      assert WriteOk(s, w) && Log(s', w.hk) == Log(s, w.hk);
    }
    forall k | k in s'.gone && k in s'.finalized
      ensures IsTrue(s'.gone[k].labels, Reset) && Sent(Log(s', k), PatchReset) {
      assert Log(s', k) == Log(s, k);
    }
  }

  lemma AssociatedIsSavable(s: State, s': State, mk: Key, read: Machine, mid: Machine, hk: Key)
    requires ReadOk(s, mk, read) && MidOk(read, mid) && s'.machines == s.machines
    requires s'.owner == s.owner[hk := mk] && (hk in s.owner ==> s.owner[hk] == mk)
    requires s'.worker == Saving(mk, read, Associated(mid, hk))
    ensures WorkerOk(s')
  {
    assert MachineOk(s'.owner, mk, read);
    assert MachineOk(s'.owner, mk, Associated(mid, hk));
  }

  lemma LinkKeepsInv(s: State, fails: bool)
    requires Inv(s) && s.worker.Linking? && s.worker.owner.dataSecretName.Some?
    ensures Inv(AfterLink(s, fails))
  {
    var s' := AfterLink(s, fails);
    var Linking(mk, read, mid, owner, hk, hostRead) := s.worker;
    if fails || hk !in s.hosts {
      assert MachineOk(s'.owner, mk, mid);
      WorkerStepKeepsInv(s, s');
    } else {
      AssociatedIsSavable(s, s', mk, read, mid, hk);
      MergedLinkIsOk(s, mk, hk, hostRead, mid, owner);
      LinkedKeepsInv(s, s', mk, hk, MergedLink(s.hosts[hk], hostRead, mk, mid, owner));
    }
  }

  lemma MarkedHostKeepsInv(s: State, hk: Key, hostRead: Host)
    requires Inv(s) && hk in s.hosts
    ensures Inv(ReplaceHost(s, hk, MergeHost(s.hosts[hk], DiffHost(hostRead, MarkedForReset(hostRead)))))
  {
    var cur := s.hosts[hk];
    var h := MergeHost(cur, DiffHost(hostRead, MarkedForReset(hostRead)));
    assert HostOk(s, hk, cur);
    MergedMark(cur.labels, hostRead.labels);
    assert h.machineRef == cur.machineRef && h.bootstrapSecret == cur.bootstrapSecret && h.finalizers == cur.finalizers;
    MarkingIsSafe(s, hk, h);
  }

  lemma MarkingIsSafe(s: State, hk: Key, h: Host)
    requires Inv(s) && hk in s.hosts && Marked(s.hosts[hk], h)
    ensures Inv(ReplaceHost(s, hk, h))
  {
    assert HostOk(s, hk, s.hosts[hk]);
    MarkedEvolves(Log(s, hk), s.hosts[hk], h);
    ReplaceKeepsInv(s, hk, h);
  }

  ghost predicate Marked(a: Host, b: Host) {
    && b.machineRef == a.machineRef && b.bootstrapSecret == a.bootstrapSecret
    && b.finalizers == a.finalizers && b.deleting == a.deleting
    && (b.labels == a.labels || b.labels == a.labels[NeedsReset := TRUE])
  }

  lemma MarkedEvolves(log: seq<Event>, a: Host, b: Host)
    requires FlagsOk(log, a) && a.finalizers <= {FINALIZER} && Marked(a, b)
    ensures Evolved(a, b) && FlagsOk(log, b) && FinalizerStep(a, b)
  {
  }

  lemma MarkKeepsInv(s: State, fails: bool)
    requires Inv(s) && s.worker.Marking?
    ensures Inv(AfterMark(s, fails))
  {
    var s' := AfterMark(s, fails);
    var Marking(mk, read, hk, hostRead) := s.worker;
    if fails || hk !in s.hosts {
      WorkerStepKeepsInv(s, s');
    } else {
      MarkedHostKeepsInv(s, hk, hostRead);
      var s1 := ReplaceHost(s, hk, MergeHost(s.hosts[hk], DiffHost(hostRead, MarkedForReset(hostRead))));
      assert s1.worker == s.worker && s' == s1.(worker := s'.worker);
      ReleasedIsOk(s1);
      WorkerStepKeepsInv(s1, s');
    }
  }

  lemma ReleasedIsOk(s: State)
    requires WorkerOk(s) && s.worker.Marking?
    ensures WorkerOk(s.(worker := Saving(s.worker.mk, s.worker.read, Released(s.worker.read))))
  {
  }

  lemma MergedMark(current: Labels, read: Labels)
    ensures var labels := MergeMap(current, DiffMap(read, read[NeedsReset := TRUE]));
            && (labels == current || labels == current[NeedsReset := TRUE])
            && labels == if Get(read, NeedsReset) == Some(TRUE) then current else current[NeedsReset := TRUE]
  {
    var labels := MergeMap(current, DiffMap(read, read[NeedsReset := TRUE]));
    var expected := if Get(read, NeedsReset) == Some(TRUE) then current else current[NeedsReset := TRUE];
    forall k ensures Get(labels, k) == Get(expected, k) {
      MergedEntry(current, read, read[NeedsReset := TRUE], k);
    }
    SameEntries(labels, expected);
  }

  // ---- Every step, every run ----

  lemma HostStepKeepsInv(s: State, a: Action)
    requires Inv(s) && Enabled(s, a)
    requires a.CreateHost? || a.DeleteHost? || a.AgentCalls? || a.AnswerPatch? || a.RequestUpdate? || a.Land? || a.Drop?
    ensures Inv(Do(s, a))
  {
    match a {
      case CreateHost(hk, labels, annotations) => CreateHostKeepsInv(s, hk, labels, annotations);
      case DeleteHost(hk) => DeleteHostKeepsInv(s, hk);
      case AgentCalls(hk, e) => AgentCallKeepsInv(s, hk, e);
      case AnswerPatch(hk) => OnlyAnswersDiffer(s, Do(s, a));
      case RequestUpdate(hk) => RequestUpdateKeepsInv(s, hk);
      case Land(w) => if w.hk in s.hosts { LandKeepsInv(s, w); }
      case Drop(w) => DropKeepsInv(s, w);
    }
  }

  lemma ReadStepKeepsInv(s: State, a: Action)
    requires Inv(s) && Enabled(s, a) && (a.HandlePatch? || a.ReadHost?)
    ensures Inv(Do(s, a))
  {
    var h := s.hosts[a.hk];
    assert HostOk(s, a.hk, h);
    if a.HandlePatch? {
      if Admissible(h, a.request) {
        PatchRequestIsSafe(s, a.hk, a.request);
        QueueKeepsInv(s, HostWrite(a.hk, DiffHost(h, Applied(h, a.request))));
      }
    } else {
      var machine := HostReconciler.MachineOsVersion(s.machines, h, a.machineFails);
      HostReconcileIsSafe(s, a.hk, machine);
      QueueKeepsInv(s, HostWrite(a.hk, DiffHost(h, HostReconciler.Reconciled(h, machine))));
    }
  }

  lemma StepKeepsInv(s: State, a: Action)
    requires Inv(s) && Enabled(s, a)
    ensures Inv(Do(s, a))
  {
    match a {
      case HandlePatch(_, _) => ReadStepKeepsInv(s, a);
      case ReadHost(_, _) => ReadStepKeepsInv(s, a);
      case CreateMachine(_, _, _, _) => UserMachineKeepsInv(s, a);
      case EditMachine(_, _, _, _) => UserMachineKeepsInv(s, a);
      case DeleteMachine(_) => UserMachineKeepsInv(s, a);
      case Load(mk) => LoadKeepsInv(s, mk);
      case Decide(capi, tracker, getFails, listed) => DecideKeepsInv(s, capi, tracker, getFails, listed);
      case LookUpAvailable(listed) => SearchKeepsInv(s, listed);
      case LinkHost(fails) => LinkKeepsInv(s, fails);
      case MarkHost(fails) => MarkKeepsInv(s, fails);
      case SaveMachine => SaveKeepsInv(s);
      case Crash => WorkerStepKeepsInv(s, s.(worker := Idle));
      case _ => HostStepKeepsInv(s, a);
    }
  }

  lemma DecideKeepsInv(s: State, capi: Capi, tracker: TrackerAnswer, getFails: bool, listed: Lookup<Key>)
    requires Inv(s) && Enabled(s, Decide(capi, tracker, getFails, listed))
    ensures Inv(Do(s, Decide(capi, tracker, getFails, listed)))
  {
    DecideKeepsWorker(s, capi, tracker, getFails, listed);
    WorkerStepKeepsInv(s, s.(worker := Decided(s, capi, tracker, getFails, listed)));
  }

  lemma SearchKeepsInv(s: State, listed: Lookup<Key>)
    requires Inv(s) && Enabled(s, LookUpAvailable(listed))
    ensures Inv(Do(s, LookUpAvailable(listed)))
  {
    SearchKeepsWorker(s, listed);
    WorkerStepKeepsInv(s, s.(worker := Searched(s, listed)));
  }

  lemma WorkerStepKeepsInv(s: State, s': State)
    requires Inv(s) && s' == s.(worker := s'.worker) && WorkerOk(s')
    ensures Inv(s')
  {
    OnlyMachinesDiffer(s, s');
  }

  lemma LoadKeepsInv(s: State, mk: Key)
    requires Inv(s) && Enabled(s, Load(mk))
    ensures Inv(Do(s, Load(mk)))
  {
    assert MachineOk(s.owner, mk, s.machines[mk]);
    WorkerStepKeepsInv(s, Do(s, Load(mk)));
  }

  lemma DropKeepsInv(s: State, w: HostWrite)
    requires Inv(s) && w in s.writes
    ensures Inv(s.(writes := s.writes - {w}))
  {
    var s' := s.(writes := s.writes - {w});
    OnlyWritesDiffer(s, s');
    forall v | v in s'.writes ensures WriteOk(s', v) {
      assert WriteOk(s, v) && Log(s', v.hk) == Log(s, v.hk);
    }
  }

  lemma {:induction false} RunKeepsInv(states: seq<State>, actions: seq<Action>, n: nat)
    requires Run(states, actions) && n < |states|
    ensures Inv(states[n])
  {
    if n == 0 {
    } else {
      RunKeepsInv(states, actions, n - 1);
      assert Enabled(states[n - 1], actions[n - 1]) && states[n - 1 + 1] == Do(states[n - 1], actions[n - 1]);
      StepKeepsInv(states[n - 1], actions[n - 1]);
    }
  }
}
