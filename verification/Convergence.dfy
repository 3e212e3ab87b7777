/** With everything outside the store frozen, reconciling one machine over and over settles after at most three
    rounds. */
module Convergence {
  import opened Common
  import opened Objects
  import opened Patches
  import opened Store
  import opened MachineReconciler

  /** No stored host is one that the store would already have removed. */
  predicate Settled(w: World) {
    forall hk :: hk in w.hosts ==> !Finished(w.hosts[hk].deleting, w.hosts[hk].finalizers)
  }

  predicate Fixpoint(env: Env, w: World, mk: Key) {
    Reconciled(env, w, mk) == w
  }

  /** The host reference of the machine is set and can be evaluated: the host is there, or its read keeps failing. */
  predicate Evaluable(env: Env, w: World, mk: Key) {
    && mk in w.machines
    && w.machines[mk].hostRef.Some?
    && !Find(w.hosts, w.machines[mk].hostRef.value, env.faults.getHost).Missing?
  }

  lemma SavedExactly(w: World, mk: Key, before: Machine, after: Machine)
    requires mk in w.machines && before == w.machines[mk] && SameIdentity(before, after)
    ensures Saved(w, mk, before, after, false) == w.(machines := PutMachine(w.machines, mk, after))
  {
    MachineRoundTrip(before, after);
  }

  lemma SavedUnchanged(w: World, mk: Key, m: Machine, fails: bool)
    requires mk in w.machines && m == w.machines[mk]
    requires !Finished(m.deleting, m.finalizers)
    ensures Saved(w, mk, m, m, fails) == w
  {
    MachineRoundTrip(m, m);
    assert w.machines[mk := m] == w.machines;
  }

  lemma PatchedExactly(hosts: map<Key, Host>, hk: Key, after: Host)
    requires hk in hosts && after.deleting == hosts[hk].deleting && after.finalizers == hosts[hk].finalizers
    requires !Finished(after.deleting, after.finalizers)
    ensures PatchedHosts(hosts, hk, hosts[hk], after) == hosts[hk := after]
  {
    HostRoundTrip(hosts[hk], after);
  }

  // ---- Machines stopped by the first checks, or being deleted ----

  lemma StopKeeps(m: Machine, capi: Capi)
    requires Gate(m, capi).Stop?
    ensures var after := Gate(m, capi).after.machine;
            && SameIdentity(m, after)
            && (after.finalizers == m.finalizers || (!m.deleting && after.finalizers == m.finalizers + {FINALIZER}))
  {
  }

  lemma StoppedAgain(m: Machine, capi: Capi)
    requires Gate(m, capi).Stop?
    ensures var after := Gate(m, capi).after.machine;
            Gate(after, capi).Stop? && Gate(after, capi).after.machine == after
  {
    var after := Gate(m, capi).after.machine;
    StopKeeps(m, capi);
    assert after.finalizers + {FINALIZER} == after.finalizers || after.finalizers == m.finalizers;
    assert Gate(after, capi).after.machine.conditions == after.conditions;
  }

  lemma StopSettles(env: Env, w: World, mk: Key)
    requires mk in w.machines && !Finished(w.machines[mk].deleting, w.machines[mk].finalizers)
    requires Gate(w.machines[mk], env.capi).Stop?
    ensures Fixpoint(env, Reconciled(env, w, mk), mk)
  {
    var m := w.machines[mk];
    var after := Gate(m, env.capi).after.machine;
    StopKeeps(m, env.capi);
    StoppedAgain(m, env.capi);
    if !env.faults.getMachine && !env.faults.patchMachine {
      SavedExactly(w, mk, m, after);
      var w1 := Reconciled(env, w, mk);
      assert w1.machines[mk] == after;
      SavedUnchanged(w1, mk, after, false);
    }
  }

  lemma DeletionSettles(env: Env, w: World, mk: Key)
    requires Settled(w) && mk in w.machines && !Finished(w.machines[mk].deleting, w.machines[mk].finalizers)
    requires Gate(w.machines[mk], env.capi).Delete?
    ensures Fixpoint(env, Reconciled(env, w, mk), mk)
  {
    if env.faults.getMachine {
      return;
    }
    var m := w.machines[mk];
    var (hosts, after) := Deletion(env, w.hosts, m);
    MarkingSettles(env, w.hosts, m);
    var w1 := w.(hosts := hosts);
    if env.faults.patchMachine || after.machine == m {
      SavedUnchanged(w1, mk, m, env.faults.patchMachine);
    } else {
      SavedExactly(w1, mk, m, after.machine);
      var w2 := Reconciled(env, w, mk);
      if mk in w2.machines {
        SavedUnchanged(w2, mk, after.machine, false);
      }
    }
  }

  lemma MarkedAgain(h: Host)
    ensures MarkedForReset(MarkedForReset(h)) == MarkedForReset(h)
  {
    var labels := MarkedForReset(h).labels;
    assert labels[NeedsReset := TRUE] == labels;
  }

  /** Marking a host for reset once more changes no host. */
  lemma MarkingSettles(env: Env, hosts: map<Key, Host>, m: Machine)
    requires forall hk :: hk in hosts ==> !Finished(hosts[hk].deleting, hosts[hk].finalizers)
    ensures var (hosts', after) := Deletion(env, hosts, m);
            Deletion(env, hosts', m) == (hosts', after)
  {
    if m.hostRef.Some? && m.hostRef.value in hosts && !env.faults.getHost && !env.faults.patchHost {
      var hk := m.hostRef.value;
      var marked := MarkedForReset(hosts[hk]);
      PatchedExactly(hosts, hk, marked);
      MarkedAgain(hosts[hk]);
      var hosts' := hosts[hk := marked];
      PatchedExactly(hosts', hk, marked);
      assert hosts'[hk := marked] == hosts';
    }
  }

  // ---- Machines with a host ----

  lemma EvaluationKeeps(m: Machine, host: Lookup<Host>, cluster: Cluster, answer: TrackerAnswer)
    requires m.hostRef.Some?
    ensures var once := Evaluated(m, host, cluster, answer).machine;
            && SameIdentity(m, once) && once.finalizers == m.finalizers
            && (!host.Missing? ==> once.hostRef == m.hostRef)
  {
  }

  lemma SetAgain(m: Machine, ctype: ConditionType, status: bool, reason: Reason)
    requires Get(m.conditions, ctype) == Some(Condition(status, reason))
    ensures WithCondition(m, ctype, status, reason) == m
  {
    assert m.conditions[ctype := Condition(status, reason)] == m.conditions;
  }

  /** Setting the conditions of a bootstrapped host once more, and then the provider ID. */
  lemma BootstrappedSettles(m: Machine, h: Host, cluster: Cluster, answer: TrackerAnswer)
    requires m.hostRef.Some? && !m.ready && IsTrue(h.labels, Installed) && IsTrue(h.labels, Bootstrapped)
    ensures var once := Evaluated(m, Found(h), cluster, answer).machine;
            Evaluated(once.(ready := false), Found(h), cluster, answer).machine == once
  {
    var m2 := WithCondition(WithCondition(m, AssociationReady, true, NoReason), HostReady, true, NoReason);
    var once := Evaluated(m, Found(h), cluster, answer).machine;
    var again := once.(ready := false);
    ProviderIDSettles(m2, answer);
    SetAgain(again, AssociationReady, true, NoReason);
    SetAgain(again, HostReady, true, NoReason);
    if !cluster.hasControlPlaneRef || !cluster.controlPlaneInitialized {
      SetAgain(again, ProviderIDReady, false, WaitingForControlPlaneInitialized);
    } else {
      assert again == WithProviderID(m2, answer).machine;
    }
  }

  lemma EvaluationSettles(m: Machine, host: Lookup<Host>, cluster: Cluster, answer: TrackerAnswer)
    requires m.hostRef.Some? && !host.Missing? && !m.ready
    ensures var once := Evaluated(m, host, cluster, answer).machine;
            Evaluated(once.(ready := false), host, cluster, answer).machine == once
  {
    var once := Evaluated(m, host, cluster, answer).machine;
    if host.Failed? {
      SetAgain(once, AssociationReady, false, AssociatedHostNotFound);
    } else if IsTrue(host.value.labels, Installed) && IsTrue(host.value.labels, Bootstrapped) {
      BootstrappedSettles(m, host.value, cluster, answer);
    } else {
      SetAgain(once, AssociationReady, true, NoReason);
      SetAgain(once, HostReady, false, if IsTrue(host.value.labels, Installed) then HostWaitingForBootstrap
               else HostWaitingForInstall);
    }
  }

  lemma ProviderIDSettles(m: Machine, answer: TrackerAnswer)
    requires m.hostRef.Some?
    ensures var once := WithProviderID(m, answer);
            WithProviderID(once.machine, answer) == once
  {
    var once := WithProviderID(m, answer).machine;
    assert WithCondition(once, ProviderIDReady, false, NodeNotFound).conditions == once.conditions
           || once.providerID == Some(ProviderID(m.hostRef.value)) || answer.TrackerError?;
  }

  lemma EvaluableSettles(env: Env, w: World, mk: Key)
    requires Evaluable(env, w, mk) && Gate(w.machines[mk], env.capi).Normal?
    ensures Fixpoint(env, Reconciled(env, w, mk), mk)
  {
    if env.faults.getMachine || env.faults.patchMachine {
      return;
    }
    var m := w.machines[mk];
    var g := Gate(m, env.capi);
    var hk := m.hostRef.value;
    var host := Find(w.hosts, hk, env.faults.getHost);
    EvaluationKeeps(g.machine, host, g.cluster, env.tracker(hk));
    EvaluationSettles(g.machine, host, g.cluster, env.tracker(hk));
    var after := Evaluated(g.machine, host, g.cluster, env.tracker(hk)).machine;
    SavedExactly(w, mk, m, after);
    var w1 := Reconciled(env, w, mk);
    assert w1 == w.(machines := w.machines[mk := after]);
    assert after.finalizers + {FINALIZER} == after.finalizers;
    assert Gate(after, env.capi) == Normal(after.(ready := false), g.owner, g.cluster);
    SavedUnchanged(w1, mk, after, false);
  }

  // ---- Machines without a host ----

  lemma SameListing(q: Query, order: seq<Key>, a: map<Key, Host>, b: map<Key, Host>)
    requires a.Keys == b.Keys
    requires forall hk :: hk in a ==> (Selects(q, hk, a[hk]) <==> Selects(q, hk, b[hk]))
    ensures Listed(q, order, a) == Listed(q, order, b)
  {
  }

  /** A linked host that was found through its label stays the first one of that listing. */
  lemma LinkedStaysFirst(env: Env, hosts: map<Key, Host>, mk: Key, hk: Key, h: Host)
    requires First(AlreadyLinked(mk), env.order, hosts) == Some(hk) && hk in hosts
    requires Get(h.labels, ElementalMachineName) == Some(mk.name)
             && (NeedsReset in h.labels <==> NeedsReset in hosts[hk].labels)
    ensures First(AlreadyLinked(mk), env.order, hosts[hk := h]) == Some(hk)
  {
    var q := AlreadyLinked(mk);
    FirstIsListed(q, env.order, hosts);
    SelectsLinked(mk, hk, hosts[hk]);
    SelectsLinked(mk, hk, h);
    SameListing(q, env.order, hosts, hosts[hk := h]);
  }

  /** A free host becomes the first and only one of the listing by label when it is linked. */
  lemma LinkedBecomesFirst(env: Env, hosts: map<Key, Host>, mk: Key, hk: Key, h: Host)
    requires First(AlreadyLinked(mk), env.order, hosts).None? && hk in hosts && hk in env.order && hk.ns == mk.ns
    requires Get(h.labels, ElementalMachineName) == Some(mk.name) && NeedsReset !in h.labels
    ensures First(AlreadyLinked(mk), env.order, hosts[hk := h]) == Some(hk)
  {
    var q := AlreadyLinked(mk);
    var hosts' := hosts[hk := h];
    FirstIsListed(q, env.order, hosts);
    FirstIsListed(q, env.order, hosts');
    SelectsLinked(mk, hk, h);
    assert Selects(q, hk, hosts'[hk]);
  }

  lemma LinkedAgain(h: Host, mk: Key, m: Machine, owner: OwnerMachine)
    requires owner.dataSecretName.Some?
    ensures var once := Linked(h, mk, m, owner);
            Linked(once, mk, m, owner) == once && Get(once.labels, ElementalMachineName) == Some(mk.name)
            && (NeedsReset in once.labels <==> NeedsReset in h.labels)
  {
    var once := Linked(h, mk, m, owner);
    assert Linked(once, mk, m, owner).labels == once.labels;
  }

  /** A host linked once is the one found again, also when the machine never learned about it. */
  lemma LinkedIsFoundAgain(env: Env, hosts: map<Key, Host>, mk: Key, m: Machine, owner: OwnerMachine, hk: Key)
    requires owner.dataSecretName.Some? && Candidate(env, hosts, mk, m) == Found(hk)
    ensures hk in hosts
    ensures var hosts' := hosts[hk := Linked(hosts[hk], mk, m, owner)];
            Candidate(env, hosts', mk, m) == Found(hk) && Linked(hosts'[hk], mk, m, owner) == hosts'[hk]
  {
    CandidateIsLive(env, hosts, mk, m);
    var linked := Linked(hosts[hk], mk, m, owner);
    LinkedAgain(hosts[hk], mk, m, owner);
    if First(AlreadyLinked(mk), env.order, hosts).Some? {
      LinkedStaysFirst(env, hosts, mk, hk, linked);
    } else {
      FirstIsListed(Available(mk, SelectorOf(m)), env.order, hosts);
      SelectsAvailable(mk, SelectorOf(m), hk, hosts[hk]);
      LinkedBecomesFirst(env, hosts, mk, hk, linked);
    }
  }

  /** Without a host to link (none available, or a failing call) the machine's copy settles at once. */
  lemma UnassociatedSettles(env: Env, w: World, mk: Key)
    requires mk in w.machines && w.machines[mk].hostRef.None?
    requires Gate(w.machines[mk], env.capi).Normal?
    requires var candidate := Candidate(env, w.hosts, mk, Gate(w.machines[mk], env.capi).machine);
             !candidate.Found? || env.faults.patchHost
    ensures Fixpoint(env, Reconciled(env, w, mk), mk)
  {
    if env.faults.getMachine || env.faults.patchMachine {
      return;
    }
    var m := w.machines[mk];
    var g := Gate(m, env.capi);
    var m1 := Association(env, w.hosts, mk, g.machine, g.owner).1.machine;
    SavedExactly(w, mk, m, m1);
    assert m1.finalizers + {FINALIZER} == m1.finalizers;
    assert Gate(m1, env.capi) == Normal(m1, g.owner, g.cluster);
    assert Candidate(env, w.hosts, mk, m1) == Candidate(env, w.hosts, mk, g.machine);
    assert NoHostAvailable(NoHostAvailable(g.machine)).conditions == NoHostAvailable(g.machine).conditions;
    var w1 := Reconciled(env, w, mk);
    SavedUnchanged(w1, mk, m1, false);
  }

  lemma AssociationProgresses(env: Env, w: World, mk: Key)
    requires Settled(w) && mk in w.machines && w.machines[mk].hostRef.None?
    requires Gate(w.machines[mk], env.capi).Normal?
    ensures var w1 := Reconciled(env, w, mk);
            Fixpoint(env, w1, mk) || (Evaluable(env, w1, mk) && Gate(w1.machines[mk], env.capi).Normal?)
  {
    var m := w.machines[mk];
    var g := Gate(m, env.capi);
    var candidate := Candidate(env, w.hosts, mk, g.machine);
    if env.faults.getMachine {
    } else if !candidate.Found? || env.faults.patchHost {
      UnassociatedSettles(env, w, mk);
    } else {
      CandidateIsLive(env, w.hosts, mk, g.machine);
      var hk := candidate.value;
      var linked := Linked(w.hosts[hk], mk, g.machine, g.owner);
      PatchedExactly(w.hosts, hk, linked);
      var hosts := w.hosts[hk := linked];
      if env.faults.patchMachine {
        LinkedIsFoundAgain(env, w.hosts, mk, g.machine, g.owner, hk);
        PatchedExactly(hosts, hk, linked);
        assert hosts[hk := linked] == hosts;
      } else {
        SavedExactly(w.(hosts := hosts), mk, m, Associated(g.machine, hk));
      }
    }
  }

  lemma DeadReferenceIsCleared(env: Env, w: World, mk: Key)
    requires mk in w.machines && w.machines[mk].hostRef.Some? && !Evaluable(env, w, mk)
    requires Gate(w.machines[mk], env.capi).Normal?
    ensures var w1 := Reconciled(env, w, mk);
            Fixpoint(env, w1, mk)
            || (w1.hosts == w.hosts && mk in w1.machines && w1.machines[mk].hostRef.None?
                && Gate(w1.machines[mk], env.capi).Normal?)
  {
    if !env.faults.getMachine && !env.faults.patchMachine {
      var m := w.machines[mk];
      var g := Gate(m, env.capi);
      var after := Evaluated(g.machine, Missing, g.cluster, env.tracker(m.hostRef.value)).machine;
      SavedExactly(w, mk, m, after);
    }
  }

  /** At most three reconciles (clear a dead reference, associate, evaluate) reach a state that no further one changes,
      whatever the CAPI objects, the downstream answers, the calls that keep failing and the order of listings are. */
  lemma ThreeReconcilesSettle(env: Env, w: World, mk: Key)
    requires Settled(w)
    requires mk in w.machines ==> !Finished(w.machines[mk].deleting, w.machines[mk].finalizers)
    ensures var w1 := Reconciled(env, w, mk);
            var w2 := Reconciled(env, w1, mk);
            var w3 := Reconciled(env, w2, mk);
            Reconciled(env, w3, mk) == w3
  {
    var w1 := Reconciled(env, w, mk);
    var w2 := Reconciled(env, w1, mk);
    if mk !in w.machines {
      return;
    }
    match Gate(w.machines[mk], env.capi) {
      case Stop(_) =>
        StopSettles(env, w, mk);
      case Delete(_) =>
        DeletionSettles(env, w, mk);
      case Normal(_, _, _) =>
        if w.machines[mk].hostRef.None? {
          AssociationProgresses(env, w, mk);
          if !Fixpoint(env, w1, mk) {
            EvaluableSettles(env, w1, mk);
          }
        } else if Evaluable(env, w, mk) {
          EvaluableSettles(env, w, mk);
        } else {
          DeadReferenceIsCleared(env, w, mk);
          if !Fixpoint(env, w1, mk) {
            AssociationProgresses(env, w1, mk);
            if !Fixpoint(env, w2, mk) {
              EvaluableSettles(env, w2, mk);
            }
          }
        }
    }
  }

  const NO_FAULTS := Faults(false, false, false, false, false, false)

  /** Everything is in place to associate the machine and to evaluate its host. */
  predicate Provisionable(m: Machine, capi: Capi) {
    && capi.owner.Found? && capi.owner.value.dataSecretName.Some?
    && capi.cluster.Found? && capi.cluster.value.infrastructureReady
    && !m.deleting
  }

  /** What a settled machine looks like when no call fails: it has a live host and is ready exactly when that host is
      installed and bootstrapped, the control plane is up and the node carries the provider ID; or it has no host,
      and then no host matches it. */
  lemma WhatSettles(env: Env, w: World, mk: Key)
    requires Settled(w) && mk in w.machines && Fixpoint(env, w, mk)
    requires env.faults == NO_FAULTS && (forall hk :: hk in w.hosts ==> hk in env.order)
    requires Provisionable(w.machines[mk], env.capi)
    ensures var m, cluster := w.machines[mk], env.capi.cluster.value;
            if m.hostRef.Some? then
              && m.hostRef.value in w.hosts
              && var labels := w.hosts[m.hostRef.value].labels;
                 (m.ready <==> IsTrue(labels, Installed) && IsTrue(labels, Bootstrapped)
                               && cluster.hasControlPlaneRef && cluster.controlPlaneInitialized
                               && m.providerID == Some(ProviderID(m.hostRef.value)))
            else
              && !m.ready
              && (SelectorFails(m) || forall hk :: hk in w.hosts ==>
                   !Selects(Available(mk, SelectorOf(m)), hk, w.hosts[hk]))
              && forall hk :: hk in w.hosts ==> !Selects(AlreadyLinked(mk), hk, w.hosts[hk])
  {
    var m := w.machines[mk];
    var g := Gate(m, env.capi);
    if m.hostRef.Some? {
      var hk := m.hostRef.value;
      var after := Evaluated(g.machine, Find(w.hosts, hk, false), g.cluster, env.tracker(hk)).machine;
      SavedExactly(w, mk, m, after);
      assert w.machines[mk] == after;
    } else {
      CandidateIsLive(env, w.hosts, mk, g.machine);
      FirstIsListed(AlreadyLinked(mk), env.order, w.hosts);
      FirstIsListed(Available(mk, SelectorOf(m)), env.order, w.hosts);
      var (hosts, after) := Association(env, w.hosts, mk, g.machine, g.owner);
      SavedExactly(w.(hosts := hosts), mk, m, after.machine);
      assert Reconciled(env, w, mk).machines[mk] == after.machine;
    }
  }
}
