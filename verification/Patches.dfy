/** The patch helper: only the fields that changed between two copies are written,
    and they are written over whatever the stored object has become meanwhile. */
module Patches {
  import opened Common
  import opened Objects

  datatype Change<+T> = Keep | Put(value: T)

  function DiffValue<T(==)>(before: T, after: T): Change<T> {
    if before == after then Keep else Put(after)
  }

  function MergeValue<T>(current: T, change: Change<T>): T {
    match change
    case Keep => current
    case Put(v) => v
  }

  /** The entries that changed: `Some` for a written entry, `None` for a removed one. */
  function DiffMap<K, V(==)>(before: map<K, V>, after: map<K, V>): map<K, Option<V>> {
    map k | k in before.Keys + after.Keys && Get(before, k) != Get(after, k) :: Get(after, k)
  }

  function MergeMap<K, V>(current: map<K, V>, diff: map<K, Option<V>>): map<K, V> {
    map k | k in current.Keys + diff.Keys && (k in diff ==> diff[k].Some?) ::
      if k in diff then diff[k].value else current[k]
  }

  datatype HostPatch = HostPatch(
    labels: map<LabelKey, Option<string>>,
    annotations: map<string, Option<string>>,
    finalizers: Change<set<string>>,
    machineRef: Change<Option<Key>>,
    bootstrapSecret: Change<Option<Key>>,
    osVersion: map<string, Option<string>>,
    conditions: map<ConditionType, Option<Condition>>,
    phase: Change<HostPhase>)

  function DiffHost(before: Host, after: Host): HostPatch {
    HostPatch(
      DiffMap(before.labels, after.labels),
      DiffMap(before.annotations, after.annotations),
      DiffValue(before.finalizers, after.finalizers),
      DiffValue(before.machineRef, after.machineRef),
      DiffValue(before.bootstrapSecret, after.bootstrapSecret),
      DiffMap(before.osVersion, after.osVersion),
      DiffMap(before.conditions, after.conditions),
      DiffValue(before.phase, after.phase))
  }

  function MergeHost(current: Host, patch: HostPatch): Host {
    Host(
      MergeMap(current.labels, patch.labels),
      MergeMap(current.annotations, patch.annotations),
      MergeValue(current.finalizers, patch.finalizers),
      current.deleting,
      MergeValue(current.machineRef, patch.machineRef),
      MergeValue(current.bootstrapSecret, patch.bootstrapSecret),
      MergeMap(current.osVersion, patch.osVersion),
      MergeMap(current.conditions, patch.conditions),
      MergeValue(current.phase, patch.phase))
  }

  datatype MachinePatch = MachinePatch(
    finalizers: Change<set<string>>,
    hostRef: Change<Option<Key>>,
    providerID: Change<Option<string>>,
    ready: Change<bool>,
    conditions: map<ConditionType, Option<Condition>>)

  function DiffMachine(before: Machine, after: Machine): MachinePatch {
    MachinePatch(
      DiffValue(before.finalizers, after.finalizers),
      DiffValue(before.hostRef, after.hostRef),
      DiffValue(before.providerID, after.providerID),
      DiffValue(before.ready, after.ready),
      DiffMap(before.conditions, after.conditions))
  }

  function MergeMachine(current: Machine, patch: MachinePatch): Machine {
    current.(
      finalizers := MergeValue(current.finalizers, patch.finalizers),
      hostRef := MergeValue(current.hostRef, patch.hostRef),
      providerID := MergeValue(current.providerID, patch.providerID),
      ready := MergeValue(current.ready, patch.ready),
      conditions := MergeMap(current.conditions, patch.conditions))
  }

  /** Entry by entry: a merged map has the writer's value where the writer changed it, and the stored one elsewhere. */
  lemma MergedEntry<K, V>(current: map<K, V>, before: map<K, V>, after: map<K, V>, k: K)
    ensures Get(MergeMap(current, DiffMap(before, after)), k)
            == if Get(before, k) == Get(after, k) then Get(current, k) else Get(after, k)
  {
    var diff := DiffMap(before, after);
    if Get(before, k) != Get(after, k) {
      assert k in before.Keys + after.Keys;
      assert k in diff && diff[k] == Get(after, k);
    } else {
      assert k !in diff;
    }
  }

  ghost predicate MergedMap<K(!new), V>(current: map<K, V>, before: map<K, V>, after: map<K, V>, merged: map<K, V>) {
    forall k :: Get(merged, k) == if Get(before, k) == Get(after, k) then Get(current, k) else Get(after, k)
  }

  lemma MergedEntries<K(!new), V>(current: map<K, V>, before: map<K, V>, after: map<K, V>)
    ensures MergedMap(current, before, after, MergeMap(current, DiffMap(before, after)))
  {
    forall k
      ensures Get(MergeMap(current, DiffMap(before, after)), k)
              == if Get(before, k) == Get(after, k) then Get(current, k) else Get(after, k)
    {
      MergedEntry(current, before, after, k);
    }
  }

  /** Field by field: what the writer left alone is as stored, whatever was stored meanwhile, and the rest is the
      writer's. Nobody's patch takes a deletion back. */
  lemma MergedHost(current: Host, before: Host, after: Host)
    ensures var merged := MergeHost(current, DiffHost(before, after));
            && MergedMap(current.labels, before.labels, after.labels, merged.labels)
            && MergedMap(current.annotations, before.annotations, after.annotations, merged.annotations)
            && MergedMap(current.osVersion, before.osVersion, after.osVersion, merged.osVersion)
            && MergedMap(current.conditions, before.conditions, after.conditions, merged.conditions)
            && merged.deleting == current.deleting
            && merged.finalizers == (if before.finalizers == after.finalizers then current else after).finalizers
            && merged.machineRef == (if before.machineRef == after.machineRef then current else after).machineRef
            && merged.bootstrapSecret
               == (if before.bootstrapSecret == after.bootstrapSecret then current else after).bootstrapSecret
            && merged.phase == (if before.phase == after.phase then current else after).phase
  {
    MergedEntries(current.labels, before.labels, after.labels);
    MergedEntries(current.annotations, before.annotations, after.annotations);
    MergedEntries(current.osVersion, before.osVersion, after.osVersion);
    MergedEntries(current.conditions, before.conditions, after.conditions);
  }

  lemma MergedMachine(current: Machine, before: Machine, after: Machine)
    ensures var merged := MergeMachine(current, DiffMachine(before, after));
            && SameIdentity(current, merged)
            && MergedMap(current.conditions, before.conditions, after.conditions, merged.conditions)
            && merged.finalizers == (if before.finalizers == after.finalizers then current else after).finalizers
            && merged.hostRef == (if before.hostRef == after.hostRef then current else after).hostRef
            && merged.providerID == (if before.providerID == after.providerID then current else after).providerID
            && merged.ready == (if before.ready == after.ready then current else after).ready
  {
    MergedEntries(current.conditions, before.conditions, after.conditions);
  }

  lemma MapRoundTrip<K, V>(before: map<K, V>, after: map<K, V>)
    ensures MergeMap(before, DiffMap(before, after)) == after
  {
    var merged := MergeMap(before, DiffMap(before, after));
    forall k ensures Get(merged, k) == Get(after, k) {
      MergedEntry(before, before, after, k);
    }
    SameEntries(merged, after);
  }

  lemma SameEntries<K, V>(a: map<K, V>, b: map<K, V>)
    requires forall k :: Get(a, k) == Get(b, k)
    ensures a == b
  {
    forall k ensures k in a <==> k in b {
      assert Get(a, k) == Get(b, k);
    }
    forall k | k in a ensures a[k] == b[k] {
      assert Get(a, k) == Get(b, k);
    }
  }

  /** With nobody writing in between, patching stores exactly the copy that was edited. */
  lemma HostRoundTrip(before: Host, after: Host)
    requires before.deleting == after.deleting
    ensures MergeHost(before, DiffHost(before, after)) == after
  {
    MapRoundTrip(before.labels, after.labels);
    MapRoundTrip(before.annotations, after.annotations);
    MapRoundTrip(before.osVersion, after.osVersion);
    MapRoundTrip(before.conditions, after.conditions);
  }

  /** The parts of a machine that no reconcile edits. */
  predicate SameIdentity(a: Machine, b: Machine) {
    a.clusterName == b.clusterName && a.deleting == b.deleting && a.selector == b.selector && a.osVersion == b.osVersion
  }

  lemma MachineRoundTrip(before: Machine, after: Machine)
    requires SameIdentity(before, after)
    ensures MergeMachine(before, DiffMachine(before, after)) == after
  {
    MapRoundTrip(before.conditions, after.conditions);
  }
}
