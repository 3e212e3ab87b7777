/** The persisted objects (api/v1beta1) as values.
    Label keys, condition types, reasons and phases are constructors instead of their long strings. */
module Objects {
  import opened Common

  /** `FreeLabel` stands for every key that is not one of the controllers' own. */
  datatype LabelKey =
    | MachineName
    | ElementalMachineName
    | Installed
    | Bootstrapped
    | NeedsReset
    | Reset
    | InPlaceUpdate
    | ClusterName
    | FreeLabel(name: string)

  type Labels = map<LabelKey, string>

  const TRUE := "true"
  const PENDING := "pending"
  const DONE := "done"
  const FINALIZER := "elementalmachine.infrastructure.cluster.x-k8s.io"

  /** The keys that only the controllers and the flags of a PATCH request may write. */
  const RESERVED: set<LabelKey> := {MachineName, ElementalMachineName, Installed, Bootstrapped, NeedsReset, Reset}

  datatype ConditionType =
    | RegistrationReady | InstallationReady | BootstrapReady | ResetReady | OSVersionReady
    | AssociationReady | HostReady | ProviderIDReady

  datatype Reason =
    | NoReason
    | RegistrationFailed
    | WaitingForInstallation | CloudConfigInstallationFailed | InstallationFailed
    | WaitingForBootstrap | BootstrapFailed
    | WaitingForReset | ResetFailed
    | WaitingForOSReconcile | InPlaceUpdateNotPending | OSVersionReconciliationFailed | WaitingForPostReconcileReboot
    | MissingMachineOwner | MissingAssociatedCluster | MissingClusterInfrastructureReady | MissingBootstrapSecret
    | MissingAvailableHosts | AssociatedHostNotFound
    | HostWaitingForInstall | HostWaitingForBootstrap
    | NodeNotFound | WaitingForControlPlaneInitialized

  datatype Condition = Condition(status: bool, reason: Reason)

  type Conditions = map<ConditionType, Condition>

  datatype HostPhase =
    | NoPhase | Registering | FinalizingRegistration | Installing | Bootstrapping
    | Running | TriggeringReset | Resetting | OSVersionReconcile

  /** The free-form instructions in `osVersionManagement`: raw JSON text per top-level key. */
  type OsVersion = map<string, string>

  datatype Host = Host(
    labels: Labels,
    annotations: map<string, string>,
    finalizers: set<string>,
    deleting: bool,
    machineRef: Option<Key>,
    bootstrapSecret: Option<Key>,
    osVersion: OsVersion,
    conditions: Conditions,
    phase: HostPhase)

  datatype Operator = In | NotIn | Exists | DoesNotExist

  /** One requirement of a label selector. */
  datatype Requirement = Requirement(key: LabelKey, operator: Operator, values: seq<string>)

  datatype Machine = Machine(
    clusterName: Option<string>,
    finalizers: set<string>,
    deleting: bool,
    selector: Option<seq<Requirement>>,
    hostRef: Option<Key>,
    providerID: Option<string>,
    ready: bool,
    osVersion: OsVersion,
    conditions: Conditions)

  predicate IsTrue(labels: Labels, key: LabelKey) {
    key in labels && labels[key] == TRUE
  }

  /** Once an object is being deleted it exists only as long as it has finalizers. */
  predicate Finished(deleting: bool, finalizers: set<string>) {
    deleting && finalizers == {}
  }
}
