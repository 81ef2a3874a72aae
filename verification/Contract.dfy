/** The plan a handler returns, and the errors the bridge reports. */
module Contract {
  import opened Wrappers
  import opened Json
  import JsonPatch
  import ApiServer

  datatype ObjectRef = ObjectRef(
    apiVersion: string, kind: string, name: string,
    namespace: Option<string>, uid: Option<string>, resourceVersion: Option<string>)

  datatype ObjectMeta = ObjectMeta(
    name: string, namespace: Option<string>, uid: Option<string>, resourceVersion: Option<string>,
    generation: Option<real>, labels: Option<map<string, string>>, annotations: Option<map<string, string>>,
    finalizers: Option<seq<string>>, deletionTimestamp: Option<string>, creationTimestamp: Option<string>,
    extra: map<string, Value>)

  datatype KubernetesObject = KubernetesObject(
    apiVersion: string, kind: string, metadata: ObjectMeta,
    spec: Option<Value>, status: Option<Value>, extra: map<string, Value>)

  datatype Precondition = Precondition(uid: string, resourceVersion: string)

  datatype Authority =
    | Managed(identity: string, sourceUid: string)
    | Existing(precondition: Precondition)

  datatype Ownership =
    | Auto
    | NoOwnership
    | Reference(ref: ObjectRef, blockOwnerDeletion: Option<bool>)

  datatype DeletePreconditions = DeletePreconditions(uid: string, resourceVersion: Option<string>)

  datatype PropagationPolicy = Foreground | Background | Orphan

  datatype DeleteOptions = DeleteOptions(
    propagationPolicy: Option<PropagationPolicy>, gracePeriodSeconds: Option<real>,
        preconditions: Option<DeletePreconditions>)

  datatype FinalizerMutation = AddFinalizer | RemoveFinalizer

  datatype Operation =
    | Apply(resource: KubernetesObject, fieldManager: Option<string>, force: Option<bool>,
            ownership: Option<Ownership>, connection: Option<string>, authority: Option<Authority>)
    | Patch(ref: ObjectRef, patch: seq<JsonPatch.Entry>, connection: Option<string>, authority: Option<Authority>)
    | Delete(ref: ObjectRef, options: Option<DeleteOptions>, connection: Option<string>, authority: Option<Authority>)
    | Status(status: Value, target: Option<ObjectRef>)
    | Event(warning: bool, reason: string, message: string, regarding: Option<ObjectRef>)
    | Finalizer(mutation: FinalizerMutation, finalizer: string)
    | Requeue(afterSeconds: Option<real>)

  datatype Kind = ApplyKind | PatchKind | DeleteKind | StatusKind | EventKind | FinalizerKind | RequeueKind

  datatype Summary = Summary(
    applied: nat, patched: nat, deleted: nat, statusPatched: nat, eventsRecorded: nat, finalizersMutated: nat,
        requeued: nat)
  {
    function Completed(): nat {
      applied + patched + deleted + statusPatched + eventsRecorded + finalizersMutated + requeued
    }
  }

  datatype Fault =
    | OrderNotCanonical
    | IncompleteRef | NamespaceRequired | NamespaceForbidden
    | EmptyApiVersion | EmptyKind | EmptyName
    | ServerPopulatedField(field: string)
    | EmptyFieldManager | FieldManagerTooLong | FieldManagerControlCharacter
    | OwnershipWithExplicitReferences | OwnerWithoutUid | OwnerIsResource | OwnerCrossesNamespaces
        | NamespacedOwnerOfClusterResource
    | BadConnectionAlias | ConnectionNeedsNoOwnership | MoreThanOneConnection
    | AuthorityWithoutConnection | ConnectionWithoutAuthority | ApplyNeedsManagedAuthority
    | EmptyManagedIdentity | OwnerUidRequired | SourceUidMismatch | EmptyExistingPrecondition
    | EmptyPatch | PathNotPointer | ValueRequired | ValueForbidden | FromForbidden | FromNotPointer
    | NegativeGracePeriod | FractionalGracePeriod | EmptyPreconditionUid | EmptyPreconditionVersion
    | StatusNotObject | EmptyReason | EmptyMessage | EventNotNamespaced
    | UnqualifiedFinalizer | NegativeRequeue
    | MissingMetadata | AnnotationsNotObject | LabelsNotObject
    | TargetWithoutUid | TargetWithoutVersion | StalePrecondition | IdentityNotProven
    | ConnectionNotResolved | BadApiVersion
    | CleanupWithoutUid | CleanupWithoutVersion | DeclaredPreconditionsDiffer

  datatype Error =
    | InvalidOperation(index: nat, fault: Fault)
    | InvalidPayload(fault: Fault)
    | UnsupportedOperation(fault: Fault)
    | Kubernetes(cause: ApiServer.ApiError)
    | OperationFailed(failedIndex: nat, kind: Kind, fieldManager: Option<string>, progress: Summary, error: Error)
}
