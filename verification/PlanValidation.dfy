/** Validation of a whole plan before its first effect. */
module PlanValidation {
  import opened Wrappers
  import opened Json
  import JsonPatch
  import opened Contract
  import opened ApiServer
  import opened RemoteAuthority
  import opened ApplyDocument
  import opened RemoteApply
  import opened Text

  // ----- Scopes and references -----

  datatype Scope = Namespaced | ClusterWide

  const SCOPES: seq<(string, string, Scope)> := [
    ("v1", "ConfigMap", Namespaced), ("v1", "Secret", Namespaced), ("v1", "Service", Namespaced),
    ("v1", "ServiceAccount", Namespaced), ("v1", "Pod", Namespaced), ("v1", "PersistentVolumeClaim", Namespaced),
    ("v1", "Event", Namespaced), ("v1", "Namespace", ClusterWide), ("v1", "PersistentVolume", ClusterWide),
    ("apps/v1", "Deployment", Namespaced), ("apps/v1", "StatefulSet", Namespaced),
    ("apps/v1", "DaemonSet", Namespaced), ("apps/v1", "ReplicaSet", Namespaced),
    ("batch/v1", "Job", Namespaced), ("batch/v1", "CronJob", Namespaced),
    ("rbac.authorization.k8s.io/v1", "Role", Namespaced),
    ("rbac.authorization.k8s.io/v1", "RoleBinding", Namespaced),
    ("rbac.authorization.k8s.io/v1", "ClusterRole", ClusterWide),
    ("rbac.authorization.k8s.io/v1", "ClusterRoleBinding", ClusterWide),
    ("apiextensions.k8s.io/v1", "CustomResourceDefinition", ClusterWide),
    ("storage.k8s.io/v1", "StorageClass", ClusterWide)
  ]

  function KnownScope(apiVersion: string, kind: string): Option<Scope> {
    ScopeIn(SCOPES, apiVersion, kind)
  }

  function ScopeIn(table: seq<(string, string, Scope)>, apiVersion: string, kind: string): Option<Scope> {
    if table == [] then None
    else if table[0].0 == apiVersion && table[0].1 == kind then Some(table[0].2)
    else ScopeIn(table[1..], apiVersion, kind)
  }

  function ScopeFault(apiVersion: string, kind: string, namespace: Option<string>): Option<Fault> {
    match KnownScope(apiVersion, kind)
    case Some(Namespaced) => if namespace.GetOr("") == "" then Some(NamespaceRequired) else None
    case Some(ClusterWide) => if namespace.GetOr("") != "" then Some(NamespaceForbidden) else None
    case None => None
  }

  function ValidateRef(ref: ObjectRef): Result<(), Error> {
    if Blank(ref.apiVersion) || Blank(ref.kind) || Blank(ref.name) then Failure(InvalidPayload(IncompleteRef))
    else
      match ScopeFault(ref.apiVersion, ref.kind, ref.namespace)
      case Some(fault) => Failure(InvalidPayload(fault))
      case None => Success(())
  }

  // ----- One operation -----

  function Check(holds: bool, index: nat, fault: Fault): Result<(), Error> {
    if holds then Success(()) else Failure(InvalidOperation(index, fault))
  }

  function ValidateConnection(connection: Option<string>, index: nat): Result<(), Error> {
    match connection
    case None => Success(())
    case Some(alias) =>
      Check(
        && alias != "" && Utf8Length(alias) <= 63 && 'a' <= alias[0] <= 'z'
        && forall i :: 0 <= i < |alias| ==> 'a' <= alias[i] <= 'z' || '0' <= alias[i] <= '9' || alias[i] == '-',
        index, BadConnectionAlias)
  }

  function ServerPopulated(meta: ObjectMeta): Option<string> {
    if meta.uid.Some? then Some("uid")
    else if meta.resourceVersion.Some? then Some("resourceVersion")
    else if meta.generation.Some? then Some("generation")
    else if meta.deletionTimestamp.Some? then Some("deletionTimestamp")
    else if meta.creationTimestamp.Some? then Some("creationTimestamp")
    else if "managedFields" in meta.extra then Some("managedFields")
    else if "selfLink" in meta.extra then Some("selfLink")
    else None
  }

  function ValidateObject(resource: KubernetesObject, index: nat): Result<(), Error> {
    if Blank(resource.apiVersion) then Failure(InvalidOperation(index, EmptyApiVersion))
    else if Blank(resource.kind) then Failure(InvalidOperation(index, EmptyKind))
    else if Blank(resource.metadata.name) then Failure(InvalidOperation(index, EmptyName))
    else
      match ScopeFault(resource.apiVersion, resource.kind, resource.metadata.namespace)
      case Some(fault) => Failure(InvalidOperation(index, fault))
      case None =>
        match ServerPopulated(resource.metadata)
        case Some(field) => Failure(InvalidOperation(index, ServerPopulatedField(field)))
        case None => Success(())
  }

  function ValidateFieldManager(manager: Option<string>, index: nat): Result<(), Error> {
    match manager
    case None => Success(())
    case Some(name) =>
      if Blank(name) then Failure(InvalidOperation(index, EmptyFieldManager))
      else if Utf8Length(name) > 128 then Failure(InvalidOperation(index, FieldManagerTooLong))
      else Check(forall i :: 0 <= i < |name| ==> !IsControl(name[i]), index, FieldManagerControlCharacter)
  }

  function ValidateOwnership(resource: KubernetesObject, ownership: Option<Ownership>, index: nat): Result<(), Error> {
    match ownership
    case Some(Reference(ref, _)) =>
      if HasExplicitOwners(resource) then Failure(InvalidOperation(index, OwnershipWithExplicitReferences))
      else
        (match ValidateOwnerSelection(ref, resource)
         case Failure(fault) => Failure(InvalidOperation(index, fault))
         case Success(_) => Success(()))
    case _ => Success(())
  }

  predicate IsPointer(s: string) {
    s != "" && s[0] == '/'
  }

  function ValidatePatchEntry(entry: JsonPatch.Entry, index: nat): Result<(), Error> {
    if !IsPointer(entry.path) then Failure(InvalidOperation(index, PathNotPointer))
    else
      match entry.op
      case Remove =>
        if entry.value.Some? then Failure(InvalidOperation(index, ValueForbidden))
        else Check(entry.from.None?, index, FromForbidden)
      case Move => ValidateOperand(entry, index)
      case Copy => ValidateOperand(entry, index)
      case _ =>
        if entry.value.None? then Failure(InvalidOperation(index, ValueRequired))
        else Check(entry.from.None?, index, FromForbidden)
  }

  function ValidateOperand(entry: JsonPatch.Entry, index: nat): Result<(), Error> {
    if entry.from.None? || !IsPointer(entry.from.value) then Failure(InvalidOperation(index, FromNotPointer))
    else Check(entry.value.None?, index, ValueForbidden)
  }

  function ValidatePatch(entries: seq<JsonPatch.Entry>, index: nat): Result<(), Error> {
    if entries == [] then Success(())
    else
      var _ :- ValidatePatchEntry(entries[0], index);
      ValidatePatch(entries[1..], index)
  }

  function ValidateDeleteOptions(options: Option<DeleteOptions>, index: nat): Result<(), Error> {
    match options
    case None => Success(())
    case Some(DeleteOptions(_, grace, preconditions)) =>
      if grace.Some? && grace.value < 0.0 then Failure(InvalidOperation(index, NegativeGracePeriod))
      else if grace.Some? && grace.value.Floor as real != grace.value then
          Failure(InvalidOperation(index, FractionalGracePeriod))
      else
        match preconditions
        case None => Success(())
        case Some(DeletePreconditions(uid, version)) =>
          if Blank(uid) then Failure(InvalidOperation(index, EmptyPreconditionUid))
          else Check(version != Some(""), index, EmptyPreconditionVersion)
  }

  function ValidateEventTarget(owner: ObjectRef, regarding: Option<ObjectRef>, index: nat): Result<(), Error> {
    var target := regarding.GetOr(owner);
    var _ :- if regarding.Some? then ValidateRef(target) else Success(());
    Check(target.namespace.GetOr("") != "", index, EventNotNamespaced)
  }

  function ValidateOperation(owner: ObjectRef, op: Operation, index: nat): Result<(), Error> {
    match op
    case Apply(resource, manager, _, ownership, connection, authority) =>
      var _ :- ValidateObject(resource, index);
      var _ :- ValidateFieldManager(manager, index);
      var _ :- ValidateOwnership(resource, ownership, index);
      var _ :- ValidateConnection(connection, index);
      var _ :- Check(connection.None? || ownership == Some(NoOwnership), index, ConnectionNeedsNoOwnership);
      ValidateRemoteAuthority(owner, connection, authority, index, true)
    case Patch(ref, patch, connection, authority) =>
      var _ :- ValidateRef(ref);
      var _ :- ValidateConnection(connection, index);
      var _ :- Check(patch != [], index, EmptyPatch);
      var _ :- ValidatePatch(patch, index);
      ValidateRemoteAuthority(owner, connection, authority, index, false)
    case Delete(ref, options, connection, authority) =>
      var _ :- ValidateRef(ref);
      var _ :- ValidateConnection(connection, index);
      var _ :- ValidateDeleteOptions(options, index);
      ValidateRemoteAuthority(owner, connection, authority, index, false)
    case Status(status, target) =>
      var _ :- Check(status.Object?, index, StatusNotObject);
      if target.Some? then ValidateRef(target.value) else Success(())
    case Event(_, reason, message, regarding) =>
      var _ :- Check(!Blank(reason), index, EmptyReason);
      var _ :- Check(!Blank(message), index, EmptyMessage);
      ValidateEventTarget(owner, regarding, index)
    case Finalizer(_, finalizer) =>
      Check(!Blank(finalizer) && '/' in finalizer, index, UnqualifiedFinalizer)
    case Requeue(after) =>
      Check(after.None? || after.value >= 0.0, index, NegativeRequeue)
  }

  // ----- The whole plan -----

  function Order(op: Operation): nat {
    match op
    case Finalizer(AddFinalizer, _) => 0
    case Apply(_, _, _, _, _, _) => 1
    case Patch(_, _, _, _) => 2
    case Delete(_, _, _, _) => 3
    case Status(_, _) => 4
    case Event(_, _, _, _) => 5
    case Finalizer(RemoveFinalizer, _) => 6
    case Requeue(_) => 7
  }

  function Connection(op: Operation): Option<string> {
    match op
    case Apply(_, _, _, _, connection, _) => connection
    case Patch(_, _, connection, _) => connection
    case Delete(_, _, connection, _) => connection
    case _ => None
  }

  /** The first n operations are in canonical order. */
  predicate Ordered(ops: seq<Operation>, n: nat)
    requires n <= |ops|
  {
    forall i, j {:trigger Order(ops[i]), Order(ops[j])} :: 0 <= i < j < n ==> Order(ops[i]) <= Order(ops[j])
  }

  /** The first n operations are valid one by one. */
  predicate EachValid(owner: ObjectRef, ops: seq<Operation>, n: nat)
    requires n <= |ops|
  {
    forall i {:trigger ValidateOperation(owner, ops[i], i)} :: 0 <= i < n ==>
        ValidateOperation(owner, ops[i], i).Success?
  }

  predicate OneConnection(ops: seq<Operation>) {
    forall i, j :: 0 <= i < |ops| && 0 <= j < |ops| && Connection(ops[i]).Some? && Connection(ops[j]).Some? ==>
      Connection(ops[i]) == Connection(ops[j])
  }

  /** What an accepted plan is. */
  predicate Accepted(owner: ObjectRef, ops: seq<Operation>) {
    ValidateRef(owner).Success? && EachValid(owner, ops, |ops|) && Ordered(ops, |ops|) && OneConnection(ops)
  }

  /** The error for the first offending operation, the prefix before it being clean. */
  predicate FirstOffence(owner: ObjectRef, ops: seq<Operation>, k: nat, error: Error) {
    && k < |ops| && EachValid(owner, ops, k) && Ordered(ops, k)
    && (if Ordered(ops, k + 1) then ValidateOperation(owner, ops[k], k) == Failure(error)
        else error == InvalidOperation(k, OrderNotCanonical))
  }

  /** Why a plan is rejected: its owner, its first offending operation, or a second connection. */
  ghost predicate Rejected(owner: ObjectRef, ops: seq<Operation>, error: Error) {
    || ValidateRef(owner) == Failure(error)
    || (exists k :: FirstOffence(owner, ops, k, error))
    || (EachValid(owner, ops, |ops|) && Ordered(ops, |ops|) && !OneConnection(ops)
        && error == InvalidOperation(0, MoreThanOneConnection))
  }

  lemma AtMostOneElement(connections: set<string>)
    ensures |connections| <= 1 <==> forall a, b :: a in connections && b in connections ==> a == b
  {
    if |connections| > 1 {
      var a :| a in connections;
      assert |connections - {a}| >= 1;
      var b :| b in connections - {a};
    } else if connections != {} {
      var a :| a in connections;
      assert |connections - {a}| == 0;
      assert connections == {a};
    }
  }

  ghost predicate Collected(connections: set<string>, ops: seq<Operation>, n: nat)
    requires n <= |ops|
  {
    && (forall c :: c in connections ==> exists i :: 0 <= i < n && Connection(ops[i]) == Some(c))
    && (forall i {:trigger Connection(ops[i])} :: 0 <= i < n && Connection(ops[i]).Some? ==>
        Connection(ops[i]).value in connections)
  }

  lemma CollectedSize(connections: set<string>, ops: seq<Operation>)
    requires Collected(connections, ops, |ops|)
    ensures |connections| <= 1 <==> OneConnection(ops)
  {
    AtMostOneElement(connections);
    if OneConnection(ops) {
      forall a, b | a in connections && b in connections ensures a == b {
        var i :| 0 <= i < |ops| && Connection(ops[i]) == Some(a);
        var j :| 0 <= j < |ops| && Connection(ops[j]) == Some(b);
      }
    } else {
      var i, j :| 0 <= i < |ops| && 0 <= j < |ops| && Connection(ops[i]).Some? && Connection(ops[j]).Some?
                  && Connection(ops[i]) != Connection(ops[j]);
      assert Connection(ops[i]).value in connections && Connection(ops[j]).value in connections;
    }
  }

  lemma OrderedStep(ops: seq<Operation>, n: nat)
    requires n < |ops| && Ordered(ops, n)
    ensures Ordered(ops, n + 1) <==> (n == 0 || Order(ops[n - 1]) <= Order(ops[n]))
  {
  }

  lemma CollectedStep(before: set<string>, after: set<string>, ops: seq<Operation>, n: nat)
    requires n < |ops| && Collected(before, ops, n)
    requires after == if Connection(ops[n]).Some? then before + {Connection(ops[n]).value} else before
    ensures Collected(after, ops, n + 1)
  {
  }

  /** The loop's verdict on operation n, given a clean prefix: either the prefix grows or this is the
      first offence and the plan is not acceptable. */
  lemma VerdictOn(owner: ObjectRef, ops: seq<Operation>, n: nat)
    requires n < |ops| && EachValid(owner, ops, n) && Ordered(ops, n)
    ensures var inOrder := n == 0 || Order(ops[n - 1]) <= Order(ops[n]);
            var checked := ValidateOperation(owner, ops[n], n);
            if !inOrder then FirstOffence(owner, ops, n, InvalidOperation(n, OrderNotCanonical)) && !Ordered(ops, |ops|)
            else if checked.Failure? then FirstOffence(owner, ops, n, checked.error) && !EachValid(owner, ops, |ops|)
            else EachValid(owner, ops, n + 1) && Ordered(ops, n + 1)
  {
    OrderedStep(ops, n);
  }

  /** One turn of the loop: the order against the previous operation, then the operation itself. */
  method CheckOperation(owner: ObjectRef, ops: seq<Operation>, index: nat, previousOrder: nat)
    returns (r: Result<(), Error>)
    requires index < |ops| && EachValid(owner, ops, index) && Ordered(ops, index)
    requires previousOrder == if index == 0 then 0 else Order(ops[index - 1])
    ensures r.Success? ==> EachValid(owner, ops, index + 1) && Ordered(ops, index + 1)
    ensures r.Failure? ==> Rejected(owner, ops, r.error) && !Accepted(owner, ops)
  {
    VerdictOn(owner, ops, index);
    if Order(ops[index]) < previousOrder {
      return Failure(InvalidOperation(index, OrderNotCanonical));
    }
    r := ValidateOperation(owner, ops[index], index);
  }

  /** Accepts exactly the accepted plans; otherwise reports the owner, the first offending operation, or
      the second connection, in that order. */
  method ValidateOperationPlan(owner: ObjectRef, ops: seq<Operation>) returns (r: Result<(), Error>)
    ensures r.Success? <==> Accepted(owner, ops)
    ensures r.Failure? ==> Rejected(owner, ops, r.error)
  {
    var _ :- ValidateRef(owner);
    var previousOrder := 0;
    var connections: set<string> := {};
    for index := 0 to |ops|
      invariant EachValid(owner, ops, index) && Ordered(ops, index)
      invariant previousOrder == if index == 0 then 0 else Order(ops[index - 1])
      invariant Collected(connections, ops, index)
    {
      var checked := CheckOperation(owner, ops, index, previousOrder);
      if checked.Failure? {
        return checked;
      }
      previousOrder := Order(ops[index]);
      ghost var before := connections;
      if Connection(ops[index]).Some? {
        connections := connections + {Connection(ops[index]).value};
      }
      CollectedStep(before, connections, ops, index);
    }
    CollectedSize(connections, ops);
    if |connections| > 1 {
      return Failure(InvalidOperation(0, MoreThanOneConnection));
    }
    return Success(());
  }

  // ----- What acceptance buys the executor -----

  function ObjectKey(connection: Option<string>, resource: KubernetesObject): Key {
    Key(connection, resource.apiVersion, resource.kind, resource.metadata.namespace, resource.metadata.name)
  }

  lemma AcceptedApply(owner: ObjectRef, op: Operation, index: nat)
    requires op.Apply? && ValidateOperation(owner, op, index).Success?
    ensures op.connection.Some? ==>
        op.authority.Some? && op.authority.value.Managed? && op.ownership == Some(NoOwnership)
    ensures op.resource.metadata.resourceVersion.None?
    ensures OwnerReferences(owner, op.resource, op.ownership).Success?
  {
  }

  /** For an accepted apply every step of building the document succeeds; a remote one never carries an
      injected owner reference. */
  lemma PipelineIsTotal(owner: ObjectRef, op: Operation, index: nat)
    requires op.Apply? && Decoded(op.resource) && ValidateOperation(owner, op, index).Success?
    ensures ApplyPatchDocument(owner, op.resource, op.ownership).Success?
    ensures op.connection.Some? && !HasExplicitOwners(op.resource) ==>
              "ownerReferences" !in Meta(ApplyPatchDocument(owner, op.resource, op.ownership).value)
    ensures forall identity, sourceUid :: ManagedDocument(owner, op, identity, sourceUid).Success?
  {
    AcceptedApply(owner, op, index);
    OwnerReferencesOfDocument(owner, op.resource, op.ownership);
    forall identity, sourceUid ensures ManagedDocument(owner, op, identity, sourceUid).Success? {
      ManagementAlwaysInjects(owner, op.resource, op.ownership, identity, sourceUid);
    }
  }

  /** The document of an apply under managed remote authority. */
  function ManagedDocument(owner: ObjectRef, op: Operation, identity: string, sourceUid: string): Result<Value, Error>
    requires op.Apply? && Decoded(op.resource)
  {
    var doc :- ApplyPatchDocument(owner, op.resource, op.ownership);
    InjectManagement(doc, identity, sourceUid)
  }

  /** What the remote protocol relies on: an accepted managed apply is a prepared job, so the version
      precondition can always be injected and the document proves the identity. */
  lemma AcceptedApplyIsPrepared(owner: ObjectRef, op: Operation, index: nat, manager: string, force: bool)
    requires op.Apply? && Decoded(op.resource) && ValidateOperation(owner, op, index).Success?
    requires op.authority.Some? && op.authority.value.Managed?
    ensures var doc := ManagedDocument(owner, op, op.authority.value.identity, op.authority.value.sourceUid);
            && doc.Success?
            && Prepared(Job(ObjectKey(op.connection, op.resource), doc.value, manager, force,
                            op.authority.value.identity, op.authority.value.sourceUid))
            && forall version :: InjectPrecondition(doc.value, version).Success?
  {
    AcceptedApply(owner, op, index);
    OwnerReferencesOfDocumentSucceeds(owner, op.resource, op.ownership);
    ManagementAlwaysInjects(owner, op.resource, op.ownership, op.authority.value.identity,
        op.authority.value.sourceUid);
  }

  lemma OwnerReferencesOfDocumentSucceeds(owner: ObjectRef, resource: KubernetesObject, ownership: Option<Ownership>)
    requires Decoded(resource) && OwnerReferences(owner, resource, ownership).Success?
    ensures ApplyPatchDocument(owner, resource, ownership).Success?
  {
  }

  /** Recording an accepted event always finds a namespace. */
  lemma EventNamespaceExists(owner: ObjectRef, op: Operation, index: nat)
    requires op.Event? && ValidateOperation(owner, op, index).Success?
    ensures EventNamespace(owner, op.regarding).Some? && EventNamespace(owner, op.regarding).value != ""
  {
  }

  function EventNamespace(owner: ObjectRef, regarding: Option<ObjectRef>): Option<string> {
    var target := regarding.GetOr(owner);
    if target.namespace.Some? then target.namespace else owner.namespace
  }
}
