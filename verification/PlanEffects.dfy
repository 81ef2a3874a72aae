/** What one operation of a plan does: its target, its calls, and the state they leave. */
module PlanEffects {
  import opened Wrappers
  import opened Json
  import JsonPatch
  import opened Contract
  import opened ApiServer
  import opened RemoteAuthority
  import opened OwnershipCleanup
  import opened GuardedMutation
  import opened ApplyDocument
  import opened PlanValidation
  import opened RemoteApply
  import opened RemoteApplyClient
  import opened Finalizers
  import opened TargetDocuments
  import opened Text

  const REMOTE_FIELD_MANAGER := "applik8s-remote"

  /** How an applier is set up. */
  datatype Settings = Settings(fieldManager: string, forceStatus: bool, connections: set<string>)

  // ----- Field managers -----

  /** The manager an apply is sent under. */
  function EffectiveManager(op: Operation, default: string): string
    requires op.Apply?
  {
    op.fieldManager.GetOr(if op.connection.Some? then REMOTE_FIELD_MANAGER else default)
  }

  /** The manager a failure report names. */
  function ReportedManager(op: Operation, default: string): Option<string> {
    match op
    case Apply(_, fieldManager, _, _, _, _) => Some(fieldManager.GetOr(default))
    case Status(_, _) => Some(default)
    case _ => None
  }

  /** The report names the manager that was used, except for a remote apply that leaves it to the
      default: then it names the local default. */
  lemma ReportNamesEffectiveManager(op: Operation, default: string)
    requires op.Apply?
    ensures ReportedManager(op, default) == Some(EffectiveManager(op, default))
            <==> op.fieldManager.Some? || op.connection.None? || default == REMOTE_FIELD_MANAGER
  {
  }

  /** A remote apply that sets no manager. */
  lemma DefaultManagers(op: Operation, default: string)
    requires op.Apply? && op.connection.Some? && op.fieldManager.None?
    ensures EffectiveManager(op, default) == REMOTE_FIELD_MANAGER && ReportedManager(op, default) == Some(default)
  {
  }

  const WITNESS_OWNER := ObjectRef("v1", "ConfigMap", "o", Some("d"), Some("u"), None)

  const WITNESS_APPLY := Apply(
    KubernetesObject("v1", "ConfigMap",
        ObjectMeta("n", Some("d"), None, None, None, None, None, None, None, None, map[]), None, None, map[]),
    None, None, Some(NoOwnership), Some("e"), Some(Managed("i", "u")))

  /** An accepted plan whose failure report names a manager that was not used. */
  lemma AcceptedPlanMisreports(default: string)
    requires default != REMOTE_FIELD_MANAGER
    ensures Accepted(WITNESS_OWNER, [WITNESS_APPLY])
    ensures IsManagedApply(WITNESS_APPLY) && Decoded(WITNESS_APPLY.resource)
        && ApiVersionSplits(WITNESS_APPLY.resource.apiVersion)
    ensures ReportedManager(WITNESS_APPLY, default) == Some(default) != Some(EffectiveManager(WITNESS_APPLY, default))
  {
    NotBlank();
    assert KnownScope("v1", "ConfigMap") == Some(Namespaced);
    assert Utf8Length("e") == 1;
    assert ValidateOperation(WITNESS_OWNER, WITNESS_APPLY, 0).Success?;
  }

  lemma NotBlank()
    ensures !Blank("v1") && !Blank("ConfigMap") && !Blank("o") && !Blank("n") && !Blank("u") && !Blank("i")
  {
    assert !IsWhitespace("v1"[0]) && !IsWhitespace("ConfigMap"[0]) && !IsWhitespace("o"[0]);
    assert !IsWhitespace("n"[0]) && !IsWhitespace("u"[0]) && !IsWhitespace("i"[0]);
  }

  // ----- One operation -----

  predicate ApiVersionSplits(apiVersion: string) {
    if '/' in apiVersion then apiVersion[0] != '/' && SplitsAfter(apiVersion[1..]) else apiVersion != ""
  }

  /** The first slash is not the last character. */
  predicate SplitsAfter(s: string) {
    if s == "" then false else if s[0] == '/' then |s| > 1 else SplitsAfter(s[1..])
  }

  /** A write that belongs to an operation: to its target, under its authority. */
  predicate CommitOf(owner: ObjectRef, op: Operation, c: Commit) {
    TargetKey(owner, op) == Some(c.key) && Authorised(OperationAuthority(op), c.key, c)
  }

  function Resolve(settings: Settings, connection: Option<string>, apiVersion: string): Result<(), Error> {
    if !ApiVersionSplits(apiVersion) then Failure(InvalidPayload(BadApiVersion))
    else if connection.Some? && connection.value !in settings.connections then
      Failure(InvalidPayload(ConnectionNotResolved))
    else Success(())
  }

  function Stored(r: Result<(State, Value), ApiError>): Result<State, Error> {
    match r
    case Success((next, _)) => Success(next)
    case Failure(e) => Failure(Kubernetes(e))
  }

  function Submitted(settings: Settings, owner: ObjectRef, op: Operation): Result<Value, Error>
    requires op.Apply? && Decoded(op.resource)
  {
    var _ :- Resolve(settings, op.connection, op.resource.apiVersion);
    ApplyPatchDocument(owner, op.resource, op.ownership)
  }

  /** The authority read of a mutation. */
  function Verified(seen: State, key: Key, authority: Authority): Result<Precondition, Error> {
    if key in seen.objects then VerifyRemoteObject(seen.objects[key], authority) else Failure(Kubernetes(NotFound))
  }

  /** The entries a patch sends after what it saw. */
  function SentPatch(op: Operation, seen: State, key: Key): Result<seq<JsonPatch.Entry>, Error>
    requires op.Patch?
  {
    if op.authority.None? then Success(op.patch)
    else
      var precondition :- Verified(seen, key, op.authority.value);
      Success(Guards(precondition) + op.patch)
  }

  /** The uid and resourceVersion a delete demands after what it saw; under an authority declared
      preconditions must be the verified pair. */
  function SentPreconditions(op: Operation, seen: State, key: Key): Result<(Option<string>, Option<string>), Error>
    requires op.Delete?
  {
    var declared := Declared(op.options);
    if op.authority.None? then Success(declared)
    else
      var precondition :- Verified(seen, key, op.authority.value);
      var pair := (Some(precondition.uid), Some(precondition.resourceVersion));
      if declared.0.Some? && declared != pair then Failure(UnsupportedOperation(DeclaredPreconditionsDiffer))
          else Success(pair)
  }

  function Declared(options: Option<DeleteOptions>): (Option<string>, Option<string>) {
    if options.Some? && options.value.preconditions.Some? then
      (Some(options.value.preconditions.value.uid), options.value.preconditions.value.resourceVersion)
    else (None, None)
  }

  /** Deleting what is not there counts as done. */
  function Deleted(at: State, r: Result<State, ApiError>): Result<State, Error> {
    match r
    case Success(next) => Success(next)
    case Failure(e) => if e == NotFound then Success(at) else Failure(Kubernetes(e))
  }

  /** What an operation makes of the server at the second state, after what it read at the first.
      (Managed remote applies make several calls; they are runs of the protocol instead.) */
  function Carried(settings: Settings, owner: ObjectRef, op: Operation, seen: State, at: State): Result<State, Error>
    requires WellFormed(at) && (op.Apply? ==> Decoded(op.resource))
  {
    match op
    case Apply(resource, _, force, _, connection, _) =>
      var doc :- Submitted(settings, owner, op);
      Stored(ApplyResult(at, ObjectKey(connection, resource), EffectiveManager(op, settings.fieldManager),
          force.GetOr(false), doc))
    case Patch(ref, _, connection, _) =>
      var _ :- Resolve(settings, connection, ref.apiVersion);
      var entries :- SentPatch(op, seen, RefKey(connection, ref));
      Stored(PatchResult(at, RefKey(connection, ref), entries))
    case Delete(ref, _, connection, _) =>
      var _ :- Resolve(settings, connection, ref.apiVersion);
      var pair :- SentPreconditions(op, seen, RefKey(connection, ref));
      Deleted(at, DeleteResult(at, RefKey(connection, ref), pair.0, pair.1))
    case Status(status, target) =>
      var ref := target.GetOr(owner);
      var _ :- Resolve(settings, None, ref.apiVersion);
      Stored(StatusResult(at, RefKey(None, ref), settings.fieldManager, settings.forceStatus,
          StatusDocument(ref, status)))
    case Event(warning, reason, message, regarding) =>
      if EventNamespace(owner, regarding).None? then Failure(InvalidPayload(EventNotNamespaced))
      else
        var r := CreateResult(at, EventKey(owner, reason, regarding), "", "Update",
            EventDocument(owner, warning, reason, message, regarding));
        if r == Failure(AlreadyExists) then Success(at) else Stored(r)
    case Finalizer(mutation, finalizer) =>
      var _ :- Resolve(settings, None, owner.apiVersion);
      var key := RefKey(None, owner);
      if key !in seen.objects then Failure(Kubernetes(NotFound))
      else
        var list := Edited(FinalizerList(seen.objects[key]), mutation, finalizer);
        Stored(ApplyResult(at, key, settings.fieldManager, false, FinalizerDocument(owner, list)))
    case Requeue(_) => Success(at)
  }

  /** The write the server logs for it: none for a requeue, for a delete of nothing, for an event that
      exists, or after a failure. */
  function Logged(settings: Settings, owner: ObjectRef, op: Operation, seen: State, at: State): seq<Commit>
    requires WellFormed(at) && (op.Apply? ==> Decoded(op.resource))
  {
    match TargetKey(owner, op)
    case None => []
    case Some(key) =>
      var r := Carried(settings, owner, op, seen, at);
      if r.Failure? || (op.Delete? && key !in at.objects) || (op.Event? && key in at.objects) then []
      else [Commit(key, At(at, key), At(r.value, key))]
  }

  /** One executed operation: the server when the operation read what it decides on, when its write
      arrived, and when it was answered; the writes logged for it; the steps of a managed remote apply. */
  datatype Span = Span(seen: State, at: State, now: State, made: seq<Commit>, trace: seq<Sys>, actors: seq<Actor>)

  function Idle(s: State): Span {
    Span(s, s, s, [], [], [])
  }

  function Called(settings: Settings, owner: ObjectRef, op: Operation, seen: State, at: State, now: State): Span
    requires WellFormed(at) && (op.Apply? ==> Decoded(op.resource))
  {
    Span(seen, at, now, Logged(settings, owner, op, seen, at), [], [])
  }

  predicate IsManagedApply(op: Operation) {
    op.Apply? && op.authority.Some? && op.authority.value.Managed?
  }

  function JobOf(settings: Settings, op: Operation, doc: Value): Job
    requires IsManagedApply(op)
  {
    Job(ObjectKey(op.connection, op.resource), doc, EffectiveManager(op, settings.fieldManager),
        op.force.GetOr(false), op.authority.value.identity, op.authority.value.sourceUid)
  }

  /** A run of the protocol, without restarts, from its first step to the end reported. */
  ghost predicate WentThrough(job: Job, span: Span, r: Result<(), Error>) {
    && span.seen == span.at
    && Tracks(job, span.now, span.made, if r.Success? then Done else Failed(r.error), Run([], span.trace, span.actors))
    && span.trace[0] == Sys(span.at, Begin)
  }

  /** The answer of an operation, and all that happened on the server meanwhile. */
  ghost predicate Answered(settings: Settings, owner: ObjectRef, op: Operation, span: Span, r: Result<(), Error>) {
    && (op.Apply? ==> Decoded(op.resource)) && WellFormed(span.at) && Evolves(span.seen, span.at)
    && if IsManagedApply(op) then
         match Submitted(settings, owner, op)
         case Failure(e) => r == Failure(e) && span.now == span.at && span.made == []
         case Success(_) =>
           var doc := ManagedDocument(owner, op, op.authority.value.identity, op.authority.value.sourceUid);
           doc.Success? && WentThrough(JobOf(settings, op, doc.value), span, r)
       else
         && span.made == Logged(settings, owner, op, span.seen, span.at)
         && match Carried(settings, owner, op, span.seen, span.at)
            case Success(next) => r == Success(()) && span.now == next
            case Failure(e) => r == Failure(e) && span.now == span.at
  }

  /** A call that stores what it returns logs exactly that. */
  lemma StoredCall(settings: Settings, owner: ObjectRef, op: Operation, seen: State, at: State, key: Key,
      result: Result<(State, Value), ApiError>)
    requires WellFormed(at) && (op.Apply? ==> Decoded(op.resource)) && !op.Delete? && !op.Event?
        && TargetKey(owner, op) == Some(key)
    requires Carried(settings, owner, op, seen, at) == Stored(result)
    requires result.Success? ==> At(result.value.0, key) == Some(result.value.1)
    ensures Logged(settings, owner, op, seen, at)
        == if result.Success? then [Commit(key, At(at, key), Some(result.value.1))] else []
  {
  }

  /** The create of an event: done when it exists, logged when it is created. */
  lemma EventCall(settings: Settings, owner: ObjectRef, op: Operation, at: State)
    requires WellFormed(at) && op.Event? && EventNamespace(owner, op.regarding).Some?
    ensures var key := EventKey(owner, op.reason, op.regarding);
            match CreateResult(at, key, "", "Update",
                EventDocument(owner, op.warning, op.reason, op.message, op.regarding))
            case Success((next, stored)) =>
              && Carried(settings, owner, op, at, at) == Success(next)
              && Logged(settings, owner, op, at, at) == [Commit(key, None, Some(stored))]
            case Failure(e) =>
              && Carried(settings, owner, op, at, at)
                  == (if e == AlreadyExists then Success(at) else Failure(Kubernetes(e)))
              && Logged(settings, owner, op, at, at) == []
  {
  }

  // A call changes no other key than its own.

  lemma ApplyElsewhere(s: State, key: Key, manager: string, force: bool, doc: Value, other: Key)
    requires WellFormed(s) && other != key
    ensures var r := ApplyResult(s, key, manager, force, doc);
            r.Success? ==> At(r.value.0, other) == At(s, other)
  {
  }

  lemma PatchElsewhere(s: State, key: Key, entries: seq<JsonPatch.Entry>, other: Key)
    requires WellFormed(s) && other != key
    ensures var r := PatchResult(s, key, entries);
            r.Success? ==> At(r.value.0, other) == At(s, other)
  {
  }

  lemma DeleteElsewhere(s: State, key: Key, pair: (Option<string>, Option<string>), other: Key)
    requires other != key
    ensures var r := DeleteResult(s, key, pair.0, pair.1);
            r.Success? ==> At(r.value, other) == At(s, other)
  {
  }

  lemma StatusElsewhere(s: State, key: Key, manager: string, force: bool, doc: Value, other: Key)
    requires WellFormed(s) && other != key
    ensures var r := StatusResult(s, key, manager, force, doc);
            r.Success? ==> At(r.value.0, other) == At(s, other)
  {
  }

  /** An operation changes no other object than its target. */
  lemma CarriedElsewhere(settings: Settings, owner: ObjectRef, op: Operation, seen: State, at: State, other: Key)
    requires WellFormed(at) && (op.Apply? ==> Decoded(op.resource)) && TargetKey(owner, op) != Some(other)
    ensures var r := Carried(settings, owner, op, seen, at);
            r.Success? ==> At(r.value, other) == At(at, other)
  {
    if Carried(settings, owner, op, seen, at).Success? {
      match op {
        case Apply(resource, _, force, _, connection, _) =>
          var key, manager := ObjectKey(connection, resource), EffectiveManager(op, settings.fieldManager);
          ApplyElsewhere(at, key, manager, force.GetOr(false), Submitted(settings, owner, op).value, other);
        case Patch(ref, _, connection, _) =>
          var key := RefKey(connection, ref);
          PatchElsewhere(at, key, SentPatch(op, seen, key).value, other);
        case Delete(ref, _, connection, _) =>
          var key := RefKey(connection, ref);
          DeleteElsewhere(at, key, SentPreconditions(op, seen, key).value, other);
        case Status(status, target) =>
          var ref := target.GetOr(owner);
          StatusElsewhere(at, RefKey(None, ref), settings.fieldManager, settings.forceStatus,
              StatusDocument(ref, status), other);
        case Finalizer(mutation, finalizer) =>
          var key := RefKey(None, owner);
          var list := Edited(FinalizerList(seen.objects[key]), mutation, finalizer);
          ApplyElsewhere(at, key, settings.fieldManager, false, FinalizerDocument(owner, list), other);
        case _ =>
      }
    }
  }

  /** Whatever an operation leaves is a state that this server can be in next. */
  lemma CarriedEvolves(settings: Settings, owner: ObjectRef, op: Operation, seen: State, at: State)
    requires WellFormed(at) && (op.Apply? ==> Decoded(op.resource))
    ensures var r := Carried(settings, owner, op, seen, at);
            r.Success? ==> WellFormed(r.value) && Evolves(at, r.value)
  {
    if Carried(settings, owner, op, seen, at).Success? {
      match op {
        case Apply(resource, _, force, _, connection, _) =>
          var key, manager := ObjectKey(connection, resource), EffectiveManager(op, settings.fieldManager);
          ApplyEvolves(at, key, manager, force.GetOr(false), Submitted(settings, owner, op).value);
        case Patch(ref, _, connection, _) =>
          PatchEvolves(at, RefKey(connection, ref), SentPatch(op, seen, RefKey(connection, ref)).value);
        case Delete(_, _, _, _) =>
        case Status(status, target) =>
          var ref := target.GetOr(owner);
          StatusEvolves(at, RefKey(None, ref), settings.fieldManager, settings.forceStatus,
              StatusDocument(ref, status));
        case Event(warning, reason, message, regarding) =>
          CreateEvolves(at, EventKey(owner, reason, regarding), "", "Update",
              EventDocument(owner, warning, reason, message, regarding));
        case Finalizer(mutation, finalizer) =>
          var key := RefKey(None, owner);
          var list := Edited(FinalizerList(seen.objects[key]), mutation, finalizer);
          ApplyEvolves(at, key, settings.fieldManager, false, FinalizerDocument(owner, list));
        case Requeue(_) =>
      }
    }
  }

  // ----- What an answer means -----

  /** The operation without its authority. */
  function Bare(op: Operation): Operation
    requires op.Patch? || op.Delete?
  {
    op.(authority := None)
  }

  /** Either nothing of the operation succeeded, or it did what it would do without an authority, to an
      object that has not changed since it was read and proves the authority (or found nothing to delete). */
  ghost predicate Narrowed(settings: Settings, owner: ObjectRef, op: Operation, seen: State, at: State)
    requires (op.Patch? || op.Delete?) && op.authority.Some? && WellFormed(at)
  {
    var r := Carried(settings, owner, op, seen, at);
    var key := RefKey(op.connection, op.ref);
    r.Success? ==>
      && r == Carried(settings, owner, Bare(op), at, at)
      && if key in at.objects then At(seen, key) == At(at, key) && Proves(at.objects[key], op.authority.value)
          else op.Delete?
  }

  lemma PatchNarrows(settings: Settings, owner: ObjectRef, op: Operation, seen: State, at: State)
    requires op.Patch? && op.authority.Some?
    requires WellFormed(seen) && WellFormed(at) && Evolves(seen, at)
    ensures Narrowed(settings, owner, op, seen, at)
  {
    var key := RefKey(op.connection, op.ref);
    var verified := Verified(seen, key, op.authority.value);
    if verified.Success? {
      GuardedPatchHitsVerified(seen, at, key, verified.value, op.patch);
    }
  }

  lemma DeleteNarrows(settings: Settings, owner: ObjectRef, op: Operation, seen: State, at: State)
    requires op.Delete? && op.authority.Some?
    requires WellFormed(seen) && WellFormed(at) && Evolves(seen, at)
    ensures Narrowed(settings, owner, op, seen, at)
  {
    var key := RefKey(op.connection, op.ref);
    var verified := Verified(seen, key, op.authority.value);
    if verified.Success? {
      GuardedDeleteHitsVerified(seen, at, key, verified.value);
    }
  }

  /** The writes of an accepted operation go to its target, within its authority. */
  lemma AnsweredWithinAuthority(settings: Settings, owner: ObjectRef, op: Operation, index: nat, span: Span,
      r: Result<(), Error>)
    requires ValidateOperation(owner, op, index).Success? && WellFormed(span.seen)
    requires Answered(settings, owner, op, span, r)
    ensures forall c :: c in span.made ==> CommitOf(owner, op, c)
  {
    if IsManagedApply(op) {
      if Submitted(settings, owner, op).Success? {
        ManagedWithinAuthority(settings, owner, op, index, span, r);
      }
    } else if OperationAuthority(op).None? {
      LoggedAtTarget(settings, owner, op, span.seen, span.at);
    } else {
      AcceptedApplyIsManaged(owner, op, index);
      MutationWithinAuthority(settings, owner, op, span.seen, span.at);
    }
  }

  lemma AcceptedApplyIsManaged(owner: ObjectRef, op: Operation, index: nat)
    requires ValidateOperation(owner, op, index).Success?
    ensures op.Apply? && op.authority.Some? ==> IsManagedApply(op)
  {
  }

  lemma MutationWithinAuthority(settings: Settings, owner: ObjectRef, op: Operation, seen: State, at: State)
    requires (op.Patch? || op.Delete?) && op.authority.Some?
    requires WellFormed(seen) && WellFormed(at) && Evolves(seen, at)
    ensures forall c :: c in Logged(settings, owner, op, seen, at) ==> CommitOf(owner, op, c)
  {
    LoggedAtTarget(settings, owner, op, seen, at);
    match op {
      case Patch(_, _, _, _) => PatchNarrows(settings, owner, op, seen, at);
      case Delete(_, _, _, _) => DeleteNarrows(settings, owner, op, seen, at);
    }
  }

  /** What is logged replaces what the target holds when the call arrives. */
  lemma LoggedAtTarget(settings: Settings, owner: ObjectRef, op: Operation, seen: State, at: State)
    requires WellFormed(at) && (op.Apply? ==> Decoded(op.resource))
    ensures forall c :: c in Logged(settings, owner, op, seen, at) ==>
              && TargetKey(owner, op) == Some(c.key) && c.before == At(at, c.key)
              && Carried(settings, owner, op, seen, at).Success?
              && (op.Delete? || op.Patch? ==> c.key in at.objects)
  {
  }

  lemma ManagedWithinAuthority(settings: Settings, owner: ObjectRef, op: Operation, index: nat, span: Span,
      r: Result<(), Error>)
    requires IsManagedApply(op) && ValidateOperation(owner, op, index).Success?
    requires Answered(settings, owner, op, span, r) && Submitted(settings, owner, op).Success?
    ensures forall c :: c in span.made ==> CommitOf(owner, op, c)
  {
    var doc := ManagedDocument(owner, op, op.authority.value.identity, op.authority.value.sourceUid);
    var job := JobOf(settings, op, doc.value);
    AcceptedApplyIsPrepared(owner, op, index, job.manager, job.force);
    RunCommitsAuthorised(job, span.trace, span.actors);
    assert job.Authority() == op.authority.value;
  }

  /** A failed operation other than a managed apply leaves the server as its call found it. */
  lemma FailureWritesNothing(settings: Settings, owner: ObjectRef, op: Operation, span: Span, r: Result<(), Error>)
    requires Answered(settings, owner, op, span, r) && r.Failure? && !IsManagedApply(op)
    ensures span.now == span.at && span.made == []
  {
  }
}
