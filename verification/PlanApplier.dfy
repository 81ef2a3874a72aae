/** Execution of a plan against the API server: validate everything, then run the
    operations in order and stop at the first failure. */
module PlanApplier {
  import opened Wrappers
  import opened Sequences
  import opened Json
  import JsonPatch
  import opened Contract
  import opened ApiServer
  import opened RemoteAuthority
  import opened OwnershipCleanup
  import opened ApplyDocument
  import opened PlanValidation
  import opened RemoteApply
  import opened RemoteApplyClient
  import opened GuardedMutation
  import opened Finalizers
  import opened TargetDocuments
  import opened PlanEffects

  // ----- Counters -----

  const ZERO := Summary(0, 0, 0, 0, 0, 0, 0)

  function KindOf(op: Operation): Kind {
    match op
    case Apply(_, _, _, _, _, _) => ApplyKind
    case Patch(_, _, _, _) => PatchKind
    case Delete(_, _, _, _) => DeleteKind
    case Status(_, _) => StatusKind
    case Event(_, _, _, _) => EventKind
    case Finalizer(_, _) => FinalizerKind
    case Requeue(_) => RequeueKind
  }

  function Count(ops: seq<Operation>, kind: Kind): nat {
    if ops == [] then 0 else Count(ops[..|ops| - 1], kind) + (if KindOf(ops[|ops| - 1]) == kind then 1 else 0)
  }

  /** How many operations of each kind there are. */
  function Tally(ops: seq<Operation>): Summary {
    Summary(Count(ops, ApplyKind), Count(ops, PatchKind), Count(ops, DeleteKind), Count(ops, StatusKind),
            Count(ops, EventKind), Count(ops, FinalizerKind), Count(ops, RequeueKind))
  }

  lemma {:induction false} TallyCompletes(ops: seq<Operation>)
    ensures Tally(ops).Completed() == |ops|
  {
    if ops != [] {
      TallyCompletes(ops[..|ops| - 1]);
    }
  }

  /** The span begins after the state before the call, ends in the state after it, and holds its writes. */
  ghost predicate Did(settings: Settings, owner: ObjectRef, op: Operation, start: State, before: seq<Commit>,
      end: State, after: seq<Commit>, span: Span, r: Result<(), Error>) {
    Turn(settings, owner, op, start, span, r) && span.now == end && after == before + span.made
  }

  /** One operation, answered after others may have acted. */
  ghost predicate Turn(settings: Settings, owner: ObjectRef, op: Operation, start: State, span: Span,
      r: Result<(), Error>) {
    Evolves(start, span.seen) && WellFormed(span.seen) && Answered(settings, owner, op, span, r)
  }

  /** A single call that answers as Carried says, and logs what Logged says. */
  lemma CallDid(settings: Settings, owner: ObjectRef, op: Operation, start: State, before: seq<Commit>, seen: State,
      at: State, end: State, after: seq<Commit>, r: Result<(), Error>)
    requires !IsManagedApply(op) && (op.Apply? ==> Decoded(op.resource))
    requires WellFormed(seen) && WellFormed(at) && Evolves(start, seen) && Evolves(seen, at)
    requires after == before + Logged(settings, owner, op, seen, at)
    requires match Carried(settings, owner, op, seen, at)
             case Success(next) => r == Success(()) && end == next
             case Failure(e) => r == Failure(e) && end == at
    ensures Did(settings, owner, op, start, before, end, after, Called(settings, owner, op, seen, at, end), r)
  {
  }

  class Applier {
    const server: Cluster
    const settings: Settings

    constructor (server: Cluster, settings: Settings)
      ensures this.server == server && this.settings == settings
    {
      this.server := server;
      this.settings := settings;
    }

    method ApplyResource(owner: ObjectRef, op: Operation, ghost index: nat)
      returns (r: Result<(), Error>, ghost span: Span)
      requires server.Valid() && op.Apply? && Decoded(op.resource) && ValidateOperation(owner, op, index).Success?
      modifies server
      ensures server.Valid()
      ensures Did(settings, owner, op, old(server.state), old(server.commits), server.state, server.commits, span, r)
    {
      span := Idle(server.state);
      var _ :- Resolve(settings, op.connection, op.resource.apiVersion);
      var document :- BuildApplyPatch(owner, op.resource, op.ownership);
      AcceptedApplyIsManaged(owner, op, index);
      if IsManagedApply(op) {
        r, span := ApplyRemote(owner, op, index, document);
      } else {
        r, span := ApplyLocal(owner, op, document);
      }
    }

    method ApplyLocal(owner: ObjectRef, op: Operation, document: Value) returns (r: Result<(), Error>, ghost span: Span)
      requires server.Valid() && op.Apply? && Decoded(op.resource) && op.authority.None?
      requires Submitted(settings, owner, op) == Success(document)
      modifies server
      ensures server.Valid()
      ensures Did(settings, owner, op, old(server.state), old(server.commits), server.state, server.commits, span, r)
    {
      var key, manager, force := ObjectKey(op.connection, op.resource), EffectiveManager(op, settings.fieldManager),
          op.force.GetOr(false);
      server.Interfere();
      ghost var at, result := server.state, ApplyResult(server.state, key, manager, force, document);
      AppliedIsStored(at, key, manager, force, document);
      StoredCall(settings, owner, op, at, at, key, result);
      var applied := server.Apply(key, manager, force, document);
      r := Answer(applied);
      CallDid(settings, owner, op, old(server.state), old(server.commits), at, at, server.state, server.commits, r);
      span := Called(settings, owner, op, at, at, server.state);
    }

    method ApplyRemote(owner: ObjectRef, op: Operation, ghost index: nat, document: Value)
      returns (r: Result<(), Error>, ghost span: Span)
      requires server.Valid() && IsManagedApply(op) && Decoded(op.resource)
      requires ValidateOperation(owner, op, index).Success?
      requires Submitted(settings, owner, op) == Success(document)
      modifies server
      ensures server.Valid()
      ensures Did(settings, owner, op, old(server.state), old(server.commits), server.state, server.commits, span, r)
    {
      ghost var at := server.state;
      AcceptedApplyIsPrepared(owner, op, index, EffectiveManager(op, settings.fieldManager), op.force.GetOr(false));
      var managed := InjectManagement(document, op.authority.value.identity, op.authority.value.sourceUid);
      var job := JobOf(settings, op, managed.value);
      ghost var run;
      r, run := ApplyManaged(server, job);
      OnItsOwn(job, server.state, server.commits, if r.Success? then Done else Failed(r.error), run);
      span := Span(at, at, server.state, RunCommits(job, run.trace, run.actors), run.trace, run.actors);
      RunAnswers(owner, op, document, job, span, r);
    }

    lemma RunAnswers(owner: ObjectRef, op: Operation, document: Value, job: Job, span: Span, r: Result<(), Error>)
      requires IsManagedApply(op) && Decoded(op.resource) && Submitted(settings, owner, op) == Success(document)
      requires var managed := InjectManagement(document, op.authority.value.identity, op.authority.value.sourceUid);
               managed.Success? && job == JobOf(settings, op, managed.value)
      requires WellFormed(span.at) && WentThrough(job, span, r)
      ensures Answered(settings, owner, op, span, r)
    {
    }

    method PatchResource(owner: ObjectRef, op: Operation) returns (r: Result<(), Error>, ghost span: Span)
      requires server.Valid() && op.Patch?
      modifies server
      ensures server.Valid()
      ensures Did(settings, owner, op, old(server.state), old(server.commits), server.state, server.commits, span, r)
      ensures r.Success? && op.authority.Some? ==> Narrowed(settings, owner, op, span.seen, span.at)
    {
      span := Idle(server.state);
      var _ :- Resolve(settings, op.connection, op.ref.apiVersion);
      var key := RefKey(op.connection, op.ref);
      var guarded := op.patch;
      server.Interfere();
      ghost var seen := server.state;
      span := Idle(seen);
      if op.authority.Some? {
        var precondition :- VerifyMutation(key, op.authority.value);
        guarded := Guards(precondition) + guarded;
        server.Interfere();
        PatchNarrows(settings, owner, op, seen, server.state);
      }
      r, span := SendPatch(owner, op, guarded, seen);
    }

    method SendPatch(owner: ObjectRef, op: Operation, entries: seq<JsonPatch.Entry>, ghost seen: State)
      returns (r: Result<(), Error>, ghost span: Span)
      requires server.Valid() && op.Patch? && Resolve(settings, op.connection, op.ref.apiVersion).Success?
      requires SentPatch(op, seen, RefKey(op.connection, op.ref)) == Success(entries)
      modifies server
      ensures server.Valid()
      ensures span.seen == seen && span.at == old(server.state) && span.now == server.state
      ensures server.commits == old(server.commits) + span.made
      ensures span.made == Logged(settings, owner, op, seen, span.at)
      ensures match Carried(settings, owner, op, seen, span.at)
              case Success(next) => r == Success(()) && server.state == next
              case Failure(e) => r == Failure(e) && server.state == span.at
    {
      span := Called(settings, owner, op, seen, server.state, server.state);
      var sent := server.Patch(RefKey(op.connection, op.ref), entries);
      r := if sent.Success? then Success(()) else Failure(Kubernetes(sent.error));
      span := span.(now := server.state);
    }

    method VerifyMutation(key: Key, authority: Authority) returns (r: Result<Precondition, Error>)
      ensures r == Verified(server.state, key, authority)
      ensures r.Success? ==> key in server.state.objects && Proves(server.state.objects[key], authority)
                             && Names(r.value, server.state.objects[key])
    {
      var got := server.Get(key);
      match got {
        case Success(doc) => r := VerifyRemoteObject(doc, authority);
        case Failure(e) => r := Failure(Kubernetes(e));
      }
    }

    method DeleteResource(owner: ObjectRef, op: Operation) returns (r: Result<(), Error>, ghost span: Span)
      requires server.Valid() && op.Delete?
      modifies server
      ensures server.Valid()
      ensures Did(settings, owner, op, old(server.state), old(server.commits), server.state, server.commits, span, r)
      ensures r.Success? && op.authority.Some? ==> Narrowed(settings, owner, op, span.seen, span.at)
      ensures r.Success? ==> RefKey(op.connection, op.ref) !in server.state.objects
    {
      span := Idle(server.state);
      var _ :- Resolve(settings, op.connection, op.ref.apiVersion);
      var key := RefKey(op.connection, op.ref);
      server.Interfere();
      ghost var seen := server.state;
      span := Idle(seen);
      var preconditions :- DeletePreconditionsOf(key, op);
      if op.authority.Some? {
        server.Interfere();
        DeleteNarrows(settings, owner, op, seen, server.state);
      }
      r, span := SendDelete(owner, op, preconditions, seen);
    }

    method SendDelete(owner: ObjectRef, op: Operation, preconditions: (Option<string>, Option<string>),
        ghost seen: State)
      returns (r: Result<(), Error>, ghost span: Span)
      requires server.Valid() && op.Delete? && Resolve(settings, op.connection, op.ref.apiVersion).Success?
      requires SentPreconditions(op, seen, RefKey(op.connection, op.ref)) == Success(preconditions)
      modifies server
      ensures server.Valid()
      ensures span.seen == seen && span.at == old(server.state) && span.now == server.state
      ensures server.commits == old(server.commits) + span.made
      ensures span.made == Logged(settings, owner, op, seen, span.at)
      ensures match Carried(settings, owner, op, seen, span.at)
              case Success(next) => r == Success(()) && server.state == next
              case Failure(e) => r == Failure(e) && server.state == span.at
      ensures r.Success? ==> RefKey(op.connection, op.ref) !in server.state.objects
    {
      span := Called(settings, owner, op, seen, server.state, server.state);
      var sent := server.Delete(RefKey(op.connection, op.ref), preconditions.0, preconditions.1);
      r := if sent.Success? || sent.error == NotFound then Success(()) else Failure(Kubernetes(sent.error));
      span := span.(now := server.state);
    }

    /** Under an authority the verified pair; declared preconditions must then be that same pair. */
    method DeletePreconditionsOf(key: Key, op: Operation) returns (r: Result<(Option<string>, Option<string>), Error>)
      requires op.Delete?
      ensures r == SentPreconditions(op, server.state, key)
      ensures op.authority.None? ==> r == Success(Declared(op.options))
      ensures op.authority.Some? && r.Success? ==>
                && key in server.state.objects && Proves(server.state.objects[key], op.authority.value)
                && r.value == (Uid(server.state.objects[key]), Version(server.state.objects[key]))
                && r.value.0.Some? && r.value.1.Some?
                && (Declared(op.options).0.Some? ==> Declared(op.options) == r.value)
    {
      var declared := Declared(op.options);
      if op.authority.None? {
        return Success(declared);
      }
      var precondition :- VerifyMutation(key, op.authority.value);
      var verified := (Some(precondition.uid), Some(precondition.resourceVersion));
      if declared.0.Some? && declared != verified {
        return Failure(UnsupportedOperation(DeclaredPreconditionsDiffer));
      }
      r := Success(verified);
    }

    /** The target's status and nothing else of it: its finalizers, labels and spec stay. */
    method PatchStatus(owner: ObjectRef, op: Operation) returns (r: Result<(), Error>, ghost span: Span)
      requires server.Valid() && op.Status?
      modifies server
      ensures server.Valid()
      ensures Did(settings, owner, op, old(server.state), old(server.commits), server.state, server.commits, span, r)
      ensures r.Success? ==>
                var key := RefKey(None, op.target.GetOr(owner));
                && key in span.at.objects && key in server.state.objects
                && OnlyStatusDiffers(span.at.objects[key], server.state.objects[key])
    {
      span := Idle(server.state);
      var target := op.target.GetOr(owner);
      var _ :- Resolve(settings, None, target.apiVersion);
      server.Interfere();
      ghost var at := server.state;
      var key, document := RefKey(None, target), StatusDocument(target, op.status);
      StatusTouchesOnlyStatus(at, key, settings.fieldManager, settings.forceStatus, document);
      StoredCall(settings, owner, op, at, at, key,
          StatusResult(at, key, settings.fieldManager, settings.forceStatus, document));
      var sent := server.ApplyStatus(key, settings.fieldManager, settings.forceStatus, document);
      r := Answer(sent);
      CallDid(settings, owner, op, old(server.state), old(server.commits), at, at, server.state, server.commits, r);
      span := Called(settings, owner, op, at, at, server.state);
    }

    method RecordEvent(owner: ObjectRef, op: Operation) returns (r: Result<(), Error>, ghost span: Span)
      requires server.Valid() && op.Event?
      modifies server
      ensures server.Valid()
      ensures Did(settings, owner, op, old(server.state), old(server.commits), server.state, server.commits, span, r)
      ensures r.Failure? && r.error == InvalidPayload(EventNotNamespaced) ==> EventNamespace(owner, op.regarding).None?
    {
      span := Idle(server.state);
      if EventNamespace(owner, op.regarding).None? {
        return Failure(InvalidPayload(EventNotNamespaced)), span;
      }
      server.Interfere();
      ghost var at := server.state;
      EventCall(settings, owner, op, at);
      var sent := server.Create(EventKey(owner, op.reason, op.regarding), "",
                                EventDocument(owner, op.warning, op.reason, op.message, op.regarding));
      r := if sent == Failure(AlreadyExists) then Success(()) else Answer(sent);
      CallDid(settings, owner, op, old(server.state), old(server.commits), at, at, server.state, server.commits, r);
      span := Called(settings, owner, op, at, at, server.state);
    }

    /** The list stored is the list that was read, with the one edit made. */
    method MutateFinalizer(owner: ObjectRef, op: Operation) returns (r: Result<(), Error>, ghost span: Span)
      requires server.Valid() && op.Finalizer?
      modifies server
      ensures server.Valid()
      ensures Did(settings, owner, op, old(server.state), old(server.commits), server.state, server.commits, span, r)
      ensures r.Success? ==>
                var key := RefKey(None, owner);
                && key in span.seen.objects && key in server.state.objects
                && FinalizerList(server.state.objects[key])
                    == Edited(FinalizerList(span.seen.objects[key]), op.mutation, op.finalizer)
    {
      span := Idle(server.state);
      var _ :- Resolve(settings, None, owner.apiVersion);
      var key := RefKey(None, owner);
      server.Interfere();
      ghost var seen := server.state;
      span := Idle(seen);
      var got := server.Get(key);
      if got.Failure? {
        return Failure(Kubernetes(got.error)), span;
      }
      var finalizers := FinalizerList(got.value);
      match op.mutation {
        case AddFinalizer =>
          if op.finalizer !in finalizers {
            finalizers := finalizers + [op.finalizer];
          }
        case RemoveFinalizer =>
          finalizers := Keep(finalizers, {op.finalizer});
      }
      r, span := StoreFinalizers(owner, op, seen, finalizers);
    }

    method StoreFinalizers(owner: ObjectRef, op: Operation, ghost seen: State, finalizers: seq<string>)
      returns (r: Result<(), Error>, ghost span: Span)
      requires server.Valid() && op.Finalizer? && Resolve(settings, None, owner.apiVersion).Success?
      requires var key := RefKey(None, owner);
               server.state == seen && key in seen.objects
               && finalizers == Edited(FinalizerList(seen.objects[key]), op.mutation, op.finalizer)
      modifies server
      ensures server.Valid()
      ensures Did(settings, owner, op, seen, old(server.commits), server.state, server.commits, span, r)
      ensures span.seen == seen
      ensures r.Success? ==>
                var key := RefKey(None, owner);
                key in server.state.objects && FinalizerList(server.state.objects[key]) == finalizers
    {
      var key, document := RefKey(None, owner), FinalizerDocument(owner, finalizers);
      server.Interfere();
      ghost var at, result := server.state, ApplyResult(server.state, key, settings.fieldManager, false, document);
      FinalizersStored(at, key, settings.fieldManager, owner, finalizers);
      StoredCall(settings, owner, op, seen, at, key, result);
      var sent := server.Apply(key, settings.fieldManager, false, document);
      r := Answer(sent);
      CallDid(settings, owner, op, seen, old(server.commits), seen, at, server.state, server.commits, r);
      span := Called(settings, owner, op, seen, at, server.state);
    }

    method Execute(owner: ObjectRef, op: Operation, ghost index: nat) returns (r: Result<(), Error>, ghost span: Span)
      requires server.Valid() && (op.Apply? ==> Decoded(op.resource)) && ValidateOperation(owner, op, index).Success?
      modifies server
      ensures server.Valid()
      ensures Did(settings, owner, op, old(server.state), old(server.commits), server.state, server.commits, span, r)
      ensures forall c :: c in span.made ==> CommitOf(owner, op, c)
      ensures r.Failure? && !IsManagedApply(op) ==> span.now == span.at && server.commits == old(server.commits)
      ensures op.Event? ==> r != Failure(InvalidPayload(EventNotNamespaced))
    {
      match op {
        case Apply(_, _, _, _, _, _) => r, span := ApplyResource(owner, op, index);
        case Patch(_, _, _, _) => r, span := PatchResource(owner, op);
        case Delete(_, _, _, _) => r, span := DeleteResource(owner, op);
        case Status(_, _) => r, span := PatchStatus(owner, op);
        case Event(_, _, _, _) =>
          EventNamespaceExists(owner, op, index);
          r, span := RecordEvent(owner, op);
        case Finalizer(_, _) => r, span := MutateFinalizer(owner, op);
        case Requeue(_) => r, span := Success(()),
            Called(settings, owner, op, server.state, server.state, server.state);
      }
      AnsweredWithinAuthority(settings, owner, op, index, span, r);
      if r.Failure? && !IsManagedApply(op) {
        FailureWritesNothing(settings, owner, op, span, r);
      }
    }

    /** A rejected plan has no effect. An accepted plan runs in order up to its first failure: every
        operation does what it says, its report accounts for exactly the operations before the failure,
        and the writes are exactly those of the operations, one after another. */
    method ApplyPlan(owner: ObjectRef, ops: seq<Operation>)
      returns (r: Result<Summary, Error>, ghost done: nat, ghost spans: seq<Span>)
      requires server.Valid()
      requires forall i :: 0 <= i < |ops| && ops[i].Apply? ==> Decoded(ops[i].resource)
      modifies server
      ensures server.Valid()
      ensures !Accepted(owner, ops) ==>
                && r.Failure? && Rejected(owner, ops, r.error)
                && server.state == old(server.state) && server.commits == old(server.commits)
      ensures Accepted(owner, ops) ==>
                && Ran(settings, owner, ops, old(server.state), r, done, spans)
                && EndState(old(server.state), spans) == server.state
                && server.commits == old(server.commits) + AllMade(spans)
    {
      done, spans := 0, [];
      var valid := ValidateOperationPlan(owner, ops);
      if valid.Failure? {
        return Failure(valid.error), done, spans;
      }
      var summary := ZERO;
      ghost var before, start := server.commits, server.state;
      assert before == before + [];
      for index := 0 to |ops|
        invariant server.Valid() && Accepted(owner, ops) && done == index
        invariant summary == Tally(ops[..index])
        invariant Progress(settings, owner, ops, start, before, server.state, server.commits, index, spans)
      {
        var op := ops[index];
        var outcome;
        ghost var span;
        assert ValidateOperation(owner, op, index).Success?;
        outcome, span := Execute(owner, op, index);
        NextTurn(settings, owner, ops, start, before, spans, span, server.state, server.commits, outcome);
        spans := spans + [span];
        if outcome.Failure? {
          TallyCompletes(ops[..index]);
          TurnsAreAttributed(settings, owner, ops, start, spans, Some(outcome.error));
          return Failure(OperationFailed(index, KindOf(op), ReportedManager(op, settings.fieldManager), summary,
              outcome.error)), done, spans;
        }
        summary := Bump(summary, op);
        TallyStep(ops, index);
        done := index + 1;
      }
      assert ops[..|ops|] == ops;
      TallyCompletes(ops);
      TurnsAreAttributed(settings, owner, ops, start, spans, None);
      return Success(summary), done, spans;
    }
  }

  /** What a run of an accepted plan guarantees: one span for every operation carried out, in plan order,
      the last one failed if the run did; done counts the operations that succeeded. */
  ghost predicate Ran(settings: Settings, owner: ObjectRef, ops: seq<Operation>, start: State,
      r: Result<Summary, Error>, done: nat, spans: seq<Span>) {
    && done <= |ops|
    && (r.Success? <==> done == |ops|)
    && (r.Success? ==> r.value == Tally(ops) && r.value.Completed() == |ops|)
    && (r.Failure? ==>
          && r.error.OperationFailed?
          && r.error.failedIndex == done && r.error.kind == KindOf(ops[done])
          && r.error.fieldManager == ReportedManager(ops[done], settings.fieldManager)
          && r.error.progress == Tally(ops[..done]) && r.error.progress.Completed() == done)
    && |spans| == (if r.Success? then |ops| else done + 1)
    && InTurn(settings, owner, ops, start, spans, if r.Success? then None else Some(r.error.error))
    // so every write comes after the success of all operations of lower order
    && Attributed(owner, ops, spans) && InOrder(ops)
  }

  lemma UnresolvedApplyFails(settings: Settings, owner: ObjectRef, op: Operation)
    requires IsManagedApply(op) && Decoded(op.resource) && ApiVersionSplits(op.resource.apiVersion)
    requires op.connection.Some? && op.connection.value !in settings.connections
    ensures Submitted(settings, owner, op) == Failure(InvalidPayload(ConnectionNotResolved))
  {
  }

  /** The report of a plan of one managed apply whose document cannot be submitted. */
  lemma OneFailedTurn(settings: Settings, owner: ObjectRef, op: Operation, start: State, r: Result<Summary, Error>,
      done: nat, spans: seq<Span>, error: Error)
    requires IsManagedApply(op) && Decoded(op.resource) && Submitted(settings, owner, op) == Failure(error)
    requires Ran(settings, owner, [op], start, r, done, spans)
    ensures r == Failure(OperationFailed(0, ApplyKind, ReportedManager(op, settings.fieldManager), ZERO, error))
  {
    InTurnParts(settings, owner, [op], start, spans, if r.Success? then None else Some(r.error.error));
    assert [op][..0] == [] && Tally([]) == ZERO;
  }

  /** A run that misreports, for every accepted remote apply that leaves the manager to the default: its
      connection is not there, and the report names the local manager. (AcceptedPlanMisreports has one.) */
  method ReportUnresolvedRemote(applier: Applier, owner: ObjectRef, op: Operation) returns (r: Result<Summary, Error>)
    requires applier.server.Valid() && Accepted(owner, [op])
    requires IsManagedApply(op) && Decoded(op.resource) && ApiVersionSplits(op.resource.apiVersion)
        && op.fieldManager.None?
    requires op.connection.Some? && op.connection.value !in applier.settings.connections
    modifies applier.server
    ensures var local := applier.settings.fieldManager;
            && r == Failure(OperationFailed(0, ApplyKind, Some(local), ZERO, InvalidPayload(ConnectionNotResolved)))
            && EffectiveManager(op, local) == REMOTE_FIELD_MANAGER
  {
    ghost var start := applier.server.state;
    ghost var done, spans;
    var ops := [op];
    r, done, spans := applier.ApplyPlan(owner, ops);
    DefaultManagers(op, applier.settings.fieldManager);
    UnresolvedRunReports(applier.settings, owner, op, start, r, done, spans);
  }

  lemma UnresolvedRunReports(settings: Settings, owner: ObjectRef, op: Operation, start: State,
      r: Result<Summary, Error>, done: nat, spans: seq<Span>)
    requires IsManagedApply(op) && Decoded(op.resource) && ApiVersionSplits(op.resource.apiVersion)
        && op.fieldManager.None?
    requires op.connection.Some? && op.connection.value !in settings.connections
    requires Ran(settings, owner, [op], start, r, done, spans)
    ensures r == Failure(OperationFailed(0, ApplyKind, Some(settings.fieldManager), ZERO,
        InvalidPayload(ConnectionNotResolved)))
  {
    DefaultManagers(op, settings.fieldManager);
    UnresolvedApplyFails(settings, owner, op);
    OneFailedTurn(settings, owner, op, start, r, done, spans, InvalidPayload(ConnectionNotResolved));
  }

  /** One more operation of its kind. */
  function Bump(s: Summary, op: Operation): Summary {
    match op
    case Apply(_, _, _, _, _, _) => s.(applied := s.applied + 1)
    case Patch(_, _, _, _) => s.(patched := s.patched + 1)
    case Delete(_, _, _, _) => s.(deleted := s.deleted + 1)
    case Status(_, _) => s.(statusPatched := s.statusPatched + 1)
    case Event(_, _, _, _) => s.(eventsRecorded := s.eventsRecorded + 1)
    case Finalizer(_, _) => s.(finalizersMutated := s.finalizersMutated + 1)
    case Requeue(_) => s.(requeued := s.requeued + 1)
  }

  lemma TallyStep(ops: seq<Operation>, index: nat)
    requires index < |ops|
    ensures Tally(ops[..index + 1]) == Bump(Tally(ops[..index]), ops[index])
  {
    var longer := ops[..index + 1];
    assert longer[..|longer| - 1] == ops[..index] && longer[|longer| - 1] == ops[index];
  }

  function Answer<T>(r: Result<T, ApiError>): Result<(), Error> {
    match r
    case Success(_) => Success(())
    case Failure(e) => Failure(Kubernetes(e))
  }

  // ----- Operations in turn -----

  function EndState(start: State, spans: seq<Span>): State {
    if spans == [] then start else spans[|spans| - 1].now
  }

  /** The writes of the spans, one after another. */
  function AllMade(spans: seq<Span>): seq<Commit> {
    if spans == [] then [] else AllMade(spans[..|spans| - 1]) + spans[|spans| - 1].made
  }

  function FailureOf(r: Result<(), Error>): Option<Error> {
    if r.Success? then None else Some(r.error)
  }

  /** The first operations of the plan were carried out one after another, others acting in between;
      all were answered with success except, if there is a failure, the last. */
  ghost predicate InTurn(settings: Settings, owner: ObjectRef, ops: seq<Operation>, start: State, spans: seq<Span>,
      failure: Option<Error>) {
    if spans == [] then failure.None?
    else
      var last := |spans| - 1;
      && |spans| <= |ops|
      && InTurn(settings, owner, ops, start, spans[..last], None)
      && Turn(settings, owner, ops[last], EndState(start, spans[..last]), spans[last],
              if failure.Some? then Failure(failure.value) else Success(()))
  }

  /** So many operations done, all of them with success. */
  ghost predicate Progress(settings: Settings, owner: ObjectRef, ops: seq<Operation>, start: State,
      before: seq<Commit>, state: State, commits: seq<Commit>, index: nat, spans: seq<Span>) {
    && InTurn(settings, owner, ops, start, spans, None) && |spans| == index
    && EndState(start, spans) == state && commits == before + AllMade(spans)
  }

  lemma NextTurn(settings: Settings, owner: ObjectRef, ops: seq<Operation>, start: State, before: seq<Commit>,
      spans: seq<Span>, next: Span, end: State, after: seq<Commit>, r: Result<(), Error>)
    requires InTurn(settings, owner, ops, start, spans, None) && |spans| < |ops|
    requires Did(settings, owner, ops[|spans|], EndState(start, spans), before + AllMade(spans), end, after, next, r)
    ensures InTurn(settings, owner, ops, start, spans + [next], FailureOf(r))
    ensures EndState(start, spans + [next]) == end && after == before + AllMade(spans + [next])
  {
    var longer := spans + [next];
    assert longer[..|spans|] == spans && longer[|spans|] == next;
    Regroup(before, AllMade(spans), next.made);
  }

  /** Every write of a span is a write of its operation. */
  ghost predicate Attributed(owner: ObjectRef, ops: seq<Operation>, spans: seq<Span>) {
    |spans| <= |ops| && forall i {:trigger spans[i]} :: 0 <= i < |spans| ==> Within(owner, ops[i], spans[i].made)
  }

  ghost predicate Within(owner: ObjectRef, op: Operation, made: seq<Commit>) {
    forall c :: c in made ==> CommitOf(owner, op, c)
  }

  lemma {:induction false} TurnsAreAttributed(settings: Settings, owner: ObjectRef, ops: seq<Operation>, start: State,
      spans: seq<Span>, failure: Option<Error>)
    requires EachValid(owner, ops, |ops|) && InTurn(settings, owner, ops, start, spans, failure)
    ensures Attributed(owner, ops, spans)
    decreases |spans|
  {
    if spans != [] {
      var last := |spans| - 1;
      var answer := if failure.Some? then Failure(failure.value) else Success(());
      TurnsAreAttributed(settings, owner, ops, start, spans[..last], None);
      TurnWithin(settings, owner, ops, last, EndState(start, spans[..last]), spans[last], answer);
      OneMoreAttributed(owner, ops, spans);
    }
  }

  lemma TurnWithin(settings: Settings, owner: ObjectRef, ops: seq<Operation>, i: nat, from: State, span: Span,
      r: Result<(), Error>)
    requires EachValid(owner, ops, |ops|) && i < |ops| && Turn(settings, owner, ops[i], from, span, r)
    ensures Within(owner, ops[i], span.made)
  {
    assert ValidateOperation(owner, ops[i], i).Success?;
    AnsweredWithinAuthority(settings, owner, ops[i], i, span, r);
  }

  lemma OneMoreAttributed(owner: ObjectRef, ops: seq<Operation>, spans: seq<Span>)
    requires spans != [] && |spans| <= |ops|
    requires Attributed(owner, ops, spans[..|spans| - 1])
    requires Within(owner, ops[|spans| - 1], spans[|spans| - 1].made)
    ensures Attributed(owner, ops, spans)
  {
    forall i {:trigger spans[i]} | 0 <= i < |spans| ensures Within(owner, ops[i], spans[i].made) {
      if i < |spans| - 1 {
        assert spans[..|spans| - 1][i] == spans[i];
      }
    }
  }

  /** Whatever has a lower order than an operation comes before it. */
  ghost predicate InOrder(ops: seq<Operation>) {
    forall i, j {:trigger ops[i], ops[j]} :: 0 <= i < |ops| && 0 <= j < |ops| && Order(ops[j]) < Order(ops[i]) ==> j < i
  }

  lemma {:induction false} TurnAt(settings: Settings, owner: ObjectRef, ops: seq<Operation>, start: State,
      spans: seq<Span>, failure: Option<Error>, i: nat)
    requires InTurn(settings, owner, ops, start, spans, failure) && i < |spans|
    ensures |spans| <= |ops|
    ensures i < |spans| - 1 || failure.None? ==>
        Turn(settings, owner, ops[i], EndState(start, spans[..i]), spans[i], Success(()))
    decreases |spans|
  {
    InTurnParts(settings, owner, ops, start, spans, failure);
    var last := |spans| - 1;
    if i < last {
      TurnAt(settings, owner, ops, start, spans[..last], None, i);
      assert spans[..last][..i] == spans[..i] && spans[..last][i] == spans[i];
    } else {
      assert i == last;
    }
  }

  lemma InTurnParts(settings: Settings, owner: ObjectRef, ops: seq<Operation>, start: State, spans: seq<Span>,
      failure: Option<Error>)
    requires InTurn(settings, owner, ops, start, spans, failure) && spans != []
    ensures var last := |spans| - 1;
            && |spans| <= |ops| && InTurn(settings, owner, ops, start, spans[..last], None)
            && Turn(settings, owner, ops[last], EndState(start, spans[..last]), spans[last],
                    if failure.Some? then Failure(failure.value) else Success(()))
  {
  }

  lemma LowerOrderIsBefore(owner: ObjectRef, ops: seq<Operation>, i: nat, j: nat)
    requires Accepted(owner, ops) && i < |ops| && j < |ops| && Order(ops[j]) < Order(ops[i])
    ensures j < i
  {
  }

  /** When an operation is carried out, everything of lower order has been carried out with success: additions
      of finalizers before every other effect, and removals only after all of them. */
  lemma LowerOrderSucceededBefore(settings: Settings, owner: ObjectRef, ops: seq<Operation>, start: State,
      spans: seq<Span>, failure: Option<Error>, i: nat, j: nat)
    requires Accepted(owner, ops) && InTurn(settings, owner, ops, start, spans, failure)
    requires i < |spans| <= |ops| && j < |ops| && Order(ops[j]) < Order(ops[i])
    ensures j < i && Turn(settings, owner, ops[j], EndState(start, spans[..j]), spans[j], Success(()))
  {
    LowerOrderIsBefore(owner, ops, i, j);
    TurnAt(settings, owner, ops, start, spans, failure, j);
  }
}
