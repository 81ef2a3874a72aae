/** The finalizer list an owner holds after a whole plan. */
module PlanFinalizerRun {
  import opened Wrappers
  import opened Json
  import opened Contract
  import opened ApiServer
  import opened ApplyDocument
  import opened PlanValidation
  import opened RemoteApply
  import opened Finalizers
  import opened TargetDocuments
  import opened PlanEffects
  import opened PlanApplier
  import opened OwnerWrites

  // ----- What the theorem assumes: others, and direct writes to the owner -----

  /** Other writers leave the owner's list alone while this operation is under way. */
  ghost predicate OthersLeaveList(owner: ObjectRef, before: State, span: Span) {
    && Held(owner, span.seen) == Held(owner, before) && Held(owner, span.at) == Held(owner, span.seen)
    && (|span.trace| == |span.actors| + 1 ==> OthersLeaveListInRun(owner, span.trace, span.actors))
  }

  ghost predicate OthersLeaveListInRun(owner: ObjectRef, trace: seq<Sys>, actors: seq<Actor>)
    requires |trace| == |actors| + 1
  {
    forall k {:trigger actors[k]} :: 0 <= k < |actors| && actors[k].Others? ==>
        Held(owner, trace[k + 1].server) == Held(owner, trace[k].server)
  }

  /** Others leave the list alone, and what the plan writes to the owner directly keeps it. */
  ghost predicate ListUndisturbed(settings: Settings, owner: ObjectRef, ops: seq<Operation>, start: State,
      spans: seq<Span>)
    requires |spans| <= |ops|
  {
    forall i {:trigger spans[i]} :: 0 <= i < |spans| ==>
      && OthersLeaveList(owner, EndState(start, spans[..i]), spans[i])
      && (WritesOwner(owner, ops[i]) ==> WellFormed(spans[i].at) && KeepsList(settings, owner, ops[i], spans[i].at))
  }

  // ----- What every other operation keeps -----

  /** A finalizer operation leaves the list that was read with its one edit. */
  lemma FinalizerEdits(settings: Settings, owner: ObjectRef, op: Operation, span: Span)
    requires op.Finalizer? && Answered(settings, owner, op, span, Success(()))
    ensures Held(owner, span.now) == Edited(Held(owner, span.seen), op.mutation, op.finalizer)
  {
    var key := OwnerKey(owner);
    var list := Edited(FinalizerList(span.seen.objects[key]), op.mutation, op.finalizer);
    FinalizersStored(span.at, key, settings.fieldManager, owner, list);
  }

  lemma StatusKeepsList(settings: Settings, owner: ObjectRef, op: Operation, span: Span)
    requires op.Status? && Answered(settings, owner, op, span, Success(()))
    ensures Held(owner, span.now) == Held(owner, span.at)
  {
    var target := op.target.GetOr(owner);
    StatusCallKeepsList(owner, span.at, RefKey(None, target), settings.fieldManager, settings.forceStatus,
        StatusDocument(target, op.status));
  }

  lemma StatusCallKeepsList(owner: ObjectRef, at: State, key: Key, manager: string, force: bool, doc: Value)
    requires WellFormed(at)
    ensures var r := StatusResult(at, key, manager, force, doc);
            r.Success? ==> Held(owner, r.value.0) == Held(owner, at)
  {
    StatusTouchesOnlyStatus(at, key, manager, force, doc);
  }

  /** A new event has no finalizers, and an existing object is left alone. */
  lemma EventKeepsList(settings: Settings, owner: ObjectRef, op: Operation, span: Span)
    requires op.Event? && Answered(settings, owner, op, span, Success(()))
    ensures Held(owner, span.now) == Held(owner, span.at)
  {
    var key, doc := EventKey(owner, op.reason, op.regarding),
        EventDocument(owner, op.warning, op.reason, op.message, op.regarding);
    NoFinalizersInEvent(owner, op.warning, op.reason, op.message, op.regarding);
    CreateKeepsList(owner, span.at, key, doc);
  }

  lemma CreateKeepsList(owner: ObjectRef, at: State, key: Key, doc: Value)
    requires HasMetadata(doc) && "finalizers" !in Meta(doc)
    ensures var r := CreateResult(at, key, "", "Update", doc);
            r.Success? ==> Held(owner, r.value.0) == Held(owner, at)
  {
    CreatedKeepsMeta(doc, "", "Update", "finalizers", Token(at.clock));
  }

  lemma NoFinalizersInEvent(owner: ObjectRef, warning: bool, reason: string, message: string,
      regarding: Option<ObjectRef>)
    ensures var doc := EventDocument(owner, warning, reason, message, regarding);
            HasMetadata(doc) && "finalizers" !in Meta(doc)
  {
    PrunedMeta(EventBody(owner, warning, reason, message, regarding), "finalizers");
  }

  /** An operation aimed at another object leaves the owner as it is. */
  lemma ElsewhereKeepsList(settings: Settings, owner: ObjectRef, op: Operation, span: Span)
    requires (op.Apply? || op.Patch? || op.Delete?) && !WritesOwner(owner, op) && !IsManagedApply(op)
    requires Answered(settings, owner, op, span, Success(()))
    ensures Held(owner, span.now) == Held(owner, span.at)
  {
    CarriedElsewhere(settings, owner, op, span.seen, span.at, OwnerKey(owner));
  }

  /** A direct write of the owner that is known to keep the list. */
  lemma OwnerWriteKeepsList(settings: Settings, owner: ObjectRef, op: Operation, index: nat, span: Span)
    requires WritesOwner(owner, op) && ValidateOperation(owner, op, index).Success?
    requires Answered(settings, owner, op, span, Success(())) && KeepsList(settings, owner, op, span.at)
    ensures Held(owner, span.now) == Held(owner, span.at)
  {
    OwnerWriteIsLocal(owner, op, index);
    WritesKeepList(settings, owner, op, span.seen, span.at);
  }

  /** So does a managed remote apply of another object, through all its calls. */
  lemma RunKeepsList(owner: ObjectRef, job: Job, trace: seq<Sys>, actors: seq<Actor>)
    requires Prepared(job) && IsRun(job, trace, actors)
    requires job.key != OwnerKey(owner) && OthersLeaveListInRun(owner, trace, actors)
    requires forall k :: 0 <= k < |actors| ==> !actors[k].Restart?
    ensures Held(owner, trace[|actors|].server) == Held(owner, trace[0].server)
  {
    var lists := seq(|trace|, i requires 0 <= i < |trace| => Held(owner, trace[i].server));
    forall k {:trigger lists[k]} | 0 <= k < |actors| ensures lists[k + 1] == lists[k] {
      StepKeepsList(owner, job, trace, actors, k);
    }
    NeverChanged(lists, |actors|);
  }

  lemma {:induction false} NeverChanged(lists: seq<seq<string>>, n: nat)
    requires n < |lists| && forall k {:trigger lists[k]} :: 0 <= k < n ==> lists[k + 1] == lists[k]
    ensures lists[n] == lists[0]
  {
    if n > 0 {
      NeverChanged(lists, n - 1);
      assert lists[n - 1 + 1] == lists[n - 1];
    }
  }

  lemma StepKeepsList(owner: ObjectRef, job: Job, trace: seq<Sys>, actors: seq<Actor>, k: nat)
    requires Prepared(job) && IsRun(job, trace, actors) && k < |actors| && !actors[k].Restart?
    requires job.key != OwnerKey(owner) && OthersLeaveListInRun(owner, trace, actors)
    ensures Held(owner, trace[k + 1].server) == Held(owner, trace[k].server)
  {
    if actors[k].Client? {
      EveryWriteIsAuthorised(job, trace, actors, k);
      GuardedKeepsList(owner, job, trace[k], trace[k + 1]);
    }
  }

  lemma GuardedKeepsList(owner: ObjectRef, job: Job, a: Sys, b: Sys)
    requires Guarded(job, a, b) && job.key != OwnerKey(owner)
    ensures Held(owner, b.server) == Held(owner, a.server)
  {
  }

  lemma ManagedApplyKeepsList(settings: Settings, owner: ObjectRef, op: Operation, index: nat, span: Span)
    requires IsManagedApply(op) && !WritesOwner(owner, op) && ValidateOperation(owner, op, index).Success?
    requires Answered(settings, owner, op, span, Success(()))
    requires |span.trace| == |span.actors| + 1 ==> OthersLeaveListInRun(owner, span.trace, span.actors)
    ensures Held(owner, span.now) == Held(owner, span.at)
  {
    var doc := ManagedDocument(owner, op, op.authority.value.identity, op.authority.value.sourceUid);
    var job := JobOf(settings, op, doc.value);
    AcceptedApplyIsPrepared(owner, op, index, job.manager, job.force);
    RunKeepsList(owner, job, span.trace, span.actors);
  }

  function EditedBy(op: Operation, list: seq<string>): seq<string> {
    if op.Finalizer? then Edited(list, op.mutation, op.finalizer) else list
  }

  lemma OperationEdits(settings: Settings, owner: ObjectRef, op: Operation, index: nat, before: State, span: Span)
    requires ValidateOperation(owner, op, index).Success? && Answered(settings, owner, op, span, Success(()))
    requires OthersLeaveList(owner, before, span)
    requires WritesOwner(owner, op) ==> KeepsList(settings, owner, op, span.at)
    ensures Held(owner, span.now) == EditedBy(op, Held(owner, before))
  {
    match op {
      case Finalizer(_, _) => FinalizerEdits(settings, owner, op, span);
      case Status(_, _) => StatusKeepsList(settings, owner, op, span);
      case Event(_, _, _, _) => EventKeepsList(settings, owner, op, span);
      case Requeue(_) =>
      case _ =>
        if WritesOwner(owner, op) {
          OwnerWriteKeepsList(settings, owner, op, index, span);
        } else {
          if IsManagedApply(op) {
            ManagedApplyKeepsList(settings, owner, op, index, span);
          } else {
            ElsewhereKeepsList(settings, owner, op, span);
          }
        }
    }
  }

  // ----- The whole plan -----

  lemma {:induction false} FoldLast(ops: seq<Operation>, op: Operation, list: seq<string>)
    ensures Fold(ops + [op], list) == EditedBy(op, Fold(ops, list))
    decreases |ops|
  {
    if ops == [] {
      assert ops + [op] == [op];
      assert [op][1..] == [];
    } else {
      assert (ops + [op])[1..] == ops[1..] + [op];
      FoldLast(ops[1..], op, if ops[0].Finalizer? then Edited(list, ops[0].mutation, ops[0].finalizer) else list);
    }
  }

  lemma {:induction false} ListsFold(ops: seq<Operation>, lists: seq<seq<string>>, n: nat)
    requires |lists| == |ops| + 1 && n <= |ops|
    requires forall i {:trigger ops[i]} :: 0 <= i < |ops| ==> lists[i + 1] == EditedBy(ops[i], lists[i])
    ensures lists[n] == Fold(ops[..n], lists[0])
  {
    if n > 0 {
      ListsFold(ops, lists, n - 1);
      assert ops[..n] == ops[..n - 1] + [ops[n - 1]];
      FoldLast(ops[..n - 1], ops[n - 1], lists[0]);
    }
  }

  lemma TurnEdits(settings: Settings, owner: ObjectRef, ops: seq<Operation>, start: State, spans: seq<Span>, i: nat)
    requires EachValid(owner, ops, |ops|) && InTurn(settings, owner, ops, start, spans, None)
    requires i < |spans| <= |ops| && ListUndisturbed(settings, owner, ops, start, spans)
    ensures Held(owner, EndState(start, spans[..i + 1])) == EditedBy(ops[i], Held(owner, EndState(start, spans[..i])))
  {
    var span := spans[i];
    assert ValidateOperation(owner, ops[i], i).Success?;
    TurnAt(settings, owner, ops, start, spans, None, i);
    OperationEdits(settings, owner, ops[i], i, EndState(start, spans[..i]), span);
    assert EndState(start, spans[..i + 1]) == span.now;
  }

  /** A whole successful run leaves exactly what the plan makes of the first list, provided that other
      writers leave it alone and direct writes of the plan to its owner are of the kind that keeps it. */
  lemma RunLeavesPlanResult(settings: Settings, owner: ObjectRef, ops: seq<Operation>, start: State, spans: seq<Span>)
    requires Accepted(owner, ops) && |spans| == |ops|
    requires InTurn(settings, owner, ops, start, spans, None) && ListUndisturbed(settings, owner, ops, start, spans)
    ensures Held(owner, EndState(start, spans)) == PlanResult(ops, Held(owner, start))
  {
    var lists := seq(|ops| + 1, i requires 0 <= i <= |ops| => Held(owner, EndState(start, spans[..i])));
    forall i {:trigger ops[i]} | 0 <= i < |ops| ensures lists[i + 1] == EditedBy(ops[i], lists[i]) {
      TurnEdits(settings, owner, ops, start, spans, i);
    }
    ListsFold(ops, lists, |ops|);
    assert spans[..|ops|] == spans && ops[..|ops|] == ops;
    PlanFinalizers(ops, Held(owner, start));
  }
}
