/** Running a plan a second time: when every object is written by one operation, a
    repeated run without interference changes no object and issues no version. */
module PlanReplay {
  import opened Wrappers
  import opened Json
  import opened Contract
  import opened ApiServer
  import opened ApplyDocument
  import opened PlanValidation
  import opened Finalizers
  import opened TargetDocuments
  import opened PlanEffects
  import opened PlanApplier
  import opened RepeatedApply

  predicate AllDecoded(ops: seq<Operation>) {
    forall i :: 0 <= i < |ops| && ops[i].Apply? ==> Decoded(ops[i].resource)
  }

  /** The operations one after another, nobody else acting. */
  function RunPlan(settings: Settings, owner: ObjectRef, ops: seq<Operation>, s: State): (r: Result<State, Error>)
    requires WellFormed(s) && AllDecoded(ops)
    ensures r.Success? ==> WellFormed(r.value)
    decreases |ops|
  {
    if ops == [] then Success(s)
    else
      var last := |ops| - 1;
      var before :- RunPlan(settings, owner, ops[..last], s);
      CarriedEvolves(settings, owner, ops[last], before, before);
      Carried(settings, owner, ops[last], before, before)
  }

  // ----- Plans that can be repeated -----

  /** A local, unconditional apply of another object without a status; a status; a finalizer edit; an event;
      a requeue. */
  predicate Simple(owner: ObjectRef, op: Operation) {
    match op
    case Apply(resource, _, _, _, connection, authority) =>
      && Decoded(resource) && connection.None? && authority.None?
      && resource.metadata.resourceVersion.None? && resource.status.None?
      && ObjectKey(None, resource) != RefKey(None, owner)
    case Patch(_, _, _, _) => false
    case Delete(_, _, _, _) => false
    case _ => true
  }

  /** The first comes before the second without the second undoing it. */
  predicate Compatible(owner: ObjectRef, first: Operation, second: Operation) {
    && Order(first) <= Order(second)
    && ((first.Apply? && second.Apply?) || (first.Status? && second.Status?) ==>
        TargetKey(owner, first) != TargetKey(owner, second))
    && (first.Finalizer? && second.Finalizer? && first.mutation != second.mutation ==>
        first.finalizer != second.finalizer)
  }

  predicate Repeatable(owner: ObjectRef, ops: seq<Operation>) {
    && (forall i :: 0 <= i < |ops| ==> Simple(owner, ops[i]))
    && forall i, j :: 0 <= i < j < |ops| ==> Compatible(owner, ops[i], ops[j])
  }

  // ----- Operations that stand -----

  function ApplyIntent(settings: Settings, owner: ObjectRef, op: Operation): Result<Value, Error>
    requires op.Apply? && Decoded(op.resource)
  {
    var doc :- Submitted(settings, owner, op);
    Success(Intent(doc))
  }

  function ListIntent(owner: ObjectRef, list: seq<string>): Value {
    Intent(FinalizerDocument(owner, list))
  }

  function StatusOf(owner: ObjectRef, op: Operation): Value
    requires op.Status?
  {
    StatusIntent(StatusDocument(op.target.GetOr(owner), op.status))
  }

  /** What the operation would do has been done and not been undone. */
  predicate Stands(settings: Settings, owner: ObjectRef, op: Operation, s: State)
    requires Simple(owner, op)
  {
    match op
    case Apply(resource, _, _, _, _, _) =>
      var key, intent := ObjectKey(None, resource), ApplyIntent(settings, owner, op);
      intent.Success? && key in s.objects
          && Holds(s.objects[key], EffectiveManager(op, settings.fieldManager), intent.value)
    case Status(_, target) =>
      var ref := target.GetOr(owner);
      && Resolve(settings, None, ref.apiVersion).Success? && RefKey(None, ref) in s.objects
      && StatusHolds(s.objects[RefKey(None, ref)], settings.fieldManager, StatusOf(owner, op))
    case Finalizer(mutation, finalizer) =>
      var key := RefKey(None, owner);
      && Resolve(settings, None, owner.apiVersion).Success? && key in s.objects
      && var list := FinalizerList(s.objects[key]);
         Edited(list, mutation, finalizer) == list
             && Holds(s.objects[key], settings.fieldManager, ListIntent(owner, list))
    case Event(_, reason, _, regarding) =>
      EventNamespace(owner, regarding).Some? && EventKey(owner, reason, regarding) in s.objects
    case _ => true
  }

  lemma ApplyDocumentIsPlain(settings: Settings, owner: ObjectRef, op: Operation)
    requires op.Apply? && Simple(owner, op) && Submitted(settings, owner, op).Success?
    ensures var doc := Submitted(settings, owner, op).value;
            HasMetadata(doc) && Version(doc).None? && IsIntent(Intent(doc)) && STATUS !in Intent(doc).entries
  {
    DocumentOmits(owner, op.resource, op.ownership);
    IntentIsIntent(Submitted(settings, owner, op).value);
  }

  lemma ListDocumentIsPlain(owner: ObjectRef, list: seq<string>)
    ensures var doc := FinalizerDocument(owner, list);
            HasMetadata(doc) && Version(doc).None? && IsIntent(ListIntent(owner, list))
                && STATUS !in ListIntent(owner, list).entries
  {
    FinalizerDocumentLeaf(owner, list);
    IntentIsIntent(FinalizerDocument(owner, list));
  }

  lemma StatusDocumentIsPlain(target: ObjectRef, status: Value)
    ensures var doc := StatusDocument(target, status);
            HasMetadata(doc) && Version(doc).None? && IsStatusIntent(StatusIntent(doc))
  {
    PrunedMeta(Object(TargetDocument(target, TargetMeta(target)).entries[STATUS := status]), "resourceVersion");
  }

  // ----- An operation that stands does nothing -----

  lemma HeldApplyKeepsState(s: State, key: Key, manager: string, force: bool, doc: Value)
    requires WellFormed(s) && key in s.objects && HasMetadata(doc) && Version(doc).None?
    requires Holds(s.objects[key], manager, Intent(doc))
    ensures ApplyResult(s, key, manager, force, doc) == Success((s, s.objects[key]))
  {
    HeldApplyIsNoOp(s.objects[key], manager, Intent(doc));
  }

  lemma HeldStatusKeepsState(s: State, key: Key, manager: string, force: bool, doc: Value)
    requires WellFormed(s) && key in s.objects && HasMetadata(doc) && Version(doc).None?
    requires StatusHolds(s.objects[key], manager, StatusIntent(doc))
    ensures StatusResult(s, key, manager, force, doc) == Success((s, s.objects[key]))
  {
    HeldStatusIsNoOp(s.objects[key], manager, StatusIntent(doc));
  }

  /** It succeeds and leaves the server, versions included, as it is. */
  lemma StandingIsNoOp(settings: Settings, owner: ObjectRef, op: Operation, s: State)
    requires WellFormed(s) && Simple(owner, op) && Stands(settings, owner, op, s)
    ensures Carried(settings, owner, op, s, s) == Success(s)
  {
    match op {
      case Apply(resource, _, force, _, _, _) =>
        ApplyDocumentIsPlain(settings, owner, op);
        HeldApplyKeepsState(s, ObjectKey(None, resource), EffectiveManager(op, settings.fieldManager),
            force.GetOr(false),
                            Submitted(settings, owner, op).value);
      case Status(status, target) =>
        var ref := target.GetOr(owner);
        StatusDocumentIsPlain(ref, status);
        HeldStatusKeepsState(s, RefKey(None, ref), settings.fieldManager, settings.forceStatus,
            StatusDocument(ref, status));
      case Finalizer(_, _) =>
        var key := RefKey(None, owner);
        var list := FinalizerList(s.objects[key]);
        ListDocumentIsPlain(owner, list);
        HeldApplyKeepsState(s, key, settings.fieldManager, false, FinalizerDocument(owner, list));
      case _ =>
    }
  }

  // ----- An operation stands after it has been carried out -----

  lemma StoredHolds(s: State, key: Key, made: Value, manager: string, intent: Value)
    requires key in s.objects && Holds(made, manager, intent)
    ensures var (next, stored) := Store(s, key, made);
            At(next, key) == Some(stored) && Holds(stored, manager, intent)
  {
    StoredDocument(s, key, made);
    HoldsStamp(made, manager, intent, Uid(made).value, Token(s.clock));
  }

  lemma StoredStatusHolds(s: State, key: Key, made: Value, manager: string, intent: Value)
    requires key in s.objects && StatusHolds(made, manager, intent)
    ensures var (next, stored) := Store(s, key, made);
            At(next, key) == Some(stored) && StatusHolds(stored, manager, intent)
  {
    StoredDocument(s, key, made);
    StatusHoldsStamp(made, manager, intent, Uid(made).value, Token(s.clock));
  }

  lemma AppliedStands(s: State, key: Key, manager: string, force: bool, doc: Value)
    requires WellFormed(s) && HasMetadata(doc)
    ensures var r := ApplyResult(s, key, manager, force, doc);
            r.Success? ==> At(r.value.0, key) == Some(r.value.1) && Holds(r.value.1, manager, Intent(doc))
  {
    var intent := Intent(doc);
    IntentIsIntent(doc);
    if key in s.objects {
      AppliedHolds(s.objects[key], manager, intent);
      StoredHolds(s, key, Applied(s.objects[key], manager, intent), manager, intent);
    } else {
      CreatedHolds(doc, manager, Token(s.clock));
    }
  }

  lemma StatusStands(s: State, key: Key, manager: string, force: bool, doc: Value)
    requires WellFormed(s)
    ensures var r := StatusResult(s, key, manager, force, doc);
            r.Success? ==> At(r.value.0, key) == Some(r.value.1) && StatusHolds(r.value.1, manager, StatusIntent(doc))
  {
    if key in s.objects {
      var intent := StatusIntent(doc);
      StatusAppliedHolds(s.objects[key], manager, intent);
      StoredStatusHolds(s, key, StatusApplied(s.objects[key], manager, intent), manager, intent);
    }
  }

  lemma EditedAgain(list: seq<string>, mutation: FinalizerMutation, finalizer: string)
    ensures var once := Edited(list, mutation, finalizer);
            Edited(once, mutation, finalizer) == once
  {
    if mutation.RemoveFinalizer? {
      KeepTwice(list, {finalizer}, {finalizer});
      assert {finalizer} + {finalizer} == {finalizer};
    }
  }

  lemma CarriedStands(settings: Settings, owner: ObjectRef, op: Operation, s: State)
    requires WellFormed(s) && Simple(owner, op) && Carried(settings, owner, op, s, s).Success?
    ensures Stands(settings, owner, op, Carried(settings, owner, op, s, s).value)
  {
    match op {
      case Apply(resource, _, force, _, _, _) =>
        ApplyDocumentIsPlain(settings, owner, op);
        AppliedStands(s, ObjectKey(None, resource), EffectiveManager(op, settings.fieldManager), force.GetOr(false),
                      Submitted(settings, owner, op).value);
      case Status(status, target) =>
        var ref := target.GetOr(owner);
        StatusStands(s, RefKey(None, ref), settings.fieldManager, settings.forceStatus, StatusDocument(ref, status));
      case Finalizer(mutation, finalizer) =>
        var key := RefKey(None, owner);
        var list := Edited(FinalizerList(s.objects[key]), mutation, finalizer);
        ListDocumentIsPlain(owner, list);
        AppliedStands(s, key, settings.fieldManager, false, FinalizerDocument(owner, list));
        FinalizersStored(s, key, settings.fieldManager, owner, list);
        EditedAgain(FinalizerList(s.objects[key]), mutation, finalizer);
      case _ =>
    }
  }

  // ----- The manager's own entry stays clear of the status -----

  /** Everything in the entry is outside the status. */
  predicate ClearOfStatus(entry: Value) {
    forall p :: p in OwnedPaths(entry) ==> p == [] || p[0] != STATUS
  }

  predicate EntriesClear(entries: seq<Value>, manager: string) {
    forall i :: 0 <= i < |entries| && IsEntryOf(entries[i], manager, "Apply") ==> ClearOfStatus(entries[i])
  }

  /** The owner's finalizers and status are written by one manager; its main entry has no status in it. */
  predicate OwnsNoStatus(settings: Settings, owner: ObjectRef, s: State) {
    RefKey(None, owner) in s.objects ==>
        EntriesClear(ManagedFields(s.objects[RefKey(None, owner)]), settings.fieldManager)
  }

  lemma ClearApplies(live: Value, manager: string)
    ensures EntriesClear(ManagedFields(live), manager) ==> AppliesNoStatus(live, manager)
  {
  }

  lemma {:induction false} DropShrinks(v: Value, gone: set<Path>)
    ensures LeafPaths(Drop(v, gone)) <= LeafPaths(v)
  {
    if v.Object? {
      forall k | k in v.entries ensures LeafPaths(Drop(v.entries[k], Under(gone, k))) <= LeafPaths(v.entries[k]) {
        DropShrinks(v.entries[k], Under(gone, k));
      }
    }
  }

  lemma RelinquishClear(entry: Value, taken: set<Path>)
    requires ClearOfStatus(entry)
    ensures ClearOfStatus(Relinquish(entry, taken))
  {
    match Field(entry, "fieldsV1") {
      case Some(fields) => DropShrinks(fields, taken);
      case None =>
    }
  }

  lemma {:induction false} OtherEntriesClear(entries: seq<Value>, manager: string, other: string, taken: set<Path>,
      subresource: string)
    requires EntriesClear(entries, manager)
    ensures EntriesClear(OtherEntries(entries, other, taken, subresource), manager)
  {
    if entries != [] {
      OtherEntriesClear(entries[1..], manager, other, taken, subresource);
      if IsEntryOf(entries[0], manager, "Apply") {
        RelinquishClear(entries[0], taken);
      }
    }
  }

  lemma {:induction false} UpdatedEntriesClear(entries: seq<Value>, manager: string, other: string, taken: set<Path>,
      renewed: Value, subresource: string)
    requires EntriesClear(entries, manager) && (IsEntryOf(renewed, manager, "Apply") ==> ClearOfStatus(renewed))
    ensures EntriesClear(UpdatedEntries(entries, other, taken, renewed, subresource), manager)
  {
    if entries != [] {
      assert EntriesClear(entries[1..], manager);
      if IsEntryOf(entries[0], other, "Apply", subresource) {
        OtherEntriesClear(entries[1..], manager, other, taken, subresource);
      } else {
        UpdatedEntriesClear(entries[1..], manager, other, taken, renewed, subresource);
        if IsEntryOf(entries[0], manager, "Apply") {
          RelinquishClear(entries[0], taken);
        }
      }
    }
  }

  lemma HeldIntentClear(v: Value, manager: string, intent: Value)
    requires Holds(v, manager, intent) && STATUS !in intent.entries
    ensures EntriesClear(ManagedFields(v), manager)
  {
    OnlyRecorded(ManagedFields(v), manager, ManagedEntry(manager, "Apply", intent), "");
    ShapeKeepsPaths(intent);
  }

  lemma StatusAppliedClear(live: Value, manager: string, intent: Value)
    requires IsStored(live) && EntriesClear(ManagedFields(live), manager)
    ensures EntriesClear(ManagedFields(StatusApplied(live, manager, intent)), manager)
  {
    UpdatedEntriesClear(ManagedFields(live), manager, manager, ConflictPaths(live, manager, intent, STATUS),
                        StatusEntry(manager, intent), STATUS);
  }

  lemma StatusKeepsClear(s: State, key: Key, manager: string, force: bool, doc: Value)
    requires WellFormed(s) && key in s.objects && EntriesClear(ManagedFields(s.objects[key]), manager)
    ensures var r := StatusResult(s, key, manager, force, doc);
            r.Success? ==> At(r.value.0, key) == Some(r.value.1) && EntriesClear(ManagedFields(r.value.1), manager)
  {
    var made := StatusApplied(s.objects[key], manager, StatusIntent(doc));
    StatusAppliedClear(s.objects[key], manager, StatusIntent(doc));
    StoredDocument(s, key, made);
  }

  /** The call behind a status or finalizer operation that succeeds. */
  lemma StatusIsResult(settings: Settings, owner: ObjectRef, op: Operation, s: State)
    requires WellFormed(s) && op.Status? && Carried(settings, owner, op, s, s).Success?
    ensures var ref := op.target.GetOr(owner);
            var r := StatusResult(s, RefKey(None, ref), settings.fieldManager, settings.forceStatus,
                StatusDocument(ref, op.status));
            && RefKey(None, ref) in s.objects
            && r.Success? && Carried(settings, owner, op, s, s) == Success(r.value.0)
  {
  }

  lemma ListIsResult(settings: Settings, owner: ObjectRef, op: Operation, s: State)
    requires WellFormed(s) && op.Finalizer? && Carried(settings, owner, op, s, s).Success?
    ensures var key := RefKey(None, owner);
            && key in s.objects
            && var list := Edited(FinalizerList(s.objects[key]), op.mutation, op.finalizer);
               var r := ApplyResult(s, key, settings.fieldManager, false, FinalizerDocument(owner, list));
               r.Success? && Carried(settings, owner, op, s, s) == Success(r.value.0)
  {
  }

  lemma OwnsNoStatusStays(settings: Settings, owner: ObjectRef, op: Operation, s: State)
    requires WellFormed(s) && Simple(owner, op) && OwnsNoStatus(settings, owner, s)
    requires Carried(settings, owner, op, s, s).Success?
    ensures OwnsNoStatus(settings, owner, Carried(settings, owner, op, s, s).value)
  {
    var key := RefKey(None, owner);
    if TargetKey(owner, op) != Some(key) {
      CarriedElsewhere(settings, owner, op, s, s, key);
      SameOwnerClear(settings, owner, s, Carried(settings, owner, op, s, s).value);
    } else {
      match op {
        case Finalizer(_, _) => ListWriteClear(settings, owner, op, s);
        case Status(_, _) => StatusWriteClear(settings, owner, op, s);
        case Event(_, _, _, _) => EventWriteClear(settings, owner, op, s);
      }
    }
  }

  lemma SameOwnerClear(settings: Settings, owner: ObjectRef, s: State, next: State)
    requires At(next, RefKey(None, owner)) == At(s, RefKey(None, owner))
    ensures OwnsNoStatus(settings, owner, next) <==> OwnsNoStatus(settings, owner, s)
  {
  }

  lemma ListWriteClear(settings: Settings, owner: ObjectRef, op: Operation, s: State)
    requires WellFormed(s) && op.Finalizer? && Carried(settings, owner, op, s, s).Success?
    ensures OwnsNoStatus(settings, owner, Carried(settings, owner, op, s, s).value)
  {
    var key := RefKey(None, owner);
    CarriedStands(settings, owner, op, s);
    var doc := Carried(settings, owner, op, s, s).value.objects[key];
    ListDocumentIsPlain(owner, FinalizerList(doc));
    HeldIntentClear(doc, settings.fieldManager, ListIntent(owner, FinalizerList(doc)));
  }

  lemma StatusWriteClear(settings: Settings, owner: ObjectRef, op: Operation, s: State)
    requires WellFormed(s) && op.Status? && Carried(settings, owner, op, s, s).Success?
    requires OwnsNoStatus(settings, owner, s) && TargetKey(owner, op) == Some(RefKey(None, owner))
    ensures OwnsNoStatus(settings, owner, Carried(settings, owner, op, s, s).value)
  {
    StatusIsResult(settings, owner, op, s);
    StatusKeepsClear(s, RefKey(None, owner), settings.fieldManager, settings.forceStatus,
        StatusDocument(op.target.GetOr(owner), op.status));
  }

  lemma EventWriteClear(settings: Settings, owner: ObjectRef, op: Operation, s: State)
    requires WellFormed(s) && op.Event? && Carried(settings, owner, op, s, s).Success?
    requires OwnsNoStatus(settings, owner, s)
    ensures OwnsNoStatus(settings, owner, Carried(settings, owner, op, s, s).value)
  {
    var key := EventKey(owner, op.reason, op.regarding);
    var doc := EventDocument(owner, op.warning, op.reason, op.message, op.regarding);
    EventCall(settings, owner, op, s);
    CreateKeepsOwnerClear(settings, owner, s, key, doc);
  }

  lemma CreateKeepsOwnerClear(settings: Settings, owner: ObjectRef, s: State, key: Key, doc: Value)
    requires OwnsNoStatus(settings, owner, s)
    ensures var r := CreateResult(s, key, "", "Update", doc);
            r.Success? ==> OwnsNoStatus(settings, owner, r.value.0)
  {
    if key !in s.objects && HasMetadata(doc) {
      assert !IsEntryOf(ManagedEntry("", "Update", Intent(doc)), settings.fieldManager, "Apply");
    }
  }

  // ----- What stands stays -----

  /** Whether an operation stands depends on its own object only. */
  lemma SameObjectStands(settings: Settings, owner: ObjectRef, op: Operation, s: State, next: State)
    requires Simple(owner, op) && Stands(settings, owner, op, s)
    requires TargetKey(owner, op).Some? ==> At(next, TargetKey(owner, op).value) == At(s, TargetKey(owner, op).value)
    ensures Stands(settings, owner, op, next)
  {
  }

  lemma StatusKeepsHolds(s: State, key: Key, writer: string, force: bool, doc: Value, manager: string, intent: Value)
    requires WellFormed(s) && key in s.objects && Holds(s.objects[key], manager, intent) && STATUS !in intent.entries
    ensures var r := StatusResult(s, key, writer, force, doc);
            r.Success? ==> At(r.value.0, key) == Some(r.value.1) && Holds(r.value.1, manager, intent)
  {
    HoldsUnderStatus(s.objects[key], manager, intent, writer, StatusIntent(doc));
    StoredHolds(s, key, StatusApplied(s.objects[key], writer, StatusIntent(doc)), manager, intent);
  }

  lemma ApplyKeepsStatusHolds(s: State, key: Key, writer: string, force: bool, doc: Value, manager: string,
      status: Value)
    requires WellFormed(s) && key in s.objects && StatusHolds(s.objects[key], manager, status)
    requires HasMetadata(doc) && STATUS !in Intent(doc).entries && EntriesClear(ManagedFields(s.objects[key]), writer)
    ensures var r := ApplyResult(s, key, writer, force, doc);
            r.Success? ==> At(r.value.0, key) == Some(r.value.1) && StatusHolds(r.value.1, manager, status)
  {
    IntentIsIntent(doc);
    ClearApplies(s.objects[key], writer);
    StatusHoldsUnderApply(s.objects[key], manager, status, writer, Intent(doc));
    StoredStatusHolds(s, key, Applied(s.objects[key], writer, Intent(doc)), manager, status);
  }

  lemma ApplyUnderStatus(settings: Settings, owner: ObjectRef, first: Operation, second: Operation, s: State)
    requires WellFormed(s) && first.Apply? && Simple(owner, first) && Stands(settings, owner, first, s)
    requires second.Status? && TargetKey(owner, second) == TargetKey(owner, first)
    requires Carried(settings, owner, second, s, s).Success?
    ensures Stands(settings, owner, first, Carried(settings, owner, second, s, s).value)
  {
    var ref := second.target.GetOr(owner);
    ApplyDocumentIsPlain(settings, owner, first);
    StatusIsResult(settings, owner, second, s);
    StatusKeepsHolds(s, RefKey(None, ref), settings.fieldManager, settings.forceStatus,
        StatusDocument(ref, second.status),
                     EffectiveManager(first, settings.fieldManager), ApplyIntent(settings, owner, first).value);
  }

  lemma FinalizerUnderStatus(settings: Settings, owner: ObjectRef, first: Operation, second: Operation, s: State)
    requires WellFormed(s) && first.Finalizer? && Stands(settings, owner, first, s)
    requires second.Status? && TargetKey(owner, second) == TargetKey(owner, first)
    requires Carried(settings, owner, second, s, s).Success?
    ensures Stands(settings, owner, first, Carried(settings, owner, second, s, s).value)
  {
    var key := RefKey(None, owner);
    var list, document := FinalizerList(s.objects[key]), StatusDocument(second.target.GetOr(owner), second.status);
    ListDocumentIsPlain(owner, list);
    StatusIsResult(settings, owner, second, s);
    StatusKeepsHolds(s, key, settings.fieldManager, settings.forceStatus, document, settings.fieldManager,
        ListIntent(owner, list));
    StatusKeepsFinalizers(s, key, settings.fieldManager, settings.forceStatus, document);
  }

  lemma StatusKeepsFinalizers(s: State, key: Key, manager: string, force: bool, doc: Value)
    requires WellFormed(s) && key in s.objects
    ensures var r := StatusResult(s, key, manager, force, doc);
            r.Success? ==>
              At(r.value.0, key) == Some(r.value.1) && FinalizerList(r.value.1) == FinalizerList(s.objects[key])
  {
    StatusTouchesOnlyStatus(s, key, manager, force, doc);
  }

  lemma StatusUnderFinalizer(settings: Settings, owner: ObjectRef, first: Operation, second: Operation, s: State)
    requires WellFormed(s) && first.Status? && Stands(settings, owner, first, s) && OwnsNoStatus(settings, owner, s)
    requires second.Finalizer? && TargetKey(owner, second) == TargetKey(owner, first)
    requires Carried(settings, owner, second, s, s).Success?
    ensures Stands(settings, owner, first, Carried(settings, owner, second, s, s).value)
  {
    var key, next := RefKey(None, owner), Carried(settings, owner, second, s, s).value;
    assert RefKey(None, first.target.GetOr(owner)) == key;
    ListKeepsStatusHolds(settings, owner, second, s, settings.fieldManager, StatusOf(owner, first));
    StatusStandsAt(settings, owner, first, s, next);
  }

  lemma StatusStandsAt(settings: Settings, owner: ObjectRef, op: Operation, s: State, next: State)
    requires op.Status? && Stands(settings, owner, op, s)
    requires var key := RefKey(None, op.target.GetOr(owner));
             key in next.objects && StatusHolds(next.objects[key], settings.fieldManager, StatusOf(owner, op))
    ensures Stands(settings, owner, op, next)
  {
  }

  lemma ListKeepsStatusHolds(settings: Settings, owner: ObjectRef, op: Operation, s: State, manager: string,
      status: Value)
    requires WellFormed(s) && op.Finalizer? && Carried(settings, owner, op, s, s).Success?
        && OwnsNoStatus(settings, owner, s)
    requires RefKey(None, owner) in s.objects && StatusHolds(s.objects[RefKey(None, owner)], manager, status)
    ensures var next := Carried(settings, owner, op, s, s).value;
            RefKey(None, owner) in next.objects && StatusHolds(next.objects[RefKey(None, owner)], manager, status)
  {
    var key := RefKey(None, owner);
    var list := Edited(FinalizerList(s.objects[key]), op.mutation, op.finalizer);
    ListIsResult(settings, owner, op, s);
    ListDocumentIsPlain(owner, list);
    ApplyKeepsStatusHolds(s, key, settings.fieldManager, false, FinalizerDocument(owner, list), manager, status);
  }

  lemma EditsCommute(list: seq<string>, first: Operation, second: Operation)
    requires first.Finalizer? && second.Finalizer?
        && (first.mutation != second.mutation ==> first.finalizer != second.finalizer)
    requires Edited(list, first.mutation, first.finalizer) == list
    ensures var after := Edited(list, second.mutation, second.finalizer);
            Edited(after, first.mutation, first.finalizer) == after
  {
    var after := Edited(list, second.mutation, second.finalizer);
    KeepMembers(list, {first.finalizer});
    KeepMembers(list, {second.finalizer});
    match first.mutation {
      case AddFinalizer => assert first.finalizer in list;
      case RemoveFinalizer =>
        assert first.finalizer !in list;
        KeepAll(after, {first.finalizer});
    }
  }

  lemma FinalizerUnderFinalizer(settings: Settings, owner: ObjectRef, first: Operation, second: Operation, s: State)
    requires WellFormed(s) && first.Finalizer? && Stands(settings, owner, first, s)
    requires second.Finalizer? && Compatible(owner, first, second) && Carried(settings, owner, second, s, s).Success?
    ensures Stands(settings, owner, first, Carried(settings, owner, second, s, s).value)
  {
    var key := RefKey(None, owner);
    var list := FinalizerList(s.objects[key]);
    CarriedStands(settings, owner, second, s);
    FinalizersStored(s, key, settings.fieldManager, owner, Edited(list, second.mutation, second.finalizer));
    EditsCommute(list, first, second);
  }

  lemma Survives(settings: Settings, owner: ObjectRef, first: Operation, second: Operation, s: State)
    requires WellFormed(s) && Simple(owner, first) && Simple(owner, second) && Compatible(owner, first, second)
    requires Stands(settings, owner, first, s) && OwnsNoStatus(settings, owner, s)
    requires Carried(settings, owner, second, s, s).Success?
    ensures Stands(settings, owner, first, Carried(settings, owner, second, s, s).value)
  {
    var next := Carried(settings, owner, second, s, s).value;
    var key := TargetKey(owner, first);
    if key.None? || TargetKey(owner, second) != key {
      if key.Some? {
        CarriedElsewhere(settings, owner, second, s, s, key.value);
      }
      SameObjectStands(settings, owner, first, s, next);
    } else if second.Event? {
      assert next == s;
    } else if first.Event? {
      CarriedStands(settings, owner, second, s);
    } else if second.Status? {
      if first.Apply? {
        ApplyUnderStatus(settings, owner, first, second, s);
      } else {
        FinalizerUnderStatus(settings, owner, first, second, s);
      }
    } else if first.Status? {
      StatusUnderFinalizer(settings, owner, first, second, s);
    } else {
      FinalizerUnderFinalizer(settings, owner, first, second, s);
    }
  }

  // ----- The whole plan -----

  ghost predicate AllStand(settings: Settings, owner: ObjectRef, ops: seq<Operation>, s: State)
    requires forall i :: 0 <= i < |ops| ==> Simple(owner, ops[i])
  {
    forall i :: 0 <= i < |ops| ==> Stands(settings, owner, ops[i], s)
  }

  /** After a run without interference every operation stands. */
  lemma {:induction false} RunStands(settings: Settings, owner: ObjectRef, ops: seq<Operation>, s: State)
    requires WellFormed(s) && AllDecoded(ops) && Repeatable(owner, ops) && OwnsNoStatus(settings, owner, s)
    requires RunPlan(settings, owner, ops, s).Success?
    ensures AllStand(settings, owner, ops, RunPlan(settings, owner, ops, s).value)
    ensures OwnsNoStatus(settings, owner, RunPlan(settings, owner, ops, s).value)
    decreases |ops|
  {
    if ops != [] {
      var last := |ops| - 1;
      RunStands(settings, owner, ops[..last], s);
      var before := RunPlan(settings, owner, ops[..last], s).value;
      LastStands(settings, owner, ops, before);
      OwnsNoStatusStays(settings, owner, ops[last], before);
    }
  }

  lemma LastStands(settings: Settings, owner: ObjectRef, ops: seq<Operation>, before: State)
    requires ops != [] && WellFormed(before) && Repeatable(owner, ops) && OwnsNoStatus(settings, owner, before)
    requires AllStand(settings, owner, ops[..|ops| - 1], before)
    requires Carried(settings, owner, ops[|ops| - 1], before, before).Success?
    ensures AllStand(settings, owner, ops, Carried(settings, owner, ops[|ops| - 1], before, before).value)
  {
    var last := |ops| - 1;
    var next := Carried(settings, owner, ops[last], before, before).value;
    forall i | 0 <= i < |ops| ensures Stands(settings, owner, ops[i], next) {
      if i < last {
        assert ops[..last][i] == ops[i];
        assert Compatible(owner, ops[i], ops[last]);
        Survives(settings, owner, ops[i], ops[last], before);
      } else {
        CarriedStands(settings, owner, ops[last], before);
      }
    }
  }

  lemma {:induction false} StandingPlanIsNoOp(settings: Settings, owner: ObjectRef, ops: seq<Operation>, s: State)
    requires WellFormed(s) && AllDecoded(ops) && forall i :: 0 <= i < |ops| ==> Simple(owner, ops[i])
    requires AllStand(settings, owner, ops, s)
    ensures RunPlan(settings, owner, ops, s) == Success(s)
    decreases |ops|
  {
    if ops != [] {
      var last := |ops| - 1;
      assert AllStand(settings, owner, ops[..last], s);
      StandingPlanIsNoOp(settings, owner, ops[..last], s);
      StandingIsNoOp(settings, owner, ops[last], s);
    }
  }

  /** A repeatable plan run twice, nobody else acting, leaves what the first run left: the same objects and
      not one new version. */
  lemma SecondRunChangesNothing(settings: Settings, owner: ObjectRef, ops: seq<Operation>, s: State)
    requires WellFormed(s) && AllDecoded(ops) && Repeatable(owner, ops) && OwnsNoStatus(settings, owner, s)
    requires RunPlan(settings, owner, ops, s).Success?
    ensures var once := RunPlan(settings, owner, ops, s).value;
            RunPlan(settings, owner, ops, once) == Success(once)
  {
    RunStands(settings, owner, ops, s);
    StandingPlanIsNoOp(settings, owner, ops, RunPlan(settings, owner, ops, s).value);
  }

  // ----- Runs of the applier -----

  /** Nobody else acted, and no operation was a run of the remote protocol. */
  ghost predicate Undisturbed(ops: seq<Operation>, start: State, spans: seq<Span>) {
    && |spans| <= |ops|
    && forall i {:trigger spans[i]} :: 0 <= i < |spans| ==>
         !IsManagedApply(ops[i]) && spans[i].seen == spans[i].at == EndState(start, spans[..i])
  }

  lemma AnsweredIsCarried(settings: Settings, owner: ObjectRef, op: Operation, span: Span)
    requires Answered(settings, owner, op, span, Success(())) && !IsManagedApply(op) && span.seen == span.at
    ensures Carried(settings, owner, op, span.at, span.at) == Success(span.now)
  {
  }

  /** One operation, nobody else acting. */
  ghost predicate Leads(settings: Settings, owner: ObjectRef, op: Operation, s: State, next: State) {
    (op.Apply? ==> Decoded(op.resource)) && WellFormed(s) && Carried(settings, owner, op, s, s) == Success(next)
  }

  lemma TurnLeads(settings: Settings, owner: ObjectRef, ops: seq<Operation>, start: State, spans: seq<Span>, i: nat)
    requires InTurn(settings, owner, ops, start, spans, None) && i < |spans| <= |ops| && Undisturbed(ops, start, spans)
    ensures Leads(settings, owner, ops[i], EndState(start, spans[..i]), EndState(start, spans[..i + 1]))
  {
    var span := spans[i];
    TurnAt(settings, owner, ops, start, spans, None, i);
    AnsweredIsCarried(settings, owner, ops[i], span);
    assert EndState(start, spans[..i + 1]) == span.now;
  }

  lemma RunPlanLast(settings: Settings, owner: ObjectRef, ops: seq<Operation>, n: nat, start: State, before: State,
      next: State)
    requires n < |ops| && WellFormed(start) && AllDecoded(ops) && Leads(settings, owner, ops[n], before, next)
    requires RunPlan(settings, owner, ops[..n], start) == Success(before)
    ensures RunPlan(settings, owner, ops[..n + 1], start) == Success(next)
  {
    assert ops[..n + 1][..n] == ops[..n] && ops[..n + 1][n] == ops[n];
  }

  /** A chain of states, each led to from the one before, is a run. */
  lemma {:induction false} ChainRuns(settings: Settings, owner: ObjectRef, ops: seq<Operation>, states: seq<State>,
      n: nat)
    requires |states| == |ops| + 1 && n <= |ops| && AllDecoded(ops) && WellFormed(states[0])
    requires forall i {:trigger states[i]} :: 0 <= i < |ops| ==>
        Leads(settings, owner, ops[i], states[i], states[i + 1])
    ensures RunPlan(settings, owner, ops[..n], states[0]) == Success(states[n])
  {
    if n > 0 {
      ChainRuns(settings, owner, ops, states, n - 1);
      var before := states[n - 1];
      RunPlanLast(settings, owner, ops, n - 1, states[0], before, states[n]);
    }
  }

  /** Such a successful run is the plan run on the server alone. */
  lemma UndisturbedRun(settings: Settings, owner: ObjectRef, ops: seq<Operation>, start: State, spans: seq<Span>)
    requires WellFormed(start) && AllDecoded(ops) && |spans| == |ops|
    requires InTurn(settings, owner, ops, start, spans, None) && Undisturbed(ops, start, spans)
    ensures RunPlan(settings, owner, ops, start) == Success(EndState(start, spans))
  {
    var states := seq(|ops| + 1, i requires 0 <= i <= |ops| => EndState(start, spans[..i]));
    forall i {:trigger states[i]} | 0 <= i < |ops| ensures Leads(settings, owner, ops[i], states[i], states[i + 1]) {
      TurnLeads(settings, owner, ops, start, spans, i);
    }
    ChainRuns(settings, owner, ops, states, |ops|);
    assert spans[..|ops|] == spans && ops[..|ops|] == ops;
  }

  /** Two successful runs of the applier in a row, nobody else acting: the second changes nothing. */
  lemma RepeatedRunChangesNothing(settings: Settings, owner: ObjectRef, ops: seq<Operation>, start: State,
      first: seq<Span>, second: seq<Span>)
    requires WellFormed(start) && AllDecoded(ops) && Repeatable(owner, ops) && OwnsNoStatus(settings, owner, start)
    requires |first| == |ops| && InTurn(settings, owner, ops, start, first, None) && Undisturbed(ops, start, first)
    requires var once := EndState(start, first);
             |second| == |ops| && InTurn(settings, owner, ops, once, second, None) && Undisturbed(ops, once, second)
    ensures EndState(EndState(start, first), second) == EndState(start, first)
  {
    var once := EndState(start, first);
    UndisturbedRun(settings, owner, ops, start, first);
    UndisturbedRun(settings, owner, ops, once, second);
    SecondRunChangesNothing(settings, owner, ops, start);
  }
}
