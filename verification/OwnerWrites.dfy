/** Applies, patches and deletes that a plan aims at its own owner, and what they do to
    the owner's finalizer list. */
module OwnerWrites {
  import opened Wrappers
  import opened Json
  import JsonPatch
  import opened Contract
  import opened ApiServer
  import opened ApplyDocument
  import opened PlanValidation
  import opened RemoteApply
  import opened TargetDocuments
  import opened PlanEffects
  import opened Finalizers
  import opened Text

  function OwnerKey(owner: ObjectRef): Key {
    RefKey(None, owner)
  }

  function Held(owner: ObjectRef, s: State): seq<string> {
    match At(s, OwnerKey(owner))
    case Some(doc) => FinalizerList(doc)
    case None => []
  }

  /** An apply, patch or delete of the plan aimed at the owner itself. */
  predicate WritesOwner(owner: ObjectRef, op: Operation) {
    (op.Apply? || op.Patch? || op.Delete?) && TargetKey(owner, op) == Some(OwnerKey(owner))
  }

  lemma CreatedKeepsMeta(doc: Value, manager: string, operation: string, key: string, token: string)
    requires HasMetadata(doc) && key !in {"managedFields", "uid", "resourceVersion"}
    ensures Field(Object(Meta(Created(doc, manager, operation, token))), key) == Field(Object(Meta(doc)), key)
  {
  }

  lemma OwnerWriteIsLocal(owner: ObjectRef, op: Operation, index: nat)
    requires WritesOwner(owner, op) && ValidateOperation(owner, op, index).Success?
    ensures OperationAuthority(op).None? && !IsManagedApply(op)
  {
  }

  // ----- Applies -----

  /** The manager owned the list alone and its new intent drops it. */
  predicate Abandons(live: Value, manager: string, intent: Value) {
    var gone := AbandonedPaths(live, manager, intent);
    ["metadata", "finalizers"] in gone || ["metadata"] in gone
  }

  /** The list after an apply of the owner: the one it gives, else the one there is unless abandoned. */
  function ListAfterApply(settings: Settings, owner: ObjectRef, op: Operation, doc: Value, at: State): seq<string>
    requires op.Apply?
  {
    match op.resource.metadata.finalizers
    case Some(list) => list
    case None =>
      if OwnerKey(owner) !in at.objects then []
      else
        var live := at.objects[OwnerKey(owner)];
        if Abandons(live, EffectiveManager(op, settings.fieldManager), Intent(doc)) then [] else FinalizerList(live)
  }

  lemma DroppedMeta(live: Value, gone: set<Path>)
    requires HasMetadata(live)
    ensures var base := Drop(live, gone);
            && base.Object?
            && (["metadata"] in gone ==> "metadata" !in base.entries)
            && (["metadata"] !in gone ==>
                  && HasMetadata(base)
                  && ("finalizers" in Meta(base) <==> "finalizers" in Meta(live) && ["metadata", "finalizers"] !in gone)
                  && ("finalizers" in Meta(base) ==>
                        Meta(base)["finalizers"]
                            == Drop(Meta(live)["finalizers"], Under(Under(gone, "metadata"), "finalizers"))))
  {
    var inner := Under(gone, "metadata");
    assert ["metadata", "finalizers"][1..] == ["finalizers"];
    if ["finalizers"] in inner {
      var p :| p in gone && |p| > 1 && p[0] == "metadata" && p[1..] == ["finalizers"];
      assert p == ["metadata", "finalizers"];
    }
  }

  /** Only an array counts as a list, and arrays are atomic. */
  lemma DroppedList(v: Value, gone: set<Path>)
    ensures v.Array? ==> Drop(v, gone) == v
    ensures !v.Array? ==> !Drop(v, gone).Array?
  {
  }

  lemma MergedMeta(base: Value, intent: Value, key: string)
    requires HasMetadata(base) && HasMetadata(intent) && key !in Meta(intent)
    ensures HasMetadata(Merge(base, intent))
        && Field(Object(Meta(Merge(base, intent))), key) == Field(Object(Meta(base)), key)
  {
    assert Merge(base, intent).entries["metadata"] == Merge(base.entries["metadata"], intent.entries["metadata"]);
  }

  lemma MergedList(live: Value, manager: string, intent: Value)
    requires HasMetadata(live) && HasMetadata(intent) && "finalizers" !in Meta(intent)
    ensures FinalizerList(Merged(live, manager, intent))
        == if Abandons(live, manager, intent) then [] else FinalizerList(live)
  {
    var gone := AbandonedPaths(live, manager, intent);
    var base, merged := Drop(live, gone), Merged(live, manager, intent);
    DroppedMeta(live, gone);
    if "metadata" in base.entries {
      MergedMeta(base, intent, "finalizers");
      if "finalizers" in Meta(base) {
        DroppedList(Meta(live)["finalizers"], Under(Under(gone, "metadata"), "finalizers"));
      }
    } else {
      assert Meta(merged) == Meta(intent);
    }
  }

  /** Storing adds no finalizers and removes none. */
  lemma StoredList(s: State, key: Key, doc: Value)
    requires key in s.objects && HasMetadata(doc) && Uid(doc).Some?
    ensures var (next, stored) := Store(s, key, doc);
            At(next, key) == Some(stored) && FinalizerList(stored) == FinalizerList(doc)
  {
  }

  lemma AppliedList(live: Value, manager: string, intent: Value)
    requires HasMetadata(live) && HasMetadata(intent) && Uid(live).Some? && Version(live).Some?
    ensures FinalizerList(Applied(live, manager, intent)) == FinalizerList(Merged(live, manager, intent))
  {
  }

  lemma UnlistedApply(s: State, key: Key, manager: string, force: bool, doc: Value)
    requires WellFormed(s) && HasMetadata(doc) && "finalizers" !in Meta(doc)
    ensures var r := ApplyResult(s, key, manager, force, doc);
            r.Success? ==>
              && At(r.value.0, key) == Some(r.value.1)
              && FinalizerList(r.value.1)
                 == if key !in s.objects || Abandons(s.objects[key], manager, Intent(doc)) then []
                     else FinalizerList(s.objects[key])
  {
    if key in s.objects {
      var live, intent := s.objects[key], Intent(doc);
      MergedList(live, manager, intent);
      AppliedList(live, manager, intent);
      StoredList(s, key, Applied(live, manager, intent));
    } else {
      CreatedKeepsMeta(doc, manager, "Apply", "finalizers", Token(s.clock));
    }
  }

  lemma ListedApply(s: State, key: Key, manager: string, force: bool, doc: Value, list: seq<string>)
    requires WellFormed(s) && HasMetadata(doc) && Field(Object(Meta(doc)), "finalizers") == Some(StringArray(list))
    ensures var r := ApplyResult(s, key, manager, force, doc);
            r.Success? ==> At(r.value.0, key) == Some(r.value.1) && FinalizerList(r.value.1) == list
  {
    var job := Job(key, doc, manager, force, "", "");
    AppliedLeaves(s, job);
    CarriedFinalizers(job, list);
  }

  /** Exactly what an apply of the owner leaves of the list. */
  lemma OwnerApplyList(settings: Settings, owner: ObjectRef, op: Operation, seen: State, at: State)
    requires WellFormed(at) && op.Apply? && Decoded(op.resource) && WritesOwner(owner, op)
    requires Carried(settings, owner, op, seen, at).Success?
    ensures Submitted(settings, owner, op).Success?
    ensures Held(owner, Carried(settings, owner, op, seen, at).value)
            == ListAfterApply(settings, owner, op, Submitted(settings, owner, op).value, at)
  {
    var doc, key := Submitted(settings, owner, op).value, OwnerKey(owner);
    var manager, force := EffectiveManager(op, settings.fieldManager), op.force.GetOr(false);
    DocumentOmits(owner, op.resource, op.ownership);
    match op.resource.metadata.finalizers {
      case Some(list) =>
        DocumentLists(owner, op.resource, op.ownership, list);
        ListedApply(at, key, manager, force, doc, list);
      case None => UnlistedApply(at, key, manager, force, doc);
    }
  }

  lemma DocumentLists(owner: ObjectRef, resource: KubernetesObject, ownership: Option<Ownership>, list: seq<string>)
    requires Decoded(resource) && ApplyPatchDocument(owner, resource, ownership).Success?
    requires resource.metadata.finalizers == Some(list)
    ensures var doc := ApplyPatchDocument(owner, resource, ownership).value;
            HasMetadata(doc) && Field(Object(Meta(doc)), "finalizers") == Some(StringArray(list))
  {
    SerializedMeta(resource);
    FinishedMeta(Serialized(resource), OwnerReferences(owner, resource, ownership).value, "finalizers");
    assert Field(MetaValue(resource.metadata), "finalizers") == Some(StringArray(list));
    PrunedStrings(list);
  }

  lemma PrunedStrings(list: seq<string>)
    ensures PruneNulls(StringArray(list)) == StringArray(list)
  {
    var items := StringArray(list).items;
    assert forall i :: 0 <= i < |items| ==> PruneNulls(items[i]) == items[i];
    assert PruneNulls(StringArray(list)).items == items;
  }

  // ----- Patches -----

  /** Neither the list, nor anything in it, nor anything that contains it. */
  predicate AsideOfList(tokens: seq<string>) {
    tokens != [] && (tokens[0] != "metadata" || (|tokens| > 1 && tokens[1] != "finalizers"))
  }

  predicate PointsAside(path: string) {
    JsonPatch.Tokens(path).Some? ==> AsideOfList(JsonPatch.Tokens(path).value)
  }

  predicate EntryAside(entry: JsonPatch.Entry) {
    entry.op.Test? || (PointsAside(entry.path)
        && (entry.op.Move? && entry.from.Some? ==> PointsAside(entry.from.value)))
  }

  predicate PatchAside(entries: seq<JsonPatch.Entry>) {
    forall i :: 0 <= i < |entries| ==> EntryAside(entries[i])
  }

  predicate SameList(doc: Value, after: Value) {
    HasMetadata(after) && FinalizerList(after) == FinalizerList(doc)
  }

  lemma AddAside(doc: Value, tokens: seq<string>, value: Value)
    requires HasMetadata(doc) && AsideOfList(tokens)
    ensures JsonPatch.AddAt(doc, tokens, value).Some? ==> SameList(doc, JsonPatch.AddAt(doc, tokens, value).value)
  {
    if tokens[0] == "metadata" {
      var inner := JsonPatch.AddAt(doc.entries["metadata"], tokens[1..], value);
      assert inner.Some? ==> inner.value.Object?;
    }
  }

  lemma RemoveAside(doc: Value, tokens: seq<string>)
    requires HasMetadata(doc) && AsideOfList(tokens)
    ensures JsonPatch.RemoveAt(doc, tokens).Some? ==> SameList(doc, JsonPatch.RemoveAt(doc, tokens).value)
  {
    if tokens[0] == "metadata" {
      var inner := JsonPatch.RemoveAt(doc.entries["metadata"], tokens[1..]);
      assert inner.Some? ==> inner.value.Object?;
    }
  }

  lemma ReplaceAside(doc: Value, source: seq<string>, tokens: seq<string>, value: Value)
    requires HasMetadata(doc) && AsideOfList(source) && AsideOfList(tokens) && JsonPatch.RemoveAt(doc, source).Some?
    ensures var r := JsonPatch.AddAt(JsonPatch.RemoveAt(doc, source).value, tokens, value);
            r.Some? ==> SameList(doc, r.value)
  {
    RemoveAside(doc, source);
    AddAside(JsonPatch.RemoveAt(doc, source).value, tokens, value);
  }

  lemma EntryKeepsList(doc: Value, entry: JsonPatch.Entry)
    requires HasMetadata(doc) && EntryAside(entry) && JsonPatch.ApplyEntry(doc, entry).Some?
    ensures SameList(doc, JsonPatch.ApplyEntry(doc, entry).value)
  {
    var tokens := JsonPatch.Tokens(entry.path).value;
    match entry.op {
      case Test =>
      case Add => AddAside(doc, tokens, entry.value.value);
      case Remove => RemoveAside(doc, tokens);
      case Replace => ReplaceAside(doc, tokens, tokens, entry.value.value);
      case Move =>
        var (source, value) := JsonPatch.FromOperand(doc, entry).value;
        if source != tokens {
          ReplaceAside(doc, source, tokens, value);
        }
      case Copy => AddAside(doc, tokens, JsonPatch.FromOperand(doc, entry).value.1);
    }
  }

  lemma {:induction false} PatchKeepsList(doc: Value, entries: seq<JsonPatch.Entry>)
    requires HasMetadata(doc) && PatchAside(entries) && JsonPatch.Evaluate(doc, entries).Some?
    ensures SameList(doc, JsonPatch.Evaluate(doc, entries).value)
    decreases |entries|
  {
    if entries != [] {
      EntryKeepsList(doc, entries[0]);
      PatchKeepsList(JsonPatch.ApplyEntry(doc, entries[0]).value, entries[1..]);
    }
  }

  lemma PatchedList(s: State, key: Key, entries: seq<JsonPatch.Entry>)
    requires WellFormed(s) && PatchAside(entries)
    ensures var r := PatchResult(s, key, entries);
            r.Success? ==>
              key in s.objects && At(r.value.0, key) == Some(r.value.1) && SameList(s.objects[key], r.value.1)
  {
    var r := PatchResult(s, key, entries);
    if r.Success? {
      PatchKeepsList(s.objects[key], entries);
      StoredList(s, key, JsonPatch.Evaluate(s.objects[key], entries).value);
    }
  }

  // ----- All direct writes -----

  /** What can be checked before a direct write of the owner so that the list stays: exact for an apply; for a
      patch, that no entry writes at, above or below the list; for a delete, that there is no list. */
  predicate KeepsList(settings: Settings, owner: ObjectRef, op: Operation, at: State)
    requires WritesOwner(owner, op)
  {
    match op
    case Apply(resource, _, _, _, _, _) =>
      Decoded(resource) && var doc := Submitted(settings, owner, op);
      doc.Success? ==> ListAfterApply(settings, owner, op, doc.value, at) == Held(owner, at)
    case Patch(_, patch, _, _) => PatchAside(patch)
    case _ => Held(owner, at) == []
  }

  lemma WritesKeepList(settings: Settings, owner: ObjectRef, op: Operation, seen: State, at: State)
    requires WritesOwner(owner, op) && OperationAuthority(op).None? && WellFormed(at)
    requires KeepsList(settings, owner, op, at) && Carried(settings, owner, op, seen, at).Success?
    ensures Held(owner, Carried(settings, owner, op, seen, at).value) == Held(owner, at)
  {
    match op {
      case Apply(_, _, _, _, _, _) => OwnerApplyList(settings, owner, op, seen, at);
      case Patch(_, patch, _, _) => PatchedList(at, OwnerKey(owner), patch);
      case Delete(_, _, _, _) =>
    }
  }

  // ----- A plan that undoes its own finalizer -----

  const WITNESS_FINALIZER := Finalizer(AddFinalizer, "a/b")

  const WITNESS_OWNER_APPLY := Apply(
    KubernetesObject("v1", "ConfigMap",
        ObjectMeta("o", Some("d"), None, None, None, None, None, None, None, None, map[]),
                     None, None, map[]),
    None, None, None, None, None)

  /** An unforced apply of a document that nobody else has fields in goes through. */
  lemma UncontestedApply(s: State, key: Key, manager: string, doc: Value)
    requires WellFormed(s) && key in s.objects && HasMetadata(doc) && Version(doc).None?
    requires forall e :: e in ManagedFields(s.objects[key]) ==> IsEntryOf(e, manager, "Apply")
    ensures ApplyResult(s, key, manager, false, doc).Success?
  {
    var live := s.objects[key];
    assert ConflictPaths(live, manager, Intent(doc)) == {};
  }

  /** After a finalizer write by this manager alone, its entry owns the list. */
  lemma ListOwned(target: ObjectRef, manager: string, list: seq<string>, live: Value, intent: Value)
    requires ManagedFields(live) == [ManagedEntry(manager, "Apply", Intent(FinalizerDocument(target, list)))]
    requires HasMetadata(intent) && "finalizers" !in Meta(intent)
    ensures Abandons(live, manager, intent)
  {
    ListIsOwned(target, manager, list);
    NoListLeaf(intent);
    EntryKind(manager, Intent(FinalizerDocument(target, list)));
    OwnedAloneIsAbandoned(live, manager, intent,
        ManagedEntry(manager, "Apply", Intent(FinalizerDocument(target, list))),
                          ["metadata", "finalizers"]);
  }

  lemma EntryKind(manager: string, intent: Value)
    ensures IsEntryOf(ManagedEntry(manager, "Apply", intent), manager, "Apply")
  {
  }

  lemma NoListLeaf(intent: Value)
    requires HasMetadata(intent) && "finalizers" !in Meta(intent)
    ensures ["metadata", "finalizers"] !in LeafPaths(intent)
  {
    var p := ["metadata", "finalizers"];
    LeafStep(intent, p);
    LeafStep(intent.entries["metadata"], p[1..]);
  }

  lemma OwnedAloneIsAbandoned(live: Value, manager: string, intent: Value, entry: Value, p: Path)
    requires ManagedFields(live) == [entry] && IsEntryOf(entry, manager, "Apply")
    requires p in OwnedPaths(entry) && p !in LeafPaths(intent)
    ensures p in AbandonedPaths(live, manager, intent)
  {
    var entries := ManagedFields(live);
    assert IsEntryOf(entries[0], manager, "Apply") && p in OwnedPaths(entries[0]) && !OwnedByOther(entries, manager, p);
  }

  lemma ListIsOwned(target: ObjectRef, manager: string, list: seq<string>)
    ensures ["metadata", "finalizers"] in OwnedPaths(ManagedEntry(manager, "Apply",
        Intent(FinalizerDocument(target, list))))
  {
    var given := Intent(FinalizerDocument(target, list));
    FinalizerDocumentLeaf(target, list);
    assert Meta(given) == Meta(FinalizerDocument(target, list)) - SYSTEM_METADATA;
    MetaLeaf(given, "finalizers", StringArray(list));
    ShapeKeepsPaths(given);
  }

  lemma WitnessPlanIsAccepted()
    ensures Accepted(WITNESS_OWNER, [WITNESS_FINALIZER, WITNESS_OWNER_APPLY])
  {
    NotBlank();
    assert KnownScope("v1", "ConfigMap") == Some(Namespaced);
    assert !IsWhitespace("a/b"[0]) && "a/b"[1] == '/';
    assert ValidateOperation(WITNESS_OWNER, WITNESS_FINALIZER, 0).Success?;
    assert ValidateOperation(WITNESS_OWNER, WITNESS_OWNER_APPLY, 1).Success?;
  }

  /** All that is on record is the list this manager applied. */
  ghost predicate OnlyListRecorded(live: Value, target: ObjectRef, manager: string) {
    exists list: seq<string> :: OneListRecorded(live, target, manager, list)
  }

  predicate OneListRecorded(live: Value, target: ObjectRef, manager: string, list: seq<string>) {
    ManagedFields(live) == [ManagedEntry(manager, "Apply", Intent(FinalizerDocument(target, list)))]
  }

  lemma FirstListWrite(s: State, key: Key, manager: string, target: ObjectRef, list: seq<string>)
    requires WellFormed(s) && key in s.objects && ManagedFields(s.objects[key]) == []
    ensures var r := ApplyResult(s, key, manager, false, FinalizerDocument(target, list));
            && r.Success? && At(r.value.0, key) == Some(r.value.1)
            && FinalizerList(r.value.1) == list && OnlyListRecorded(r.value.1, target, manager)
  {
    var doc := FinalizerDocument(target, list);
    FinalizerDocumentLeaf(target, list);
    var made := Applied(s.objects[key], manager, Intent(doc));
    UncontestedApply(s, key, manager, doc);
    FinalizersStored(s, key, manager, target, list);
    StoredDocument(s, key, made);
    assert ManagedFields(made) == [ManagedEntry(manager, "Apply", Intent(doc))];
    assert OneListRecorded(Store(s, key, made).1, target, manager, list);
  }

  lemma ListUndone(s: State, key: Key, manager: string, target: ObjectRef, list: seq<string>, doc: Value)
    requires WellFormed(s) && key in s.objects && OneListRecorded(s.objects[key], target, manager, list)
    requires HasMetadata(doc) && Version(doc).None? && "finalizers" !in Meta(doc)
    ensures ApplyResult(s, key, manager, false, doc).Success? && Abandons(s.objects[key], manager, Intent(doc))
  {
    UnlistedIntent(doc);
    EntryKind(manager, Intent(FinalizerDocument(target, list)));
    ListOwned(target, manager, list, s.objects[key], Intent(doc));
    UncontestedApply(s, key, manager, doc);
  }

  lemma UnlistedIntent(doc: Value)
    requires HasMetadata(doc) && "finalizers" !in Meta(doc)
    ensures HasMetadata(Intent(doc)) && "finalizers" !in Meta(Intent(doc))
  {
    assert Meta(Intent(doc)) == Meta(doc) - SYSTEM_METADATA;
  }

  lemma ListWriteUndone(s: State, key: Key, manager: string, target: ObjectRef, doc: Value)
    requires WellFormed(s) && key in s.objects && OnlyListRecorded(s.objects[key], target, manager)
    requires HasMetadata(doc) && Version(doc).None? && "finalizers" !in Meta(doc)
    ensures ApplyResult(s, key, manager, false, doc).Success? && Abandons(s.objects[key], manager, Intent(doc))
  {
    var list: seq<string> :| OneListRecorded(s.objects[key], target, manager, list);
    ListUndone(s, key, manager, target, list, doc);
  }

  lemma FinalizerIsApply(settings: Settings, owner: ObjectRef, op: Operation, s: State)
    requires WellFormed(s) && op.Finalizer? && Resolve(settings, None, owner.apiVersion).Success?
        && OwnerKey(owner) in s.objects
    ensures var list := Edited(FinalizerList(s.objects[OwnerKey(owner)]), op.mutation, op.finalizer);
            Carried(settings, owner, op, s, s)
            == Stored(ApplyResult(s, OwnerKey(owner), settings.fieldManager, false, FinalizerDocument(owner, list)))
  {
  }

  /** On an object nobody has fields in, the finalizer is added and recorded as the manager's. */
  lemma FirstFinalizerAdded(settings: Settings, owner: ObjectRef, op: Operation, s: State)
    requires WellFormed(s) && op.Finalizer? && op.mutation.AddFinalizer?
        && Resolve(settings, None, owner.apiVersion).Success?
    requires OwnerKey(owner) in s.objects && ManagedFields(s.objects[OwnerKey(owner)]) == []
    ensures var r := Carried(settings, owner, op, s, s);
            && r.Success? && WellFormed(r.value) && OwnerKey(owner) in r.value.objects
            && op.finalizer in Held(owner, r.value)
            && OnlyListRecorded(r.value.objects[OwnerKey(owner)], owner, settings.fieldManager)
  {
    var list := Edited(FinalizerList(s.objects[OwnerKey(owner)]), op.mutation, op.finalizer);
    assert op.finalizer in list;
    FinalizerIsApply(settings, owner, op, s);
    FirstListWrite(s, OwnerKey(owner), settings.fieldManager, owner, list);
    CarriedEvolves(settings, owner, op, s, s);
  }

  /** Then the apply of the owner, which lists no finalizers and goes out under the same manager, drops it.
      Nobody else acts. */
  lemma ApplyUndoesFinalizer(settings: Settings, s: State)
    requires WellFormed(s) && OwnerKey(WITNESS_OWNER) in s.objects
        && ManagedFields(s.objects[OwnerKey(WITNESS_OWNER)]) == []
    ensures Accepted(WITNESS_OWNER, [WITNESS_FINALIZER, WITNESS_OWNER_APPLY])
    ensures var first := Carried(settings, WITNESS_OWNER, WITNESS_FINALIZER, s, s);
            && first.Success? && WellFormed(first.value) && "a/b" in Held(WITNESS_OWNER, first.value)
            && Decoded(WITNESS_OWNER_APPLY.resource)
            && var second := Carried(settings, WITNESS_OWNER, WITNESS_OWNER_APPLY, first.value, first.value);
               second.Success? && Held(WITNESS_OWNER, second.value) == []
  {
    WitnessPlanIsAccepted();
    WitnessDocument(settings);
    assert '/' !in WITNESS_OWNER.apiVersion && WITNESS_OWNER.apiVersion != "";
    FirstFinalizerAdded(settings, WITNESS_OWNER, WITNESS_FINALIZER, s);
    WitnessApplyDrops(settings, Carried(settings, WITNESS_OWNER, WITNESS_FINALIZER, s, s).value);
  }

  lemma WitnessApplyDrops(settings: Settings, s: State)
    requires WellFormed(s) && OwnerKey(WITNESS_OWNER) in s.objects && Decoded(WITNESS_OWNER_APPLY.resource)
    requires OnlyListRecorded(s.objects[OwnerKey(WITNESS_OWNER)], WITNESS_OWNER, settings.fieldManager)
    ensures var r := Carried(settings, WITNESS_OWNER, WITNESS_OWNER_APPLY, s, s);
            r.Success? && Held(WITNESS_OWNER, r.value) == []
  {
    WitnessDocument(settings);
    var doc := Submitted(settings, WITNESS_OWNER, WITNESS_OWNER_APPLY).value;
    ListWriteUndone(s, OwnerKey(WITNESS_OWNER), settings.fieldManager, WITNESS_OWNER, doc);
    OwnerApplyList(settings, WITNESS_OWNER, WITNESS_OWNER_APPLY, s, s);
  }

  lemma WitnessDocument(settings: Settings)
    ensures Decoded(WITNESS_OWNER_APPLY.resource)
    ensures var doc := Submitted(settings, WITNESS_OWNER, WITNESS_OWNER_APPLY);
            && doc.Success? && HasMetadata(doc.value) && Version(doc.value).None?
            && "finalizers" !in Meta(doc.value)
  {
    assert '/' !in "v1" && "v1" != "";
    assert ApplyPatchDocument(WITNESS_OWNER, WITNESS_OWNER_APPLY.resource, None).Success?;
    DocumentOmits(WITNESS_OWNER, WITNESS_OWNER_APPLY.resource, None);
  }
}
