/** Objects an operation names, and the partial documents sent for them. */
module TargetDocuments {
  import opened Wrappers
  import opened Json
  import opened Contract
  import opened ApiServer
  import opened ApplyDocument
  import opened PlanValidation
  import opened RemoteApply

  function RefKey(connection: Option<string>, ref: ObjectRef): Key {
    Key(connection, ref.apiVersion, ref.kind, ref.namespace, ref.name)
  }

  /** The object an operation may write, if it writes one that is named in the plan. */
  function TargetKey(owner: ObjectRef, op: Operation): Option<Key> {
    match op
    case Apply(resource, _, _, _, connection, _) => Some(ObjectKey(connection, resource))
    case Patch(ref, _, connection, _) => Some(RefKey(connection, ref))
    case Delete(ref, _, connection, _) => Some(RefKey(connection, ref))
    case Status(_, target) => Some(RefKey(None, target.GetOr(owner)))
    case Event(_, reason, _, regarding) => Some(EventKey(owner, reason, regarding))
    case Finalizer(_, _) => Some(RefKey(None, owner))
    case Requeue(_) => None
  }

  function OperationAuthority(op: Operation): Option<Authority> {
    match op
    case Apply(_, _, _, _, _, authority) => authority
    case Patch(_, _, _, authority) => authority
    case Delete(_, _, _, authority) => authority
    case _ => None
  }

  function DnsChar(c: char): char {
    if 'a' <= c <= 'z' || '0' <= c <= '9' then c
    else if 'A' <= c <= 'Z' then c - 'A' + 'a'
    else '-'
  }

  function TrimDashes(s: string): string {
    if s != "" && s[0] == '-' then TrimDashes(s[1..])
    else if s != "" && s[|s| - 1] == '-' then TrimDashes(s[..|s| - 1])
    else s
  }

  function DnsLabel(s: string): string {
    var normalized := TrimDashes(seq(|s|, i requires 0 <= i < |s| => DnsChar(s[i])));
    if normalized == "" then "event" else if |normalized| > 63 then normalized[..63] else normalized
  }

  function EventKey(owner: ObjectRef, reason: string, regarding: Option<ObjectRef>): Key {
    Key(None, "v1", "Event", EventNamespace(owner, regarding),
        DnsLabel(regarding.GetOr(owner).name) + "." + DnsLabel(reason))
  }

  function FinalizerList(doc: Value): seq<string> {
    match Field(Object(Meta(doc)), "finalizers")
    case Some(Array(items)) => Strings(items)
    case _ => []
  }

  function Strings(items: seq<Value>): seq<string> {
    if items == [] then []
    else (if items[0].String? then [items[0].s] else []) + Strings(items[1..])
  }

  function StringArray(list: seq<string>): Value {
    Array(seq(|list|, i requires 0 <= i < |list| => String(list[i])))
  }

  lemma {:induction false} StringsRoundTrip(list: seq<string>)
    ensures Strings(StringArray(list).items) == list
  {
    if list != [] {
      StringsRoundTrip(list[1..]);
      assert StringArray(list).items[1..] == StringArray(list[1..]).items;
    }
  }

  /** The partial document that carries a finalizer list, or a status, for a target. */
  function TargetMeta(target: ObjectRef): map<string, Value> {
    map["name" := String(target.name), "namespace" := TextValue(target.namespace)]
  }

  function TargetDocument(target: ObjectRef, meta: map<string, Value>): (doc: Value)
    ensures HasMetadata(doc) && Meta(doc) == meta
  {
    Object(map["apiVersion" := String(target.apiVersion), "kind" := String(target.kind), "metadata" := Object(meta)])
  }

  function FinalizerDocument(target: ObjectRef, list: seq<string>): Value {
    PruneNulls(TargetDocument(target, TargetMeta(target)["finalizers" := StringArray(list)]))
  }

  function StatusDocument(target: ObjectRef, status: Value): Value {
    PruneNulls(Object(TargetDocument(target, TargetMeta(target)).entries["status" := status]))
  }

  function EventBody(owner: ObjectRef, warning: bool, reason: string, message: string,
      regarding: Option<ObjectRef>): (doc: Value)
    ensures HasMetadata(doc) && Meta(doc).Keys == {"name", "namespace"}
  {
    var about := regarding.GetOr(owner);
    Object(map[
      "apiVersion" := String("v1"), "kind" := String("Event"),
      "metadata" := Object(map["name" := String(EventKey(owner, reason, regarding).name),
          "namespace" := TextValue(EventNamespace(owner, regarding))]),
      "involvedObject" := Object(map[
        "apiVersion" := String(about.apiVersion), "kind" := String(about.kind), "name" := String(about.name),
        "namespace" := TextValue(about.namespace), "uid" := TextValue(about.uid),
            "resourceVersion" := TextValue(about.resourceVersion)]),
      "type" := String(if warning then "Warning" else "Normal"),
      "reason" := String(reason), "message" := String(message),
      "source" := Object(map["component" := String("applik8s")])])
  }

  function EventDocument(owner: ObjectRef, warning: bool, reason: string, message: string,
      regarding: Option<ObjectRef>): Value {
    PruneNulls(EventBody(owner, warning, reason, message, regarding))
  }

  lemma FinalizerDocumentLeaf(target: ObjectRef, list: seq<string>)
    ensures var doc := FinalizerDocument(target, list);
            && HasMetadata(doc) && Version(doc).None?
            && Field(Object(Meta(doc)), "finalizers") == Some(StringArray(list))
  {
    var meta := TargetMeta(target)["finalizers" := StringArray(list)];
    var full := TargetDocument(target, meta);
    PrunedMeta(full, "finalizers");
    PrunedMeta(full, "resourceVersion");
    var items := StringArray(list).items;
    assert forall i :: 0 <= i < |items| ==> PruneNulls(items[i]) == items[i];
    assert PruneNulls(StringArray(list)).items == items;
    assert meta["finalizers"] == StringArray(list) && "resourceVersion" !in meta;
  }

  /** What an accepted apply stores carries every intended leaf. */
  lemma AppliedLeaves(s: State, job: Job)
    requires WellFormed(s) && HasMetadata(job.config)
    ensures var r := ApplyResult(s, job.key, job.manager, job.force, job.config);
            r.Success? ==>
              At(r.value.0, job.key) == Some(r.value.1) && HasMetadata(r.value.1) && Carries(r.value.1, job)
  {
    if job.key in s.objects {
      var live := s.objects[job.key];
      var made := Applied(live, job.manager, Intent(job.config));
      AppliedCarries(live, job);
      StoreEvolves(s, job.key, made);
      StoredDocument(s, job.key, made);
      StampCarries(made, Uid(made).value, Token(s.clock), job);
    } else {
      CreatedCarries(job, job.manager, "Apply", Token(s.clock));
    }
  }

  /** A stored finalizer document carries the list that was sent. */
  lemma FinalizersStored(s: State, key: Key, manager: string, target: ObjectRef, list: seq<string>)
    requires WellFormed(s)
    ensures var r := ApplyResult(s, key, manager, false, FinalizerDocument(target, list));
            r.Success? ==> At(r.value.0, key) == Some(r.value.1) && FinalizerList(r.value.1) == list
  {
    var doc := FinalizerDocument(target, list);
    FinalizerDocumentLeaf(target, list);
    StringsRoundTrip(list);
    var job := Job(key, doc, manager, false, "", "");
    AppliedLeaves(s, job);
    CarriedFinalizers(job, list);
  }

  lemma CarriedFinalizers(job: Job, list: seq<string>)
    requires HasMetadata(job.config) && Field(Object(Meta(job.config)), "finalizers") == Some(StringArray(list))
    ensures forall stored :: HasMetadata(stored) && Carries(stored, job) ==> FinalizerList(stored) == list
  {
    var intent := Intent(job.config);
    StringsRoundTrip(list);
    assert Meta(intent) == Meta(job.config) - SYSTEM_METADATA;
    MetaLeaf(intent, "finalizers", StringArray(list));
    forall stored | HasMetadata(stored) && Carries(stored, job) ensures FinalizerList(stored) == list {
      assert SameLeaf(stored, intent, ["metadata", "finalizers"]);
      MetaLeafBack(stored, "finalizers", StringArray(list));
    }
  }

  lemma MetaLeaf(doc: Value, key: string, v: Value)
    requires HasMetadata(doc) && !v.Object? && Field(Object(Meta(doc)), key) == Some(v)
    ensures ["metadata", key] in LeafPaths(doc) && LeafAt(doc, ["metadata", key]) == v
  {
    var p := ["metadata", key];
    assert p[1..] == [key] && [key][1..] == [];
    LeafStep(doc, p);
    LeafStep(doc.entries["metadata"], [key]);
  }

  lemma MetaLeafBack(doc: Value, key: string, v: Value)
    requires HasMetadata(doc) && ["metadata", key] in LeafPaths(doc) && LeafAt(doc, ["metadata", key]) == v
    ensures Field(Object(Meta(doc)), key) == Some(v)
  {
    var p := ["metadata", key];
    assert p[1..] == [key] && [key][1..] == [];
    LeafStep(doc, p);
    LeafStep(doc.entries["metadata"], [key]);
    assert [] in LeafPaths(doc.entries["metadata"].entries[key]);
  }

  // ----- Status -----

  /** Apart from the status and the bookkeeping of a write, the objects are equal. */
  ghost predicate OnlyStatusDiffers(before: Value, after: Value) {
    && HasMetadata(before) && HasMetadata(after)
    && (forall key :: key != STATUS && key != "metadata" ==> Field(after, key) == Field(before, key))
    && (forall key :: key !in {"managedFields", "uid", "resourceVersion"} ==>
          Field(Object(Meta(after)), key) == Field(Object(Meta(before)), key))
  }

  lemma StatusOnly(live: Value, manager: string, intent: Value)
    requires HasMetadata(live) && Uid(live).Some? && Version(live).Some?
    ensures OnlyStatusDiffers(live, StatusApplied(live, manager, intent))
  {
  }

  lemma StampKeeps(before: Value, after: Value, version: string)
    requires OnlyStatusDiffers(before, after) && Uid(after).Some?
    ensures OnlyStatusDiffers(before, Stamp(after, Uid(after).value, version))
  {
  }

  lemma StatusTouchesOnlyStatus(s: State, key: Key, manager: string, force: bool, doc: Value)
    requires WellFormed(s)
    ensures var r := StatusResult(s, key, manager, force, doc);
            r.Success? ==>
              && At(s, key).Some? && At(r.value.0, key) == Some(r.value.1)
              && OnlyStatusDiffers(s.objects[key], r.value.1)
              && forall other :: other != key ==> At(r.value.0, other) == At(s, other)
  {
    if key in s.objects {
      var live := s.objects[key];
      var made := StatusApplied(live, manager, StatusIntent(doc));
      StoredDocument(s, key, made);
      StatusOnly(live, manager, StatusIntent(doc));
      StampKeeps(live, made, Token(s.clock));
    }
  }

  /** The status stored carries every value of the status sent. */
  lemma StatusCarried(s: State, key: Key, manager: string, force: bool, doc: Value, p: Path)
    requires WellFormed(s) && StatusResult(s, key, manager, force, doc).Success? && p in LeafPaths(StatusIntent(doc))
    ensures SameLeaf(StatusResult(s, key, manager, force, doc).value.1, StatusIntent(doc), p)
  {
    var live, intent := s.objects[key], StatusIntent(doc);
    var stored := StatusResult(s, key, manager, force, doc).value.1;
    var merged := Merge(Drop(live, AbandonedPaths(live, manager, intent, STATUS)), intent);
    MergeKeepsConfig(Drop(live, AbandonedPaths(live, manager, intent, STATUS)), intent, p);
    assert Field(stored, STATUS) == Field(merged, STATUS) by {
      StoredStatus(s, key, StatusApplied(live, manager, intent));
    }
    assert p != [] && p[0] == STATUS;
    LeafStep(merged, p);
    LeafStep(stored, p);
  }

  lemma StoredStatus(s: State, key: Key, doc: Value)
    requires key in s.objects && HasMetadata(doc) && Uid(doc).Some?
    ensures Field(Store(s, key, doc).1, STATUS) == Field(doc, STATUS)
  {
  }

  lemma {:induction false} DropNothing(v: Value)
    ensures Drop(v, {}) == v
  {
    if v.Object? {
      forall k | k in v.entries ensures Drop(v.entries[k], Under({}, k)) == v.entries[k] {
        assert Under({}, k) == {};
        DropNothing(v.entries[k]);
      }
    }
  }

  /** The main entry of this manager owns nothing of the status. */
  predicate AppliesNoStatus(live: Value, manager: string) {
    forall e :: e in ManagedFields(live) && IsEntryOf(e, manager, "Apply") ==>
      forall p :: p in OwnedPaths(e) ==> p == [] || p[0] != STATUS
  }

  lemma MergedKeepsStatus(live: Value, manager: string, intent: Value)
    requires HasMetadata(live) && HasMetadata(intent) && STATUS !in intent.entries && AppliesNoStatus(live, manager)
    ensures Field(Merged(live, manager, intent), STATUS) == Field(live, STATUS)
  {
    var gone := AbandonedPaths(live, manager, intent);
    assert [STATUS] !in gone && Under(gone, STATUS) == {};
    if STATUS in live.entries {
      DropNothing(live.entries[STATUS]);
    }
  }

  /** A finalizer edit leaves the status as it is, provided this manager never applied a status outside the
      status subresource. */
  lemma FinalizersKeepStatus(s: State, target: ObjectRef, manager: string, list: seq<string>)
    requires WellFormed(s)
    requires RefKey(None, target) in s.objects && AppliesNoStatus(s.objects[RefKey(None, target)], manager)
    ensures var key := RefKey(None, target);
            var r := ApplyResult(s, key, manager, false, FinalizerDocument(target, list));
            r.Success? ==> Field(r.value.1, STATUS) == Field(s.objects[key], STATUS)
  {
    var key := RefKey(None, target);
    var live, intent := s.objects[key], Intent(FinalizerDocument(target, list));
    FinalizerDocumentLeaf(target, list);
    assert STATUS !in intent.entries;
    MergedKeepsStatus(live, manager, intent);
    StoredStatus(s, key, Applied(live, manager, intent));
  }
}
