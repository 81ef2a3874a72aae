/** From a typed resource to the document that is applied: serialise, choose an
    owner reference, prune nulls. */
module ApplyDocument {
  import opened Wrappers
  import opened Json
  import opened Contract
  import opened ApiServer
  import opened RemoteAuthority

  const NAMED_FIELDS: set<string> := {"apiVersion", "kind", "metadata", "spec", "status"}
  const NAMED_METADATA: set<string> :=
    {"name", "namespace", "uid", "resourceVersion", "generation", "labels", "annotations", "finalizers",
     "deletionTimestamp", "creationTimestamp"}

  /** Flattened extra members never repeat a named field: decoding puts those in the field. */
  predicate Decoded(resource: KubernetesObject) {
    resource.extra.Keys !! NAMED_FIELDS && resource.metadata.extra.Keys !! NAMED_METADATA
  }

  // ----- Serialisation: absent options become nulls -----

  function TextValue(s: Option<string>): Value {
    if s.Some? then String(s.value) else Null
  }

  function TextMap(m: Option<map<string, string>>): Value {
    if m.Some? then Object(map k | k in m.value :: String(m.value[k])) else Null
  }

  function NamedMeta(meta: ObjectMeta, key: string): Value {
    if key == "annotations" then TextMap(meta.annotations)
    else if key == "labels" then TextMap(meta.labels)
    else if key == "resourceVersion" then TextValue(meta.resourceVersion)
    else if key == "name" then String(meta.name)
    else if key == "namespace" then TextValue(meta.namespace)
    else if key == "uid" then TextValue(meta.uid)
    else if key == "generation" then (if meta.generation.Some? then Number(meta.generation.value) else Null)
    else if key == "finalizers" then
      match meta.finalizers
      case Some(list) => Array(seq(|list|, i requires 0 <= i < |list| => String(list[i])))
      case None => Null
    else if key == "deletionTimestamp" then TextValue(meta.deletionTimestamp)
    else TextValue(meta.creationTimestamp)
  }

  function MetaValue(meta: ObjectMeta): Value {
    Object(map k | k in NAMED_METADATA + meta.extra.Keys :: if k in meta.extra then meta.extra[k]
        else NamedMeta(meta, k))
  }

  function NamedField(resource: KubernetesObject, key: string): Value {
    if key == "metadata" then MetaValue(resource.metadata)
    else if key == "apiVersion" then String(resource.apiVersion)
    else if key == "kind" then String(resource.kind)
    else if key == "spec" then resource.spec.GetOr(Null)
    else resource.status.GetOr(Null)
  }

  function Serialized(resource: KubernetesObject): Value {
    Object(map k | k in NAMED_FIELDS + resource.extra.Keys :: if k in resource.extra then resource.extra[k]
        else NamedField(resource, k))
  }

  // ----- Owner references -----

  predicate IsSameObject(owner: ObjectRef, resource: KubernetesObject) {
    && owner.apiVersion == resource.apiVersion && owner.kind == resource.kind
    && owner.name == resource.metadata.name && owner.namespace == resource.metadata.namespace
  }

  predicate ShouldDefaultOwner(owner: ObjectRef, resource: KubernetesObject) {
    if owner.uid.None? || owner.uid.value == "" || IsSameObject(owner, resource) then false
    else
      && owner.namespace.Some? && resource.metadata.namespace.Some?
      && owner.namespace.value == resource.metadata.namespace.value
  }

  function ValidateOwnerSelection(owner: ObjectRef, resource: KubernetesObject): Result<(), Fault> {
    if owner.uid.None? || owner.uid.value == "" then Failure(OwnerWithoutUid)
    else if IsSameObject(owner, resource) then Failure(OwnerIsResource)
    else
      match (owner.namespace, resource.metadata.namespace)
      case (Some(ours), Some(theirs)) => if ours != theirs then Failure(OwnerCrossesNamespaces) else Success(())
      case (Some(_), None) => Failure(NamespacedOwnerOfClusterResource)
      case _ => Success(())
  }

  function OwnerReferenceValue(owner: ObjectRef, uid: string, block: Option<bool>): Value {
    var entry := map[
      "apiVersion" := String(owner.apiVersion), "kind" := String(owner.kind), "name" := String(owner.name),
      "uid" := String(uid), "controller" := Bool(true)];
    Object(if block.Some? then entry["blockOwnerDeletion" := Bool(block.value)] else entry)
  }

  function SelectOwner(owner: ObjectRef, resource: KubernetesObject,
      block: Option<bool>): Result<Option<Value>, Error> {
    match ValidateOwnerSelection(owner, resource)
    case Failure(fault) => Failure(InvalidPayload(fault))
    case Success(_) =>
      if owner.uid.None? then Failure(InvalidPayload(OwnerWithoutUid))
      else Success(Some(Array([OwnerReferenceValue(owner, owner.uid.value, block)])))
  }

  predicate HasExplicitOwners(resource: KubernetesObject) {
    "ownerReferences" in resource.metadata.extra
  }

  /** The owner references to write; None leaves the document as it is. */
  function OwnerReferences(owner: ObjectRef, resource: KubernetesObject,
      ownership: Option<Ownership>): Result<Option<Value>, Error> {
    match ownership
    case Some(NoOwnership) => Success(None)
    case Some(Reference(ref, block)) =>
      if HasExplicitOwners(resource) then Failure(InvalidPayload(OwnershipWithExplicitReferences))
      else SelectOwner(ref, resource, block)
    case _ =>
      if HasExplicitOwners(resource) || !ShouldDefaultOwner(owner, resource) then Success(None)
      else SelectOwner(owner, resource, None)
  }

  function ApplyPatchDocument(owner: ObjectRef, resource: KubernetesObject,
      ownership: Option<Ownership>): Result<Value, Error>
    requires Decoded(resource)
  {
    var refs :- OwnerReferences(owner, resource, ownership);
    SerializedMeta(resource);
    Success(Finished(Serialized(resource), refs))
  }

  function Finished(source: Value, refs: Option<Value>): Value
    requires HasMetadata(source)
  {
    PruneNulls(if refs.Some? then WithMeta(source, "ownerReferences", refs.value) else source)
  }

  /** Serialise, edit the metadata map, prune. */
  method BuildApplyPatch(owner: ObjectRef, resource: KubernetesObject, ownership: Option<Ownership>)
    returns (r: Result<Value, Error>)
    requires Decoded(resource)
    ensures r == ApplyPatchDocument(owner, resource, ownership)
  {
    SerializedMeta(resource);
    var document := Serialized(resource);
    var metadata :- InjectOwnerReference(owner, resource, ownership, Meta(document));
    WithSameMeta(document);
    r := Success(PruneNulls(Object(document.entries["metadata" := Object(metadata)])));
  }

  lemma WithSameMeta(doc: Value)
    requires HasMetadata(doc)
    ensures Object(doc.entries["metadata" := Object(Meta(doc))]) == doc
  {
  }

  /** The edit of the metadata map: at most one member is written. */
  method InjectOwnerReference(owner: ObjectRef, resource: KubernetesObject, ownership: Option<Ownership>,
      metadata: map<string, Value>)
    returns (r: Result<map<string, Value>, Error>)
    requires "ownerReferences" in metadata <==> HasExplicitOwners(resource)
    ensures r == match OwnerReferences(owner, resource, ownership)
                 case Failure(e) => Failure(e)
                 case Success(None) => Success(metadata)
                 case Success(Some(references)) => Success(metadata["ownerReferences" := references])
  {
    var explicitOwners := "ownerReferences" in metadata;
    var selected := owner;
    var block := None;
    match ownership {
      case Some(NoOwnership) => return Success(metadata);
      case Some(Reference(ref, blockDeletion)) =>
        if explicitOwners {
          return Failure(InvalidPayload(OwnershipWithExplicitReferences));
        }
        selected := ref;
        block := blockDeletion;
      case _ =>
        if explicitOwners || !ShouldDefaultOwner(owner, resource) {
          return Success(metadata);
        }
    }
    var valid := ValidateOwnerSelection(selected, resource);
    if valid.Failure? {
      return Failure(InvalidPayload(valid.error));
    }
    if selected.uid.None? {
      return Failure(InvalidPayload(OwnerWithoutUid));
    }
    r := Success(metadata["ownerReferences" := Array([OwnerReferenceValue(selected, selected.uid.value, block)])]);
  }

  // ----- What the document looks like after pruning -----

  lemma SerializedMeta(resource: KubernetesObject)
    requires Decoded(resource)
    ensures HasMetadata(Serialized(resource))
    ensures Meta(Serialized(resource)) == MetaValue(resource.metadata).entries
    ensures Serialized(resource).entries["metadata"] == MetaValue(resource.metadata)
  {
    assert "metadata" in NAMED_FIELDS;
  }

  lemma MetaFields(meta: ObjectMeta)
    requires meta.extra.Keys !! NAMED_METADATA
    ensures var entries := MetaValue(meta);
            && Field(entries, "annotations") == Some(TextMap(meta.annotations))
            && Field(entries, "labels") == Some(TextMap(meta.labels))
            && Field(entries, "resourceVersion") == Some(TextValue(meta.resourceVersion))
            && Field(entries, "ownerReferences")
               == if "ownerReferences" in meta.extra then Some(meta.extra["ownerReferences"]) else None
  {
    assert "annotations" in NAMED_METADATA && "labels" in NAMED_METADATA && "resourceVersion" in NAMED_METADATA;
    assert "ownerReferences" !in NAMED_METADATA;
  }

  function Pruned(v: Option<Value>): Option<Value> {
    if v.None? || v.value.Null? then None else Some(PruneNulls(v.value))
  }

  lemma PrunedMeta(full: Value, key: string)
    requires HasMetadata(full)
    ensures HasMetadata(PruneNulls(full))
    ensures Field(Object(Meta(PruneNulls(full))), key) == Pruned(Field(Object(Meta(full)), key))
  {
    assert PruneNulls(full).entries["metadata"] == PruneNulls(full.entries["metadata"]);
    assert full.entries["metadata"].entries == Meta(full);
  }

  /** Metadata of the finished document, member by member. */
  lemma FinishedMeta(source: Value, refs: Option<Value>, key: string)
    requires HasMetadata(source)
    ensures HasMetadata(Finished(source, refs))
    ensures Field(Object(Meta(Finished(source, refs))), key)
            == Pruned(if key == "ownerReferences" && refs.Some? then refs else Field(Object(Meta(source)), key))
  {
    PrunedMeta(if refs.Some? then WithMeta(source, "ownerReferences", refs.value) else source, key);
  }

  lemma PrunedTextMap(m: Option<map<string, string>>)
    ensures Pruned(Some(TextMap(m))).None? <==> m.None?
    ensures m.Some? ==> Pruned(Some(TextMap(m))).value.Object?
  {
  }

  /** The management metadata can always be injected into a built document: pruning has turned what the
      handler left out from null members into absent ones. */
  lemma ManagementAlwaysInjects(owner: ObjectRef, resource: KubernetesObject, ownership: Option<Ownership>,
      identity: string, sourceUid: string)
    requires Decoded(resource) && ApplyPatchDocument(owner, resource, ownership).Success?
    ensures var doc := ApplyPatchDocument(owner, resource, ownership).value;
            && HasMetadata(doc)
            && InjectManagement(doc, identity, sourceUid).Success?
            && (resource.metadata.resourceVersion.None? ==>
                Version(InjectManagement(doc, identity, sourceUid).value).None?)
  {
    SerializedMeta(resource);
    MetaFields(resource.metadata);
    var refs := OwnerReferences(owner, resource, ownership).value;
    InjectsAfterFinish(Serialized(resource), refs, resource.metadata, identity, sourceUid);
  }

  lemma InjectsAfterFinish(source: Value, refs: Option<Value>, meta: ObjectMeta, identity: string, sourceUid: string)
    requires HasMetadata(source)
    requires Field(Object(Meta(source)), "annotations") == Some(TextMap(meta.annotations))
    requires Field(Object(Meta(source)), "labels") == Some(TextMap(meta.labels))
    requires Field(Object(Meta(source)), "resourceVersion") == Some(TextValue(meta.resourceVersion))
    ensures var doc := Finished(source, refs);
            && HasMetadata(doc)
            && InjectManagement(doc, identity, sourceUid).Success?
            && (meta.resourceVersion.None? ==> Version(InjectManagement(doc, identity, sourceUid).value).None?)
  {
    FinishedMapEntry(source, refs, "annotations", meta.annotations, AnnotationsNotObject);
    FinishedMapEntry(source, refs, "labels", meta.labels, LabelsNotObject);
    FinishedMeta(source, refs, "resourceVersion");
    assert meta.resourceVersion.None? ==> "resourceVersion" !in Meta(Finished(source, refs));
  }

  lemma FinishedMapEntry(source: Value, refs: Option<Value>, key: string, m: Option<map<string, string>>, fault: Fault)
    requires HasMetadata(source) && key != "ownerReferences" && Field(Object(Meta(source)), key) == Some(TextMap(m))
    ensures HasMetadata(Finished(source, refs)) && MapEntry(Meta(Finished(source, refs)), key, fault).Success?
  {
    FinishedMeta(source, refs, key);
    PrunedTextMap(m);
  }

  /** Without the pruning step the injection works only when the handler set both annotations and
      labels: a serialised absent option is a null member. */
  lemma PruningIsNeeded(resource: KubernetesObject, identity: string, sourceUid: string)
    requires Decoded(resource)
    ensures InjectManagement(Serialized(resource), identity, sourceUid).Success?
            <==> resource.metadata.annotations.Some? && resource.metadata.labels.Some?
  {
    SerializedMeta(resource);
    MetaFields(resource.metadata);
  }

  // ----- Where owner references end up -----

  /** An owner a resource may have: identified, not the resource itself, and either cluster-scoped or in
      the resource's own namespace. */
  predicate SafeOwner(owner: ObjectRef, resource: KubernetesObject) {
    && owner.uid.Some? && owner.uid.value != ""
    && !(owner.apiVersion == resource.apiVersion && owner.kind == resource.kind
         && owner.name == resource.metadata.name && owner.namespace == resource.metadata.namespace)
    && (owner.namespace.Some? ==> owner.namespace == resource.metadata.namespace)
  }

  lemma OwnerReferenceValueIsClean(owner: ObjectRef, uid: string, block: Option<bool>)
    ensures PruneNulls(Array([OwnerReferenceValue(owner, uid, block)]))
        == Array([OwnerReferenceValue(owner, uid, block)])
  {
    var entry := OwnerReferenceValue(owner, uid, block);
    assert PruneNulls(entry).entries == entry.entries;
    assert PruneNulls(Array([entry])).items == [entry];
  }

  /** The owner references of the final document, in every mode: explicit ones survive up to pruning;
      otherwise there is exactly one, to a safe owner, just when the mode asks for it. */
  lemma OwnerReferencesOfDocument(owner: ObjectRef, resource: KubernetesObject, ownership: Option<Ownership>)
    requires Decoded(resource) && ApplyPatchDocument(owner, resource, ownership).Success?
    ensures var written := Field(Object(Meta(ApplyPatchDocument(owner, resource, ownership).value)), "ownerReferences");
            if HasExplicitOwners(resource) then
              var given := resource.metadata.extra["ownerReferences"];
              (ownership.None? || !ownership.value.Reference?) && written
                  == if given.Null? then None else Some(PruneNulls(given))
            else match ownership
              case Some(NoOwnership) => written == None
              case Some(Reference(ref, block)) =>
                SafeOwner(ref, resource) && written == Some(Array([OwnerReferenceValue(ref, ref.uid.value, block)]))
              case _ =>
                if SafeOwner(owner, resource) && owner.namespace.Some?
                then written == Some(Array([OwnerReferenceValue(owner, owner.uid.value, None)]))
                else written == None
  {
    SerializedMeta(resource);
    MetaFields(resource.metadata);
    var refs := OwnerReferences(owner, resource, ownership).value;
    FinishedMeta(Serialized(resource), refs, "ownerReferences");
    match ownership {
      case Some(Reference(ref, block)) =>
        OwnerReferenceValueIsClean(ref, ref.uid.value, block);
      case Some(NoOwnership) =>
      case _ =>
        if owner.uid.Some? {
          OwnerReferenceValueIsClean(owner, owner.uid.value, None);
        }
    }
  }

  /** What the handler left out is absent from the document. */
  lemma DocumentOmits(owner: ObjectRef, resource: KubernetesObject, ownership: Option<Ownership>)
    requires Decoded(resource) && ApplyPatchDocument(owner, resource, ownership).Success?
    ensures var doc := ApplyPatchDocument(owner, resource, ownership).value;
            && HasMetadata(doc)
            && (resource.metadata.resourceVersion.None? ==> "resourceVersion" !in Meta(doc))
            && (resource.metadata.finalizers.None? ==> "finalizers" !in Meta(doc))
            && (resource.status.None? ==> "status" !in doc.entries)
  {
    var refs := OwnerReferences(owner, resource, ownership).value;
    SerializedMeta(resource);
    MetaFields(resource.metadata);
    FinishedMeta(Serialized(resource), refs, "resourceVersion");
    FinishedMeta(Serialized(resource), refs, "finalizers");
    if resource.status.None? {
      FinishedStatus(resource, refs);
    }
    assert resource.metadata.finalizers.None? ==> Field(MetaValue(resource.metadata), "finalizers") == Some(Null);
  }

  lemma FinishedStatus(resource: KubernetesObject, refs: Option<Value>)
    requires Decoded(resource) && HasMetadata(Serialized(resource)) && resource.status.None?
    ensures "status" !in Finished(Serialized(resource), refs).entries
  {
    assert Serialized(resource).entries["status"] == Null;
  }
}
