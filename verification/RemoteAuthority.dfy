/** Authority over objects on a remote cluster: who may mutate what, and the
    metadata by which a remote object proves it. */
module RemoteAuthority {
  import opened Wrappers
  import opened Json
  import opened Contract
  import opened ApiServer
  import opened Text

  const IDENTITY_ANNOTATION := "applik8s.dev/remote-management-identity"
  const SOURCE_UID_ANNOTATION := "applik8s.dev/remote-source-uid"
  const MANAGED_BY_LABEL := "app.kubernetes.io/managed-by"

  function ValidateRemoteAuthority(
    owner: ObjectRef, connection: Option<string>, authority: Option<Authority>, index: nat, apply: bool): Result<(),
        Error>
  {
    match (connection, authority)
    case (None, None) => Success(())
    case (None, Some(_)) => Failure(InvalidOperation(index, AuthorityWithoutConnection))
    case (Some(_), None) => Failure(InvalidOperation(index, ConnectionWithoutAuthority))
    case (Some(_), Some(Existing(precondition))) =>
      if apply then Failure(InvalidOperation(index, ApplyNeedsManagedAuthority))
      else if Blank(precondition.uid) || Blank(precondition.resourceVersion) then
        Failure(InvalidOperation(index, EmptyExistingPrecondition))
      else Success(())
    case (Some(_), Some(Managed(identity, sourceUid))) =>
      if Blank(identity) || Blank(sourceUid) then Failure(InvalidOperation(index, EmptyManagedIdentity))
      else if owner.uid.None? || Blank(owner.uid.value) then Failure(InvalidPayload(OwnerUidRequired))
      else if sourceUid != owner.uid.value then Failure(InvalidOperation(index, SourceUidMismatch))
      else Success(())
  }

  /** The document shows what the authority claims about it. */
  predicate Proves(doc: Value, authority: Authority) {
    match authority
    case Managed(identity, sourceUid) =>
      Annotation(doc, IDENTITY_ANNOTATION) == Some(identity)
          && Annotation(doc, SOURCE_UID_ANNOTATION) == Some(sourceUid)
    case Existing(precondition) =>
      Uid(doc) == Some(precondition.uid) && Version(doc) == Some(precondition.resourceVersion)
  }

  function NonEmpty(s: Option<string>): Option<string> {
    if s == Some("") then None else s
  }

  function VerifyRemoteObject(doc: Value, authority: Authority): (r: Result<Precondition, Error>)
    ensures r.Success? <==> NonEmpty(Uid(doc)).Some? && NonEmpty(Version(doc)).Some? && Proves(doc, authority)
    ensures r.Success? ==> Uid(doc) == Some(r.value.uid) && Version(doc) == Some(r.value.resourceVersion)
  {
    var uid := NonEmpty(Uid(doc));
    var version := NonEmpty(Version(doc));
    if uid.None? then Failure(InvalidPayload(TargetWithoutUid))
    else if version.None? then Failure(InvalidPayload(TargetWithoutVersion))
    else
      match authority
      case Existing(precondition) =>
        if precondition.uid != uid.value || precondition.resourceVersion != version.value
        then Failure(InvalidPayload(StalePrecondition))
        else Success(Precondition(uid.value, version.value))
      case Managed(identity, sourceUid) =>
        if Annotation(doc, IDENTITY_ANNOTATION) != Some(identity)
            || Annotation(doc, SOURCE_UID_ANNOTATION) != Some(sourceUid)
        then Failure(InvalidPayload(IdentityNotProven))
        else Success(Precondition(uid.value, version.value))
  }

  /** Members of a metadata map that must be an object: absent counts as empty. */
  function MapEntry(meta: map<string, Value>, key: string, fault: Fault): Result<map<string, Value>, Error> {
    if key !in meta then Success(map[])
    else match meta[key]
      case Object(entries) => Success(entries)
      case _ => Failure(InvalidPayload(fault))
  }

  function InjectManagement(doc: Value, identity: string, sourceUid: string): (r: Result<Value, Error>)
    ensures r.Success? ==> HasMetadata(r.value) && Proves(r.value, Managed(identity, sourceUid))
    ensures r.Success? ==> forall key :: key in Meta(doc) && key != "annotations" && key != "labels" ==>
                             key in Meta(r.value) && Meta(r.value)[key] == Meta(doc)[key]
    ensures r.Success? ==> Meta(r.value).Keys == Meta(doc).Keys + {"annotations", "labels"}
    ensures r.Success? <==> HasMetadata(doc) && MapEntry(Meta(doc), "annotations", AnnotationsNotObject).Success?
                            && MapEntry(Meta(doc), "labels", LabelsNotObject).Success?
  {
    if !HasMetadata(doc) then Failure(InvalidPayload(MissingMetadata))
    else
      var annotations :- MapEntry(Meta(doc), "annotations", AnnotationsNotObject);
      var annotated := annotations[IDENTITY_ANNOTATION := String(identity)][SOURCE_UID_ANNOTATION := String(sourceUid)];
      var doc1 := WithMeta(doc, "annotations", Object(annotated));
      var labels :- MapEntry(Meta(doc1), "labels", LabelsNotObject);
      Success(WithMeta(doc1, "labels", Object(labels[MANAGED_BY_LABEL := String("applik8s")])))
  }

  function InjectPrecondition(doc: Value, version: string): (r: Result<Value, Error>)
    ensures r.Success? <==> HasMetadata(doc)
    ensures r.Success? ==> HasMetadata(r.value) && Version(r.value) == Some(version) && Intent(r.value) == Intent(doc)
  {
    if !HasMetadata(doc) then Failure(InvalidPayload(MissingMetadata))
    else
      var guarded := WithMeta(doc, "resourceVersion", String(version));
      assert Intent(guarded) == Intent(doc) by {
        assert Meta(guarded) - SYSTEM_METADATA == Meta(doc) - SYSTEM_METADATA;
      }
      Success(guarded)
  }
}
