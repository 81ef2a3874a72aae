/** The Kubernetes API server as the applier sees it: objects under keys, opaque
    version tokens that are never issued twice, server-side apply with field
    ownership, JSON Patch, preconditioned delete, and other writers that may do
    anything between two calls. */
module ApiServer {
  import opened Wrappers
  import opened Json
  import JsonPatch

  /** Where an object lives; the connection is None for the local cluster. */
  datatype Key = Key(connection: Option<string>, apiVersion: string, kind: string, namespace: Option<string>,
      name: string)

  datatype ApiError = NotFound | AlreadyExists | Conflict | Invalid

  datatype State = State(objects: map<Key, Value>, clock: nat)

  /** An accepted write: what the key held before and what it holds after. */
  datatype Commit = Commit(key: Key, before: Option<Value>, after: Option<Value>)

  // ----- Version tokens -----

  /** The n-th token the server issues; one serial covers uids and resourceVersions. */
  function Token(n: nat): string {
    seq(n + 1, _ => '1')
  }

  lemma TokenIssued(n: nat, from: nat, until: nat)
    requires from <= n < until
    ensures Issued(Some(Token(n)), from, until)
  {
  }

  predicate Issued(token: Option<string>, from: nat, until: nat) {
    token.Some? && |token.value| >= 1 && token.value == Token(|token.value| - 1) && from <= |token.value| - 1 < until
  }

  function Uid(doc: Value): Option<string> {
    MetaString(doc, "uid")
  }

  function Version(doc: Value): Option<string> {
    MetaString(doc, "resourceVersion")
  }

  function Stamp(doc: Value, uid: string, version: string): (r: Value)
    requires HasMetadata(doc)
    ensures HasMetadata(r) && Uid(r) == Some(uid) && Version(r) == Some(version)
    ensures ManagedFields(r) == ManagedFields(doc)
    ensures forall key :: Annotation(r, key) == Annotation(doc, key)
  {
    WithMeta(WithMeta(doc, "uid", String(uid)), "resourceVersion", String(version))
  }

  predicate WellFormed(s: State) {
    forall key :: key in s.objects ==>
      HasMetadata(s.objects[key]) && Issued(Uid(s.objects[key]), 0, s.clock)
          && Issued(Version(s.objects[key]), 0, s.clock)
  }

  /** Any number of writes, deletes and re-creations by others: whatever is not exactly what it
      was carries a version issued in between, and a replaced identity carries a new uid. */
  predicate Evolves(a: State, b: State) {
    && a.clock <= b.clock
    && forall key :: key in b.objects ==>
         (key in a.objects && b.objects[key] == a.objects[key]) ||
         Rewritten(if key in a.objects then Uid(a.objects[key]) else None, b.objects[key], a.clock, b.clock)
  }

  predicate Rewritten(oldUid: Option<string>, doc: Value, from: nat, until: nat) {
    && HasMetadata(doc)
    && Issued(Version(doc), from, until)
    && ((oldUid.Some? && Uid(doc) == oldUid) || Issued(Uid(doc), from, until))
  }

  lemma EvolvesKeepsWellFormed(a: State, b: State)
    requires WellFormed(a) && Evolves(a, b)
    ensures WellFormed(b)
  {
  }

  /** One relation covers arbitrarily many interfering writes. */
  lemma EvolvesTransitive(a: State, b: State, c: State)
    requires Evolves(a, b) && Evolves(b, c)
    ensures Evolves(a, c)
  {
    forall key | key in c.objects && !(key in a.objects && c.objects[key] == a.objects[key])
      ensures Rewritten(if key in a.objects then Uid(a.objects[key]) else None, c.objects[key], a.clock, c.clock)
    {
      if key in b.objects && c.objects[key] == b.objects[key] {
        assert Rewritten(if key in a.objects then Uid(a.objects[key]) else None, b.objects[key], a.clock, b.clock);
      }
    }
  }

  /** Equal versions mean equal objects, across any interference: a version read earlier and still
      current has not been written in between. */
  lemma SameVersionSameObject(a: State, b: State, key: Key, doc: Value)
    requires WellFormed(a) && Evolves(a, b)
    requires key in a.objects && a.objects[key] == doc
    requires key in b.objects && Version(b.objects[key]) == Version(doc)
    ensures b.objects[key] == doc
  {
  }

  // ----- Field ownership -----

  const SYSTEM_METADATA: set<string> :=
    {"name", "namespace", "uid", "resourceVersion", "generation", "creationTimestamp", "deletionTimestamp",
        "managedFields", "selfLink"}

  /** The part of a submitted document whose fields the submitting manager comes to own. */
  function Intent(doc: Value): (intent: Value)
    ensures HasMetadata(doc) ==> HasMetadata(intent)
  {
    if doc.Object? then
      Object(map k | k in doc.entries && k != "apiVersion" && k != "kind" ::
        if k == "metadata" && doc.entries[k].Object? then Object(doc.entries[k].entries - SYSTEM_METADATA)
        else doc.entries[k])
    else doc
  }

  function ManagedEntry(manager: string, operation: string, intent: Value): Value {
    Object(map["manager" := String(manager), "operation" := String(operation), "fieldsV1" := Shape(intent)])
  }

  /** Ownership is tracked by subresource; the object itself is the empty one (absent is the same). */
  predicate IsEntryOf(entry: Value, manager: string, operation: string, subresource: string := "") {
    && StringField(entry, "subresource").GetOr("") == subresource
    && StringField(entry, "manager") == Some(manager)
    && StringField(entry, "operation") == Some(operation)
  }

  function OwnedPaths(entry: Value): set<Path> {
    match Field(entry, "fieldsV1")
    case Some(fields) => LeafPaths(fields)
    case None => {}
  }

  predicate OwnedByOther(entries: seq<Value>, manager: string, p: Path, subresource: string := "") {
    exists i :: 0 <= i < |entries| && !IsEntryOf(entries[i], manager, "Apply",
        subresource) && p in OwnedPaths(entries[i])
  }

  /** Fields the apply wants to change although some other manager owns them. */
  function ConflictPaths(live: Value, manager: string, intent: Value, subresource: string := ""): set<Path> {
    set p | p in LeafPaths(intent) && !SameLeaf(live, intent, p) && OwnedByOther(ManagedFields(live), manager, p,
        subresource)
  }

  /** Fields this manager applied before and no longer applies, unless someone else owns them too. */
  function AbandonedPaths(live: Value, manager: string, intent: Value, subresource: string := ""): set<Path> {
    var entries := ManagedFields(live);
    set i, p | 0 <= i < |entries| && IsEntryOf(entries[i], manager, "Apply", subresource) && p in OwnedPaths(entries[i])
               && p !in LeafPaths(intent) && !OwnedByOther(entries, manager, p, subresource) :: p
  }

  function OtherEntries(entries: seq<Value>, manager: string, taken: set<Path>, subresource: string := ""): seq<Value> {
    if entries == [] then []
    else
      var rest := OtherEntries(entries[1..], manager, taken, subresource);
      if IsEntryOf(entries[0], manager, "Apply", subresource) then rest
      else [Relinquish(entries[0], taken)] + rest
  }

  /** The list with the manager's entry renewed where it was, or added at the end. */
  function UpdatedEntries(entries: seq<Value>, manager: string, taken: set<Path>, entry: Value,
      subresource: string := ""): seq<Value> {
    if entries == [] then [entry]
    else if IsEntryOf(entries[0], manager, "Apply", subresource) then
      [entry] + OtherEntries(entries[1..], manager, taken, subresource)
    else [Relinquish(entries[0], taken)] + UpdatedEntries(entries[1..], manager, taken, entry, subresource)
  }

  function Relinquish(entry: Value, taken: set<Path>): Value {
    match Field(entry, "fieldsV1")
    case Some(fields) => if taken == {} then entry else Object(entry.entries["fieldsV1" := Drop(fields, taken)])
    case None => entry
  }

  // ----- Calls -----

  function Created(doc: Value, manager: string, operation: string, token: string): (r: Value)
    requires HasMetadata(doc)
    ensures HasMetadata(r) && Uid(r) == Some(token) && Version(r) == Some(token)
    ensures ManagedFields(r) == [ManagedEntry(manager, operation, Intent(doc))]
    ensures forall key :: Annotation(r, key) == Annotation(doc, key)
  {
    Stamp(WithMeta(doc, "managedFields", Array([ManagedEntry(manager, operation, Intent(doc))])), token, token)
  }

  function CreateResult(s: State, key: Key, manager: string, operation: string,
      doc: Value): Result<(State, Value), ApiError> {
    if key in s.objects then Failure(AlreadyExists)
    else if !HasMetadata(doc) then Failure(Invalid)
    else
      var stored := Created(doc, manager, operation, Token(s.clock));
      Success((State(s.objects[key := stored], s.clock + 1), stored))
  }

  lemma MergeHasMetadata(base: Value, intent: Value)
    requires base.Object? && HasMetadata(intent)
    requires "metadata" in base.entries ==> base.entries["metadata"].Object?
    ensures HasMetadata(Merge(base, intent))
  {
    if "metadata" in base.entries {
      assert Merge(base.entries["metadata"], intent.entries["metadata"]).Object?;
    }
  }

  /** The live object without what this manager abandoned, overlaid with its intent. */
  function Merged(live: Value, manager: string, intent: Value): (r: Value)
    requires HasMetadata(live) && HasMetadata(intent)
    ensures HasMetadata(r)
  {
    var gone := AbandonedPaths(live, manager, intent);
    var base := Drop(live, gone);
    assert "metadata" in base.entries ==>
        base.entries["metadata"] == Drop(live.entries["metadata"], Under(gone, "metadata"));
    MergeHasMetadata(base, intent);
    Merge(base, intent)
  }

  function EntriesAfter(live: Value, manager: string, intent: Value): seq<Value> {
    UpdatedEntries(ManagedFields(live), manager, ConflictPaths(live, manager, intent),
        ManagedEntry(manager, "Apply", intent))
  }

  /** What an admitted apply makes of the live object, before it is stamped with a new version. */
  function Applied(live: Value, manager: string, intent: Value): (r: Value)
    requires HasMetadata(live) && HasMetadata(intent) && Uid(live).Some? && Version(live).Some?
    ensures HasMetadata(r) && Uid(r) == Uid(live) && Version(r) == Version(live)
    ensures ManagedFields(r) == EntriesAfter(live, manager, intent)
  {
    Stamp(WithMeta(Merged(live, manager, intent), "managedFields", Array(EntriesAfter(live, manager, intent))),
          Uid(live).value, Version(live).value)
  }

  /** Server-side apply. A resourceVersion in the document is a precondition. */
  function ApplyResult(s: State, key: Key, manager: string, force: bool, doc: Value): Result<(State, Value), ApiError>
    requires WellFormed(s)
  {
    var expected := Version(doc);
    if !HasMetadata(doc) then Failure(Invalid)
    else if key !in s.objects then
      if expected.Some? then Failure(Conflict) else CreateResult(s, key, manager, "Apply", doc)
    else
      var live := s.objects[key];
      if expected.Some? && expected != Version(live) then Failure(Conflict)
      else if !force && ConflictPaths(live, manager, Intent(doc)) != {} then Failure(Conflict)
      else Success(Store(s, key, Applied(live, manager, Intent(doc))))
  }

  // ----- The status subresource: its own owners, and nothing but the status is written -----

  const STATUS := "status"

  function StatusIntent(doc: Value): (intent: Value)
    ensures intent.Object?
  {
    match Field(doc, STATUS)
    case Some(status) => Object(map[STATUS := status])
    case None => Object(map[])
  }

  function StatusEntry(manager: string, intent: Value): Value {
    Object(map["manager" := String(manager), "operation" := String("Apply"), "subresource" := String(STATUS),
        "fieldsV1" := Shape(intent)])
  }

  function StatusEntriesAfter(live: Value, manager: string, intent: Value): seq<Value> {
    UpdatedEntries(ManagedFields(live), manager, ConflictPaths(live, manager, intent, STATUS),
        StatusEntry(manager, intent), STATUS)
  }

  /** The status without what this manager abandoned, overlaid with its intent. */
  function StatusMerged(live: Value, manager: string, intent: Value): Option<Value> {
    Field(Merge(Drop(live, AbandonedPaths(live, manager, intent, STATUS)), intent), STATUS)
  }

  function WithStatus(live: Value, status: Option<Value>): (r: Value)
    requires HasMetadata(live)
    ensures HasMetadata(r) && Meta(r) == Meta(live)
    ensures Field(r, STATUS) == status
    ensures forall key :: key != STATUS ==> Field(r, key) == Field(live, key)
  {
    match status
    case Some(value) => Object(live.entries[STATUS := value])
    case None => Object(live.entries - {STATUS})
  }

  function StatusApplied(live: Value, manager: string, intent: Value): (r: Value)
    requires HasMetadata(live) && Uid(live).Some? && Version(live).Some?
    ensures HasMetadata(r) && Uid(r) == Uid(live) && Version(r) == Version(live)
    ensures ManagedFields(r) == StatusEntriesAfter(live, manager, intent)
    ensures Field(r, STATUS) == StatusMerged(live, manager, intent)
    ensures forall key :: key !in {"managedFields", "uid", "resourceVersion"} ==>
        Field(Object(Meta(r)), key) == Field(Object(Meta(live)), key)
  {
    Stamp(WithMeta(WithStatus(live, StatusMerged(live, manager, intent)), "managedFields",
        Array(StatusEntriesAfter(live, manager, intent))),
          Uid(live).value, Version(live).value)
  }

  /** Server-side apply of the status of an object that exists. */
  function StatusResult(s: State, key: Key, manager: string, force: bool, doc: Value): Result<(State, Value), ApiError>
    requires WellFormed(s)
  {
    var expected := Version(doc);
    if key !in s.objects then Failure(NotFound)
    else if !HasMetadata(doc) then Failure(Invalid)
    else
      var live := s.objects[key];
      if expected.Some? && expected != Version(live) then Failure(Conflict)
      else if !force && ConflictPaths(live, manager, StatusIntent(doc), STATUS) != {} then Failure(Conflict)
      else Success(Store(s, key, StatusApplied(live, manager, StatusIntent(doc))))
  }

  /** Writes that change nothing keep the version; all others get a fresh one. */
  function Store(s: State, key: Key, doc: Value): (State, Value)
    requires key in s.objects && HasMetadata(doc) && Uid(doc).Some?
  {
    if doc == s.objects[key] then (s, doc)
    else
      var stored := Stamp(doc, Uid(doc).value, Token(s.clock));
      (State(s.objects[key := stored], s.clock + 1), stored)
  }

  function PatchResult(s: State, key: Key, entries: seq<JsonPatch.Entry>): Result<(State, Value), ApiError>
    requires WellFormed(s)
  {
    if key !in s.objects then Failure(NotFound)
    else
      var live := s.objects[key];
      match JsonPatch.Evaluate(live, entries)
      case None => Failure(Invalid)
      case Some(doc) =>
        if !HasMetadata(doc) || Uid(doc) != Uid(live) then Failure(Invalid)
        else if Version(doc) != Version(live) then Failure(Conflict)
        else Success(Store(s, key, doc))
  }

  function DeleteResult(s: State, key: Key, uid: Option<string>, version: Option<string>): Result<State, ApiError> {
    if key !in s.objects then Failure(NotFound)
    else
      var live := s.objects[key];
      if (uid.Some? && uid != Uid(live)) || (version.Some? && version != Version(live)) then Failure(Conflict)
      else Success(State(s.objects - {key}, s.clock))
  }

  // Every accepted write is an evolution of the state and keeps it well formed.

  lemma StoredDocument(s: State, key: Key, doc: Value)
    requires key in s.objects && HasMetadata(doc) && Uid(doc).Some?
    ensures var (next, stored) := Store(s, key, doc);
            && At(next, key) == Some(stored) && (forall other :: other != key ==> At(next, other) == At(s, other))
            && HasMetadata(stored) && Uid(stored) == Uid(doc) && ManagedFields(stored) == ManagedFields(doc)
            && (forall a :: Annotation(stored, a) == Annotation(doc, a))
            && (if doc == s.objects[key] then next == s && stored == doc
                else stored == Stamp(doc, Uid(doc).value, Token(s.clock)) && next.clock == s.clock + 1)
  {
  }

  lemma StoreEvolves(s: State, key: Key, doc: Value)
    requires WellFormed(s) && key in s.objects && HasMetadata(doc) && Uid(doc) == Uid(s.objects[key])
    ensures WellFormed(Store(s, key, doc).0) && Evolves(s, Store(s, key, doc).0)
  {
    TokenIssued(s.clock, s.clock, s.clock + 1);
    StoredDocument(s, key, doc);
    var (next, stored) := Store(s, key, doc);
    if doc != s.objects[key] {
      assert Version(stored) == Some(Token(s.clock));
      RewriteEvolves(s, next, key, stored);
    }
  }

  /** Changing one key to a freshly stamped object of the same uid is an evolution. */
  lemma RewriteEvolves(s: State, next: State, key: Key, stored: Value)
    requires WellFormed(s) && next.clock == s.clock + 1 && next.objects.Keys == s.objects.Keys
    requires forall other :: other != key ==> At(next, other) == At(s, other)
    requires At(next, key) == Some(stored) && key in s.objects
    requires HasMetadata(stored) && Uid(stored) == Uid(s.objects[key]) && Issued(Version(stored), s.clock, s.clock + 1)
    ensures WellFormed(next) && Evolves(s, next)
  {
    forall other | other in next.objects && other != key
        ensures other in s.objects && next.objects[other] == s.objects[other] {
      assert At(next, other) == At(s, other);
    }
  }

  lemma CreateEvolves(s: State, key: Key, manager: string, operation: string, doc: Value)
    requires WellFormed(s)
    ensures var r := CreateResult(s, key, manager, operation, doc);
            r.Success? ==> WellFormed(r.value.0) && Evolves(s, r.value.0)
  {
    TokenIssued(s.clock, s.clock, s.clock + 1);
  }

  lemma ApplyEvolves(s: State, key: Key, manager: string, force: bool, doc: Value)
    requires WellFormed(s)
    ensures var r := ApplyResult(s, key, manager, force, doc);
            r.Success? ==> WellFormed(r.value.0) && Evolves(s, r.value.0)
  {
    if HasMetadata(doc) && key in s.objects {
      AppliedEvolves(s, key, manager, Intent(doc));
    }
  }

  lemma AppliedEvolves(s: State, key: Key, manager: string, intent: Value)
    requires WellFormed(s) && key in s.objects && HasMetadata(intent)
    ensures var next := Store(s, key, Applied(s.objects[key], manager, intent)).0;
            WellFormed(next) && Evolves(s, next)
  {
    StoreEvolves(s, key, Applied(s.objects[key], manager, intent));
  }

  lemma StatusEvolves(s: State, key: Key, manager: string, force: bool, doc: Value)
    requires WellFormed(s)
    ensures var r := StatusResult(s, key, manager, force, doc);
            r.Success? ==> WellFormed(r.value.0) && Evolves(s, r.value.0)
  {
    if key in s.objects {
      StoreEvolves(s, key, StatusApplied(s.objects[key], manager, StatusIntent(doc)));
    }
  }

  lemma PatchEvolves(s: State, key: Key, entries: seq<JsonPatch.Entry>)
    requires WellFormed(s)
    ensures var r := PatchResult(s, key, entries);
            r.Success? ==> WellFormed(r.value.0) && Evolves(s, r.value.0)
  {
    if key in s.objects {
      match JsonPatch.Evaluate(s.objects[key], entries)
      case Some(doc) =>
        if HasMetadata(doc) && Uid(doc) == Uid(s.objects[key]) {
          StoreEvolves(s, key, doc);
        }
      case None =>
    }
  }

  class Cluster {
    var state: State
    ghost var commits: seq<Commit>  // accepted writes of this client, oldest first

    ghost predicate Valid()
      reads this
    {
      WellFormed(state)
    }

    /** Everybody else. The choice is arbitrary, so what holds after this call holds for every schedule. */
    method Interfere()
      requires Valid()
      modifies this`state
      ensures Valid() && Evolves(old(state), state)
    {
      var before := state;
      assert Evolves(before, before);
      var after :| Evolves(before, after);
      EvolvesKeepsWellFormed(before, after);
      state := after;
    }

    method Get(key: Key) returns (r: Result<Value, ApiError>)
      ensures r == if key in state.objects then Success(state.objects[key]) else Failure(NotFound)
    {
      r := if key in state.objects then Success(state.objects[key]) else Failure(NotFound);
    }

    method Create(key: Key, manager: string, doc: Value) returns (r: Result<Value, ApiError>)
      requires Valid()
      modifies this
      ensures Valid()
      ensures match CreateResult(old(state), key, manager, "Update", doc)
              case Success((next, stored)) =>
                r == Success(stored) && state == next && commits == old(commits) + [Commit(key, None, Some(stored))]
              case Failure(e) => r == Failure(e) && state == old(state) && commits == old(commits)
    {
      CreateEvolves(state, key, manager, "Update", doc);
      match CreateResult(state, key, manager, "Update", doc)
      case Success((next, stored)) =>
        state := next;
        commits := commits + [Commit(key, None, Some(stored))];
        r := Success(stored);
      case Failure(e) => r := Failure(e);
    }

    method Apply(key: Key, manager: string, force: bool, doc: Value) returns (r: Result<Value, ApiError>)
      requires Valid()
      modifies this
      ensures Valid()
      ensures match ApplyResult(old(state), key, manager, force, doc)
              case Success((next, stored)) =>
                r == Success(stored) && state == next
                    && commits == old(commits) + [Commit(key, At(old(state), key), Some(stored))]
              case Failure(e) => r == Failure(e) && state == old(state) && commits == old(commits)
    {
      ApplyEvolves(state, key, manager, force, doc);
      match ApplyResult(state, key, manager, force, doc)
      case Success((next, stored)) =>
        commits := commits + [Commit(key, At(state, key), Some(stored))];
        state := next;
        r := Success(stored);
      case Failure(e) => r := Failure(e);
    }

    method ApplyStatus(key: Key, manager: string, force: bool, doc: Value) returns (r: Result<Value, ApiError>)
      requires Valid()
      modifies this
      ensures Valid()
      ensures match StatusResult(old(state), key, manager, force, doc)
              case Success((next, stored)) =>
                r == Success(stored) && state == next
                    && commits == old(commits) + [Commit(key, At(old(state), key), Some(stored))]
              case Failure(e) => r == Failure(e) && state == old(state) && commits == old(commits)
    {
      StatusEvolves(state, key, manager, force, doc);
      match StatusResult(state, key, manager, force, doc)
      case Success((next, stored)) =>
        commits := commits + [Commit(key, At(state, key), Some(stored))];
        state := next;
        r := Success(stored);
      case Failure(e) => r := Failure(e);
    }

    method Patch(key: Key, entries: seq<JsonPatch.Entry>) returns (r: Result<Value, ApiError>)
      requires Valid()
      modifies this
      ensures Valid()
      ensures match PatchResult(old(state), key, entries)
              case Success((next, stored)) =>
                r == Success(stored) && state == next
                    && commits == old(commits) + [Commit(key, At(old(state), key), Some(stored))]
              case Failure(e) => r == Failure(e) && state == old(state) && commits == old(commits)
    {
      PatchEvolves(state, key, entries);
      match PatchResult(state, key, entries)
      case Success((next, stored)) =>
        commits := commits + [Commit(key, At(state, key), Some(stored))];
        state := next;
        r := Success(stored);
      case Failure(e) => r := Failure(e);
    }

    method Delete(key: Key, uid: Option<string>, version: Option<string>) returns (r: Result<(), ApiError>)
      requires Valid()
      modifies this
      ensures Valid()
      ensures match DeleteResult(old(state), key, uid, version)
              case Success(next) =>
                r == Success(()) && state == next && commits == old(commits) + [Commit(key, At(old(state), key), None)]
              case Failure(e) => r == Failure(e) && state == old(state) && commits == old(commits)
    {
      match DeleteResult(state, key, uid, version)
      case Success(next) =>
        commits := commits + [Commit(key, At(state, key), None)];
        state := next;
        r := Success(());
      case Failure(e) => r := Failure(e);
    }
  }

  function At(s: State, key: Key): Option<Value> {
    if key in s.objects then Some(s.objects[key]) else None
  }
}
