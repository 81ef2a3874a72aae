/** Removal of the temporary field ownership left by a remote create: index
    arithmetic over a list that the patch itself shortens as it runs. */
module OwnershipCleanup {
  import opened Wrappers
  import opened Sequences
  import opened Json
  import JsonPatch
  import opened Contract
  import opened ApiServer

  const CREATE_MANAGER := "applik8s-remote-create"

  predicate IsCreateEntry(entry: Value) {
    IsEntryOf(entry, CREATE_MANAGER, "Update")
  }

  predicate HasCreateOwnership(doc: Value) {
    exists i :: 0 <= i < |ManagedFields(doc)| && IsCreateEntry(ManagedFields(doc)[i])
  }

  /** Positions of the temporary entries, highest first. */
  function CreateIndices(entries: seq<Value>): seq<nat> {
    if entries == [] then []
    else
      var last := |entries| - 1;
      (if IsCreateEntry(entries[last]) then [last] else []) + CreateIndices(entries[..last])
  }

  /** What the clean-up should leave: the other entries, in their order. */
  function WithoutCreateEntries(entries: seq<Value>): seq<Value> {
    if entries == [] then []
    else
      var last := |entries| - 1;
      WithoutCreateEntries(entries[..last]) + (if IsCreateEntry(entries[last]) then [] else [entries[last]])
  }

  // Pointers to /metadata/uid, /metadata/resourceVersion and /metadata/managedFields/<index>.

  const UID_POINTER := "/" + "metadata" + "/" + "uid"
  const VERSION_POINTER := "/" + "metadata" + "/" + "resourceVersion"

  function EntryPointer(index: string): string {
    "/" + "metadata" + "/" + "managedFields" + "/" + index
  }

  function TestEntry(path: string, value: string): JsonPatch.Entry {
    JsonPatch.Entry(JsonPatch.Test, path, Some(String(value)), None)
  }

  function RemoveEntry(index: nat): JsonPatch.Entry {
    JsonPatch.Entry(JsonPatch.Remove, EntryPointer(JsonPatch.Decimal(index)), None, None)
  }

  function Removes(indices: seq<nat>): seq<JsonPatch.Entry> {
    if indices == [] then [] else [RemoveEntry(indices[0])] + Removes(indices[1..])
  }

  /** The tests that tie a patch to one version of one object. */
  function Guards(precondition: Precondition): seq<JsonPatch.Entry> {
    [TestEntry(UID_POINTER, precondition.uid), TestEntry(VERSION_POINTER, precondition.resourceVersion)]
  }

  /** The clean-up patch for the object an apply returned; nothing to send when no entry is temporary. */
  function CleanupPatch(doc: Value): Result<Option<seq<JsonPatch.Entry>>, Error> {
    var indices := CreateIndices(ManagedFields(doc));
    if indices == [] then Success(None)
    else if Uid(doc).None? then Failure(InvalidPayload(CleanupWithoutUid))
    else if Version(doc).None? then Failure(InvalidPayload(CleanupWithoutVersion))
    else Success(Some(Guards(Precondition(Uid(doc).value, Version(doc).value)) + Removes(indices)))
  }

  // ----- Guards -----

  lemma GuardTokens()
    ensures JsonPatch.Tokens(UID_POINTER) == Some(["metadata", "uid"])
    ensures JsonPatch.Tokens(VERSION_POINTER) == Some(["metadata", "resourceVersion"])
  {
    JsonPatch.TwoTokens("metadata", "uid");
    JsonPatch.TwoTokens("metadata", "resourceVersion");
  }

  lemma TestMeta(doc: Value, path: string, key: string, value: string)
    requires HasMetadata(doc) && JsonPatch.Tokens(path) == Some(["metadata", key])
    ensures JsonPatch.ApplyEntry(doc, TestEntry(path, value))
        == if MetaString(doc, key) == Some(value) then Some(doc) else None
  {
    var tokens := ["metadata", key];
    assert tokens[1..] == [key] && [key][1..] == [];
    var meta := doc.entries["metadata"];
    assert JsonPatch.Lookup(doc, tokens) == JsonPatch.Lookup(meta, [key]);
    assert key in meta.entries ==> JsonPatch.Lookup(meta, [key]) == JsonPatch.Lookup(meta.entries[key], []);
  }

  lemma EvaluateFirst(doc: Value, entry: JsonPatch.Entry, rest: seq<JsonPatch.Entry>)
    ensures JsonPatch.Evaluate(doc, [entry] + rest)
            == match JsonPatch.ApplyEntry(doc, entry)
               case Some(next) => JsonPatch.Evaluate(next, rest)
               case None => None
  {
    assert ([entry] + rest)[1..] == rest;
  }

  /** A guarded patch takes effect only on the exact uid and resourceVersion of the guard, and then
      does exactly what the entries after the guard do. */
  lemma GuardedEvaluation(doc: Value, precondition: Precondition, entries: seq<JsonPatch.Entry>)
    requires HasMetadata(doc)
    ensures JsonPatch.Evaluate(doc, Guards(precondition) + entries)
            == if Uid(doc) == Some(precondition.uid) && Version(doc) == Some(precondition.resourceVersion)
               then JsonPatch.Evaluate(doc, entries) else None
  {
    GuardTokens();
    var first := TestEntry(UID_POINTER, precondition.uid);
    var second := TestEntry(VERSION_POINTER, precondition.resourceVersion);
    TestMeta(doc, UID_POINTER, "uid", precondition.uid);
    TestMeta(doc, VERSION_POINTER, "resourceVersion", precondition.resourceVersion);
    EvaluateFirst(doc, first, [second] + entries);
    EvaluateFirst(doc, second, entries);
    assert Guards(precondition) + entries == [first] + ([second] + entries);
  }

  // ----- Removes -----

  lemma RemoveNested(doc: Value, list: string, index: string, i: nat, items: seq<Value>)
    requires HasMetadata(doc) && list in Meta(doc) && Meta(doc)[list] == Array(items)
    requires JsonPatch.ParseIndex(index) == Some(i) && i < |items|
    ensures JsonPatch.RemoveAt(doc, ["metadata", list, index])
        == Some(WithMeta(doc, list, Array(items[..i] + items[i + 1..])))
  {
    var tokens := ["metadata", list, index];
    assert tokens[1..] == [list, index] && [list, index][1..] == [index];
    var meta := doc.entries["metadata"];
    var shorter := Array(items[..i] + items[i + 1..]);
    assert JsonPatch.RemoveAt(Array(items), [index]) == Some(shorter);
    assert JsonPatch.RemoveAt(meta, [list, index]) == Some(Object(meta.entries[list := shorter]));
  }

  lemma RemoveManagedEntry(doc: Value, i: nat)
    requires HasMetadata(doc) && i < |ManagedFields(doc)|
    ensures var entries := ManagedFields(doc);
            JsonPatch.ApplyEntry(doc, RemoveEntry(i))
                == Some(WithMeta(doc, "managedFields", Array(entries[..i] + entries[i + 1..])))
  {
    var index := JsonPatch.Decimal(i);
    JsonPatch.IndexRoundTrip(i);
    ManagedFieldsTokens(index);
    RemoveNested(doc, "managedFields", index, i, ManagedFields(doc));
  }

  lemma ManagedFieldsTokens(index: string)
    requires JsonPatch.Plain(index)
    ensures JsonPatch.Tokens(EntryPointer(index)) == Some(["metadata", "managedFields", index])
  {
    JsonPatch.ThreeTokens("metadata", "managedFields", index);
  }

  lemma WithMetaTwice(doc: Value, key: string, v: Value, w: Value)
    requires HasMetadata(doc)
    ensures WithMeta(WithMeta(doc, key, v), key, w) == WithMeta(doc, key, w)
  {
    assert Meta(doc)[key := v][key := w] == Meta(doc)[key := w];
    var m := Object(Meta(doc)[key := w]);
    assert doc.entries["metadata" := Object(Meta(doc)[key := v])]["metadata" := m] == doc.entries["metadata" := m];
  }

  /** The highest index goes first, so it is still the index of the last entry of the prefix. */
  lemma RemoveLast(doc: Value, prefix: seq<Value>, tail: seq<Value>)
    requires HasMetadata(doc) && ManagedFields(doc) == prefix + tail
    requires prefix != [] && IsCreateEntry(prefix[|prefix| - 1])
    ensures var shorter := prefix[..|prefix| - 1];
            JsonPatch.Evaluate(doc, Removes(CreateIndices(prefix)))
            == JsonPatch.Evaluate(WithMeta(doc, "managedFields", Array(shorter + tail)),
                Removes(CreateIndices(shorter)))
  {
    var last := |prefix| - 1;
    var shorter := prefix[..last];
    RemoveManagedEntry(doc, last);
    assert (prefix + tail)[..last] + (prefix + tail)[last + 1..] == shorter + tail;
    assert CreateIndices(prefix) == [last] + CreateIndices(shorter);
    assert ([last] + CreateIndices(shorter))[1..] == CreateIndices(shorter);
    assert Removes(CreateIndices(prefix)) == [RemoveEntry(last)] + Removes(CreateIndices(shorter));
    EvaluateFirst(doc, RemoveEntry(last), Removes(CreateIndices(shorter)));
  }

  /** The removes for a prefix of the list delete its temporary entries and nothing else; every index is
      in range when its turn comes. */
  predicate RemovesLeave(doc: Value, prefix: seq<Value>, tail: seq<Value>)
    requires HasMetadata(doc)
  {
    JsonPatch.Evaluate(doc, Removes(CreateIndices(prefix)))
    == Some(WithMeta(doc, "managedFields", Array(WithoutCreateEntries(prefix) + tail)))
  }

  lemma RemovesNothing(doc: Value, tail: seq<Value>)
    requires HasMetadata(doc) && "managedFields" in Meta(doc) && Meta(doc)["managedFields"] == Array(tail)
    ensures RemovesLeave(doc, [], tail)
  {
    assert [] + tail == tail;
    assert Meta(doc)["managedFields" := Array(tail)] == Meta(doc);
    assert doc.entries["metadata" := Object(Meta(doc))] == doc.entries;
  }

  lemma RemovesOne(doc: Value, prefix: seq<Value>, tail: seq<Value>)
    requires HasMetadata(doc) && ManagedFields(doc) == prefix + tail
    requires prefix != [] && IsCreateEntry(prefix[|prefix| - 1])
    requires RemovesLeave(WithMeta(doc, "managedFields", Array(prefix[..|prefix| - 1] + tail)),
        prefix[..|prefix| - 1], tail)
    ensures RemovesLeave(doc, prefix, tail)
  {
    var shorter := prefix[..|prefix| - 1];
    RemoveLast(doc, prefix, tail);
    WithMetaTwice(doc, "managedFields", Array(shorter + tail), Array(WithoutCreateEntries(shorter) + tail));
    assert WithoutCreateEntries(prefix) == WithoutCreateEntries(shorter) + [] == WithoutCreateEntries(shorter);
  }

  lemma RemovesSkip(doc: Value, prefix: seq<Value>, tail: seq<Value>)
    requires HasMetadata(doc)
    requires prefix != [] && !IsCreateEntry(prefix[|prefix| - 1])
    requires RemovesLeave(doc, prefix[..|prefix| - 1], [prefix[|prefix| - 1]] + tail)
    ensures RemovesLeave(doc, prefix, tail)
  {
    var shorter := prefix[..|prefix| - 1];
    SkipKeepsIndices(prefix);
    SkipKeepsEntry(prefix);
    Regroup(WithoutCreateEntries(shorter), [prefix[|prefix| - 1]], tail);
    assert JsonPatch.Evaluate(doc, Removes(CreateIndices(prefix)))
        == JsonPatch.Evaluate(doc, Removes(CreateIndices(shorter)));
  }

  lemma SkipKeepsIndices(prefix: seq<Value>)
    requires prefix != [] && !IsCreateEntry(prefix[|prefix| - 1])
    ensures CreateIndices(prefix) == CreateIndices(prefix[..|prefix| - 1])
  {
    assert CreateIndices(prefix) == [] + CreateIndices(prefix[..|prefix| - 1]);
  }

  lemma SkipKeepsEntry(prefix: seq<Value>)
    requires prefix != [] && !IsCreateEntry(prefix[|prefix| - 1])
    ensures WithoutCreateEntries(prefix) == WithoutCreateEntries(prefix[..|prefix| - 1]) + [prefix[|prefix| - 1]]
  {
  }

  lemma {:induction false} RemovesFilter(doc: Value, prefix: seq<Value>, tail: seq<Value>)
    requires HasMetadata(doc) && "managedFields" in Meta(doc) && Meta(doc)["managedFields"] == Array(prefix + tail)
    ensures RemovesLeave(doc, prefix, tail)
    decreases |prefix|
  {
    if prefix == [] {
      assert prefix + tail == tail;
      RemovesNothing(doc, tail);
    } else {
      var last := |prefix| - 1;
      if IsCreateEntry(prefix[last]) {
        RemovesFilter(WithMeta(doc, "managedFields", Array(prefix[..last] + tail)), prefix[..last], tail);
        RemovesOne(doc, prefix, tail);
      } else {
        assert prefix + tail == prefix[..last] + ([prefix[last]] + tail);
        RemovesFilter(doc, prefix[..last], [prefix[last]] + tail);
        RemovesSkip(doc, prefix, tail);
      }
    }
  }

  lemma {:induction false} IndicesIffOwnership(entries: seq<Value>)
    ensures CreateIndices(entries) != [] <==> exists i :: 0 <= i < |entries| && IsCreateEntry(entries[i])
  {
    if entries != [] {
      var last := |entries| - 1;
      IndicesIffOwnership(entries[..last]);
      if i :| 0 <= i < |entries| && IsCreateEntry(entries[i]) && i != last {
        assert entries[..last][i] == entries[i];
      }
    }
  }

  lemma {:induction false} FilteredHasNoCreateEntry(entries: seq<Value>)
    ensures forall i :: 0 <= i < |WithoutCreateEntries(entries)| ==>
              !IsCreateEntry(WithoutCreateEntries(entries)[i]) && WithoutCreateEntries(entries)[i] in entries
    ensures forall e :: e in entries && !IsCreateEntry(e) ==> e in WithoutCreateEntries(entries)
  {
    if entries != [] {
      var last := |entries| - 1;
      FilteredHasNoCreateEntry(entries[..last]);
      assert entries == entries[..last] + [entries[last]];
    }
  }

  lemma CleanupPatchShape(applied: Value)
    requires Uid(applied).Some? && Version(applied).Some?
    ensures CleanupPatch(applied) ==
            if HasCreateOwnership(applied)
            then Success(Some(Guards(Precondition(Uid(applied).value, Version(applied).value))
                + Removes(CreateIndices(ManagedFields(applied)))))
            else Success(None)
  {
    IndicesIffOwnership(ManagedFields(applied));
  }

  /** The object after a clean-up. */
  function CleanedUp(doc: Value): (r: Value)
    requires HasMetadata(doc)
    ensures HasMetadata(r) && Uid(r) == Uid(doc) && Version(r) == Version(doc)
    ensures ManagedFields(r) == WithoutCreateEntries(ManagedFields(doc))
    ensures forall key :: Annotation(r, key) == Annotation(doc, key)
  {
    WithMeta(doc, "managedFields", Array(WithoutCreateEntries(ManagedFields(doc))))
  }

  /** Against any object at the key: when uid or resourceVersion moved, the clean-up is refused; on the
      object it was computed from, exactly the temporary entries go, the rest keeping its order. */
  lemma CleanupEffect(live: Value, applied: Value)
    requires HasMetadata(live) && HasMetadata(applied) && Uid(applied).Some? && Version(applied).Some?
    requires HasCreateOwnership(applied)
    ensures CleanupPatch(applied).Success? && CleanupPatch(applied).value.Some?
    ensures (Uid(live) != Uid(applied) || Version(live) != Version(applied)) ==>
              JsonPatch.Evaluate(live, CleanupPatch(applied).value.value) == None
    ensures live == applied ==> JsonPatch.Evaluate(live, CleanupPatch(applied).value.value) == Some(CleanedUp(live))
  {
    var entries := ManagedFields(applied);
    var guard := Precondition(Uid(applied).value, Version(applied).value);
    CleanupPatchShape(applied);
    GuardedEvaluation(live, guard, Removes(CreateIndices(entries)));
    if live == applied {
      WholeListFilter(live);
    }
  }

  lemma WholeListFilter(doc: Value)
    requires HasMetadata(doc) && HasCreateOwnership(doc)
    ensures JsonPatch.Evaluate(doc, Removes(CreateIndices(ManagedFields(doc)))) == Some(CleanedUp(doc))
  {
    var entries := ManagedFields(doc);
    assert entries == entries + [];
    RemovesFilter(doc, entries, []);
    assert WithoutCreateEntries(entries) + [] == WithoutCreateEntries(entries);
  }
}
