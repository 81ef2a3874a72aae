/** Server-side apply repeated: what a manager has applied, and nobody changed, is
    applied again without any effect, and other owners' writes do not disturb that. */
module RepeatedApply {
  import opened Wrappers
  import opened Json
  import opened ApiServer
  import opened TargetDocuments

  // ----- Documents that have a configuration overlaid already -----

  predicate Overlaid(v: Value, config: Value) {
    Merge(v, config) == v
  }

  lemma {:induction false} MergeSelf(config: Value)
    ensures Overlaid(config, config)
  {
    if config.Object? {
      forall k | k in config.entries ensures Overlaid(config.entries[k], config.entries[k]) {
        MergeSelf(config.entries[k]);
      }
    }
  }

  /** Member by member. */
  lemma OverlaidParts(v: Value, config: Value)
    requires v.Object? && config.Object?
    ensures Overlaid(v, config)
            <==> config.entries.Keys <= v.entries.Keys
                 && forall k :: k in config.entries ==> Overlaid(v.entries[k], config.entries[k])
  {
    var merged := Merge(v, config);
    if Overlaid(v, config) {
      forall k | k in config.entries ensures k in v.entries && Overlaid(v.entries[k], config.entries[k]) {
        assert k in merged.entries;
      }
    }
  }

  lemma {:induction false} MergeAgain(live: Value, config: Value)
    ensures Overlaid(Merge(live, config), config)
  {
    if live.Object? && config.Object? {
      var merged := Merge(live, config);
      forall k | k in config.entries ensures k in merged.entries && Overlaid(merged.entries[k], config.entries[k]) {
        if k in live.entries {
          MergeAgain(live.entries[k], config.entries[k]);
        } else {
          MergeSelf(config.entries[k]);
        }
      }
      OverlaidParts(merged, config);
    } else {
      MergeSelf(config);
    }
  }

  /** An intent that can be submitted: it has metadata, but nothing that the server keeps there. */
  predicate IsIntent(intent: Value) {
    HasMetadata(intent) && Meta(intent).Keys !! SYSTEM_METADATA
  }

  lemma IntentIsIntent(doc: Value)
    requires HasMetadata(doc)
    ensures IsIntent(Intent(doc)) && Overlaid(doc, Intent(doc))
  {
    var intent := Intent(doc);
    forall k | k in intent.entries ensures Overlaid(doc.entries[k], intent.entries[k]) {
      MergeSelf(intent.entries[k]);
      if k == "metadata" {
        forall j | j in intent.entries[k].entries
          ensures Overlaid(doc.entries[k].entries[j], intent.entries[k].entries[j])
        {
          MergeSelf(intent.entries[k].entries[j]);
        }
        OverlaidParts(doc.entries[k], intent.entries[k]);
      }
    }
    OverlaidParts(doc, intent);
  }

  /** What the server keeps in the metadata does not matter. */
  lemma OverlaidWithMeta(v: Value, key: string, x: Value, intent: Value)
    requires HasMetadata(v) && IsIntent(intent) && key in SYSTEM_METADATA && Overlaid(v, intent)
    ensures Overlaid(WithMeta(v, key, x), intent)
  {
    var changed := WithMeta(v, key, x);
    OverlaidParts(v, intent);
    OverlaidParts(v.entries["metadata"], intent.entries["metadata"]);
    OverlaidParts(changed.entries["metadata"], intent.entries["metadata"]);
    OverlaidParts(changed, intent);
  }

  lemma OverlaidStamp(v: Value, uid: string, version: string, intent: Value)
    requires HasMetadata(v) && IsIntent(intent) && Overlaid(v, intent)
    ensures Overlaid(Stamp(v, uid, version), intent)
  {
    OverlaidWithMeta(v, "uid", String(uid), intent);
    OverlaidWithMeta(WithMeta(v, "uid", String(uid)), "resourceVersion", String(version), intent);
  }

  lemma OverlaidFinished(v: Value, entries: seq<Value>, uid: string, version: string, intent: Value)
    requires HasMetadata(v) && IsIntent(intent) && Overlaid(v, intent)
    ensures Overlaid(Finished(v, entries, uid, version), intent)
  {
    OverlaidWithMeta(v, "managedFields", Array(entries), intent);
    OverlaidStamp(WithMeta(v, "managedFields", Array(entries)), uid, version, intent);
  }

  /** The bookkeeping of a write. */
  function Finished(v: Value, entries: seq<Value>, uid: string, version: string): (r: Value)
    requires HasMetadata(v)
    ensures IsStored(r) && ManagedFields(r) == entries
    ensures forall key :: key != "metadata" ==> Field(r, key) == Field(v, key)
  {
    Stamp(WithMeta(v, "managedFields", Array(entries)), uid, version)
  }

  lemma OverlaidHasNoConflict(v: Value, manager: string, intent: Value, subresource: string)
    requires forall p :: p in LeafPaths(intent) ==> SameLeaf(v, intent, p)
    ensures ConflictPaths(v, manager, intent, subresource) == {}
  {
  }

  // ----- Entries -----

  predicate NoEntry(entries: seq<Value>, manager: string, subresource: string) {
    forall i :: 0 <= i < |entries| ==> !IsEntryOf(entries[i], manager, "Apply", subresource)
  }

  /** The manager's one entry is this one. */
  predicate Records(entries: seq<Value>, manager: string, entry: Value, subresource: string) {
    entries != [] &&
    if IsEntryOf(entries[0], manager, "Apply", subresource) then entries[0] == entry
        && NoEntry(entries[1..], manager, subresource)
    else Records(entries[1..], manager, entry, subresource)
  }

  lemma RelinquishKeepsKind(entry: Value, taken: set<Path>, manager: string, operation: string, subresource: string)
    ensures IsEntryOf(Relinquish(entry, taken), manager, operation, subresource)
        <==> IsEntryOf(entry, manager, operation, subresource)
  {
  }

  lemma {:induction false} OtherEntriesHaveNone(entries: seq<Value>, manager: string, taken: set<Path>,
      subresource: string)
    ensures NoEntry(OtherEntries(entries, manager, taken, subresource), manager, subresource)
  {
    if entries != [] {
      OtherEntriesHaveNone(entries[1..], manager, taken, subresource);
      RelinquishKeepsKind(entries[0], taken, manager, "Apply", subresource);
    }
  }

  lemma {:induction false} UpdatedEntriesRecord(entries: seq<Value>, manager: string, taken: set<Path>, entry: Value,
      subresource: string)
    requires IsEntryOf(entry, manager, "Apply", subresource)
    ensures Records(UpdatedEntries(entries, manager, taken, entry, subresource), manager, entry, subresource)
  {
    if entries != [] {
      if IsEntryOf(entries[0], manager, "Apply", subresource) {
        OtherEntriesHaveNone(entries[1..], manager, taken, subresource);
        assert ([entry] + OtherEntries(entries[1..], manager, taken, subresource))[1..]
            == OtherEntries(entries[1..], manager, taken, subresource);
      } else {
        UpdatedEntriesRecord(entries[1..], manager, taken, entry, subresource);
        RelinquishKeepsKind(entries[0], taken, manager, "Apply", subresource);
        var rest := UpdatedEntries(entries[1..], manager, taken, entry, subresource);
        assert ([Relinquish(entries[0], taken)] + rest)[1..] == rest;
      }
    }
  }

  lemma {:induction false} OtherEntriesOfNone(entries: seq<Value>, manager: string, subresource: string)
    requires NoEntry(entries, manager, subresource)
    ensures OtherEntries(entries, manager, {}, subresource) == entries
  {
    if entries != [] {
      OtherEntriesOfNone(entries[1..], manager, subresource);
      assert entries == [entries[0]] + entries[1..];
    }
  }

  /** Recording the same entry again, taking nothing, changes nothing. */
  lemma {:induction false} RecordedAgain(entries: seq<Value>, manager: string, entry: Value, subresource: string)
    requires Records(entries, manager, entry, subresource)
    ensures UpdatedEntries(entries, manager, {}, entry, subresource) == entries
  {
    assert entries == [entries[0]] + entries[1..];
    if IsEntryOf(entries[0], manager, "Apply", subresource) {
      OtherEntriesOfNone(entries[1..], manager, subresource);
    } else {
      RecordedAgain(entries[1..], manager, entry, subresource);
    }
  }

  lemma {:induction false} OnlyRecorded(entries: seq<Value>, manager: string, entry: Value, subresource: string)
    requires Records(entries, manager, entry, subresource)
    ensures forall i :: 0 <= i < |entries| && IsEntryOf(entries[i], manager, "Apply", subresource) ==>
        entries[i] == entry
  {
    if !IsEntryOf(entries[0], manager, "Apply", subresource) {
      OnlyRecorded(entries[1..], manager, entry, subresource);
    }
  }

  /** Two ways of owning that are not the same. */
  predicate Apart(manager: string, subresource: string, other: string, otherSubresource: string) {
    manager != other || subresource != otherSubresource
  }

  lemma {:induction false} OtherEntriesKeepNone(entries: seq<Value>, manager: string, subresource: string,
      other: string,
      taken: set<Path>, otherSubresource: string)
    requires NoEntry(entries, manager, subresource)
    ensures NoEntry(OtherEntries(entries, other, taken, otherSubresource), manager, subresource)
  {
    if entries != [] {
      OtherEntriesKeepNone(entries[1..], manager, subresource, other, taken, otherSubresource);
      RelinquishKeepsKind(entries[0], taken, manager, "Apply", subresource);
    }
  }

  lemma {:induction false} OtherEntriesKeepRecord(entries: seq<Value>, manager: string, entry: Value,
      subresource: string,
      other: string, taken: set<Path>, otherSubresource: string)
    requires Records(entries, manager, entry, subresource) && Apart(manager, subresource, other, otherSubresource)
    requires Relinquish(entry, taken) == entry
    ensures Records(OtherEntries(entries, other, taken, otherSubresource), manager, entry, subresource)
  {
    var rest := OtherEntries(entries[1..], other, taken, otherSubresource);
    RelinquishKeepsKind(entries[0], taken, manager, "Apply", subresource);
    if IsEntryOf(entries[0], manager, "Apply", subresource) {
      OtherEntriesKeepNone(entries[1..], manager, subresource, other, taken, otherSubresource);
      assert ([entry] + rest)[1..] == rest;
    } else {
      OtherEntriesKeepRecord(entries[1..], manager, entry, subresource, other, taken, otherSubresource);
      assert ([Relinquish(entries[0], taken)] + rest)[1..] == rest;
    }
  }

  lemma {:induction false} UpdatedEntriesKeepNone(entries: seq<Value>, manager: string, subresource: string,
      other: string,
      taken: set<Path>, renewed: Value, otherSubresource: string)
    requires NoEntry(entries, manager, subresource) && !IsEntryOf(renewed, manager, "Apply", subresource)
    ensures NoEntry(UpdatedEntries(entries, other, taken, renewed, otherSubresource), manager, subresource)
  {
    if entries != [] {
      UpdatedEntriesKeepNone(entries[1..], manager, subresource, other, taken, renewed, otherSubresource);
      OtherEntriesKeepNone(entries[1..], manager, subresource, other, taken, otherSubresource);
      RelinquishKeepsKind(entries[0], taken, manager, "Apply", subresource);
    }
  }

  /** Someone else's entry, renewed, leaves this record alone unless it takes fields from it. */
  lemma {:induction false} UpdatedEntriesKeepRecord(entries: seq<Value>, manager: string, entry: Value,
      subresource: string,
      other: string, taken: set<Path>, renewed: Value, otherSubresource: string)
    requires Records(entries, manager, entry, subresource) && Apart(manager, subresource, other, otherSubresource)
    requires Relinquish(entry, taken) == entry && IsEntryOf(renewed, other, "Apply", otherSubresource)
    ensures Records(UpdatedEntries(entries, other, taken, renewed, otherSubresource), manager, entry, subresource)
  {
    RelinquishKeepsKind(entries[0], taken, manager, "Apply", subresource);
    if IsEntryOf(entries[0], other, "Apply", otherSubresource) {
      var rest := OtherEntries(entries[1..], other, taken, otherSubresource);
      OtherEntriesKeepRecord(entries[1..], manager, entry, subresource, other, taken, otherSubresource);
      assert ([renewed] + rest)[1..] == rest;
    } else {
      var rest := UpdatedEntries(entries[1..], other, taken, renewed, otherSubresource);
      if IsEntryOf(entries[0], manager, "Apply", subresource) {
        UpdatedEntriesKeepNone(entries[1..], manager, subresource, other, taken, renewed, otherSubresource);
      } else {
        UpdatedEntriesKeepRecord(entries[1..], manager, entry, subresource, other, taken, renewed, otherSubresource);
      }
      assert ([Relinquish(entries[0], taken)] + rest)[1..] == rest;
    }
  }

  lemma RecordedAbandonsNothing(v: Value, manager: string, entry: Value, intent: Value, subresource: string)
    requires Records(ManagedFields(v), manager, entry, subresource) && OwnedPaths(entry) <= LeafPaths(intent)
    ensures AbandonedPaths(v, manager, intent, subresource) == {}
  {
    OnlyRecorded(ManagedFields(v), manager, entry, subresource);
  }

  // ----- The object itself -----

  predicate IsStored(v: Value) {
    HasMetadata(v) && Uid(v).Some? && Version(v).Some?
  }

  /** The manager has applied this intent, and it still stands. */
  predicate Holds(v: Value, manager: string, intent: Value) {
    && IsStored(v) && IsIntent(intent) && Overlaid(v, intent)
    && Records(ManagedFields(v), manager, ManagedEntry(manager, "Apply", intent), "")
  }

  /** Then applying it again makes no difference at all. */
  lemma HeldApplyIsNoOp(v: Value, manager: string, intent: Value)
    requires Holds(v, manager, intent)
    ensures Applied(v, manager, intent) == v && ConflictPaths(v, manager, intent) == {}
  {
    var entry := ManagedEntry(manager, "Apply", intent);
    ShapeKeepsPaths(intent);
    RecordedAbandonsNothing(v, manager, entry, intent, "");
    DropNothing(v);
    forall p | p in LeafPaths(intent) ensures SameLeaf(v, intent, p) {
      MergeKeepsConfig(v, intent, p);
    }
    OverlaidHasNoConflict(v, manager, intent, "");
    RecordedAgain(ManagedFields(v), manager, entry, "");
    SameMetaAgain(v);
  }

  /** Writing back what is there. */
  lemma SameMetaAgain(v: Value)
    requires IsStored(v) && ManagedFields(v) != []
    ensures Stamp(WithMeta(v, "managedFields", Array(ManagedFields(v))), Uid(v).value, Version(v).value) == v
  {
    assert Meta(v)["managedFields" := Array(ManagedFields(v))] == Meta(v);
    assert Meta(v)["uid" := String(Uid(v).value)] == Meta(v);
    assert Meta(v)["resourceVersion" := String(Version(v).value)] == Meta(v);
    assert v.entries["metadata" := Object(Meta(v))] == v.entries;
  }

  lemma AppliedHolds(live: Value, manager: string, intent: Value)
    requires IsStored(live) && IsIntent(intent)
    ensures Holds(Applied(live, manager, intent), manager, intent)
  {
    var base := Drop(live, AbandonedPaths(live, manager, intent));
    var entries := EntriesAfter(live, manager, intent);
    MergeAgain(base, intent);
    OverlaidFinished(Merged(live, manager, intent), entries, Uid(live).value, Version(live).value, intent);
    EntriesRecord(live, manager, intent);
  }

  lemma EntriesRecord(live: Value, manager: string, intent: Value)
    ensures Records(EntriesAfter(live, manager, intent), manager, ManagedEntry(manager, "Apply", intent), "")
  {
    UpdatedEntriesRecord(ManagedFields(live), manager, ConflictPaths(live, manager, intent),
                         ManagedEntry(manager, "Apply", intent), "");
  }

  /** The same apply twice is the same as once. */
  lemma AppliedTwice(live: Value, manager: string, intent: Value)
    requires IsStored(live) && IsIntent(intent)
    ensures var once := Applied(live, manager, intent);
            Applied(once, manager, intent) == once && ConflictPaths(once, manager, intent) == {}
  {
    AppliedHolds(live, manager, intent);
    HeldApplyIsNoOp(Applied(live, manager, intent), manager, intent);
  }

  lemma HoldsStamp(v: Value, manager: string, intent: Value, uid: string, version: string)
    requires Holds(v, manager, intent)
    ensures Holds(Stamp(v, uid, version), manager, intent)
  {
    OverlaidStamp(v, uid, version, intent);
  }

  lemma CreatedHolds(doc: Value, manager: string, token: string)
    requires HasMetadata(doc)
    ensures Holds(Created(doc, manager, "Apply", token), manager, Intent(doc))
  {
    var intent := Intent(doc);
    var entries := [ManagedEntry(manager, "Apply", intent)];
    IntentIsIntent(doc);
    OverlaidFinished(doc, entries, token, token, intent);
    OneEntryRecorded(manager, intent);
  }

  lemma OneEntryRecorded(manager: string, intent: Value)
    ensures Records([ManagedEntry(manager, "Apply", intent)], manager, ManagedEntry(manager, "Apply", intent), "")
  {
  }

  // ----- The status -----

  predicate IsStatusIntent(intent: Value) {
    intent.Object? && intent.entries.Keys <= {STATUS}
  }

  predicate StatusHolds(v: Value, manager: string, intent: Value) {
    && IsStored(v) && IsStatusIntent(intent)
    && (STATUS in intent.entries ==> STATUS in v.entries && Overlaid(v.entries[STATUS], intent.entries[STATUS]))
    && Records(ManagedFields(v), manager, StatusEntry(manager, intent), STATUS)
  }

  lemma HeldStatusIsNoOp(v: Value, manager: string, intent: Value)
    requires StatusHolds(v, manager, intent)
    ensures StatusApplied(v, manager, intent) == v && ConflictPaths(v, manager, intent, STATUS) == {}
  {
    HeldStatusHasNoConflict(v, manager, intent);
    RecordedAgain(ManagedFields(v), manager, StatusEntry(manager, intent), STATUS);
    StatusMergedAgain(v, manager, intent);
    assert WithStatus(v, Field(v, STATUS)).entries == v.entries;
    SameMetaAgain(v);
  }

  lemma HeldStatusHasNoConflict(v: Value, manager: string, intent: Value)
    requires StatusHolds(v, manager, intent)
    ensures ConflictPaths(v, manager, intent, STATUS) == {}
  {
    forall p | p in LeafPaths(intent) ensures SameLeaf(v, intent, p) {
      StatusLeafHeld(v, intent, p);
    }
    OverlaidHasNoConflict(v, manager, intent, STATUS);
  }

  lemma StatusMergedAgain(v: Value, manager: string, intent: Value)
    requires StatusHolds(v, manager, intent)
    ensures StatusMerged(v, manager, intent) == Field(v, STATUS)
  {
    ShapeKeepsPaths(intent);
    RecordedAbandonsNothing(v, manager, StatusEntry(manager, intent), intent, STATUS);
    DropNothing(v);
  }

  lemma StatusLeafHeld(v: Value, intent: Value, p: Path)
    requires v.Object? && IsStatusIntent(intent) && p in LeafPaths(intent)
    requires STATUS in intent.entries ==> STATUS in v.entries && Overlaid(v.entries[STATUS], intent.entries[STATUS])
    ensures SameLeaf(v, intent, p)
  {
    assert p != [] && p[0] == STATUS;
    LeafStep(intent, p);
    LeafStep(v, p);
    MergeKeepsConfig(v.entries[STATUS], intent.entries[STATUS], p[1..]);
  }

  lemma StatusAppliedHolds(live: Value, manager: string, intent: Value)
    requires IsStored(live) && IsStatusIntent(intent)
    ensures StatusHolds(StatusApplied(live, manager, intent), manager, intent)
  {
    if STATUS in intent.entries {
      StatusMergedHolds(live, manager, intent);
    }
    StatusEntriesRecord(live, manager, intent);
    assert Field(StatusApplied(live, manager, intent), STATUS) == StatusMerged(live, manager, intent);
  }

  lemma StatusMergedHolds(live: Value, manager: string, intent: Value)
    requires live.Object? && IsStatusIntent(intent) && STATUS in intent.entries
    ensures var status := StatusMerged(live, manager, intent);
            status.Some? && Overlaid(status.value, intent.entries[STATUS])
  {
    var base := Drop(live, AbandonedPaths(live, manager, intent, STATUS));
    if STATUS in base.entries {
      MergeAgain(base.entries[STATUS], intent.entries[STATUS]);
    } else {
      MergeSelf(intent.entries[STATUS]);
    }
  }

  lemma StatusEntriesRecord(live: Value, manager: string, intent: Value)
    ensures Records(StatusEntriesAfter(live, manager, intent), manager, StatusEntry(manager, intent), STATUS)
  {
    UpdatedEntriesRecord(ManagedFields(live), manager, ConflictPaths(live, manager, intent, STATUS),
                         StatusEntry(manager, intent), STATUS);
  }

  lemma StatusHoldsStamp(v: Value, manager: string, intent: Value, uid: string, version: string)
    requires StatusHolds(v, manager, intent)
    ensures StatusHolds(Stamp(v, uid, version), manager, intent)
  {
    assert Field(Stamp(v, uid, version), STATUS) == Field(v, STATUS);
  }

  // ----- Either is left alone by the other -----

  lemma {:induction false} DropElsewhere(shape: Value, taken: set<Path>)
    requires shape.Object? && forall p :: p in taken && p != [] ==> p[0] !in shape.entries
    ensures Drop(shape, taken) == shape
  {
    forall k | k in shape.entries ensures [k] !in taken && Drop(shape.entries[k], Under(taken, k)) == shape.entries[k] {
      assert [k][0] == k;
      assert Under(taken, k) == {};
      DropNothing(shape.entries[k]);
    }
  }

  lemma KeepsEntry(intent: Value, entry: Value, taken: set<Path>)
    requires intent.Object? && entry.Object? && Field(entry, "fieldsV1") == Some(Shape(intent))
    requires forall p :: p in taken && p != [] ==> p[0] !in intent.entries
    ensures Relinquish(entry, taken) == entry
  {
    DropElsewhere(Shape(intent), taken);
    assert entry.entries["fieldsV1" := Shape(intent)] == entry.entries;
  }

  /** A status write does not disturb what was applied to the rest. */
  lemma HoldsUnderStatus(v: Value, manager: string, intent: Value, other: string, status: Value)
    requires Holds(v, manager, intent) && STATUS !in intent.entries && IsStatusIntent(status)
    ensures Holds(StatusApplied(v, other, status), manager, intent)
  {
    var written := WithStatus(v, StatusMerged(v, other, status));
    OverlaidParts(v, intent);
    OverlaidParts(written, intent);
    OverlaidFinished(written, StatusEntriesAfter(v, other, status), Uid(v).value, Version(v).value, intent);
    RecordsUnderStatus(v, manager, intent, other, status);
  }

  lemma RecordsUnderStatus(v: Value, manager: string, intent: Value, other: string, status: Value)
    requires Records(ManagedFields(v), manager, ManagedEntry(manager, "Apply", intent), "")
    requires intent.Object? && STATUS !in intent.entries && IsStatusIntent(status)
    ensures Records(StatusEntriesAfter(v, other, status), manager, ManagedEntry(manager, "Apply", intent), "")
  {
    var taken := ConflictPaths(v, other, status, STATUS);
    KeepsEntry(intent, ManagedEntry(manager, "Apply", intent), taken);
    UpdatedEntriesKeepRecord(ManagedFields(v), manager, ManagedEntry(manager, "Apply", intent), "", other, taken,
                             StatusEntry(other, status), STATUS);
  }

  /** An apply that neither has nor abandons a status does not disturb the status. */
  lemma StatusHoldsUnderApply(v: Value, manager: string, status: Value, other: string, intent: Value)
    requires StatusHolds(v, manager, status) && IsIntent(intent) && STATUS !in intent.entries
    requires AppliesNoStatus(v, other)
    ensures StatusHolds(Applied(v, other, intent), manager, status)
  {
    MergedKeepsStatus(v, other, intent);
    assert Field(Applied(v, other, intent), STATUS) == Field(Merged(v, other, intent), STATUS);
    RecordsUnderApply(v, manager, status, other, intent);
  }

  lemma RecordsUnderApply(v: Value, manager: string, status: Value, other: string, intent: Value)
    requires Records(ManagedFields(v), manager, StatusEntry(manager, status), STATUS)
    requires intent.Object? && STATUS !in intent.entries && IsStatusIntent(status)
    ensures Records(EntriesAfter(v, other, intent), manager, StatusEntry(manager, status), STATUS)
  {
    var taken := ConflictPaths(v, other, intent);
    KeepsEntry(status, StatusEntry(manager, status), taken);
    UpdatedEntriesKeepRecord(ManagedFields(v), manager, StatusEntry(manager, status), STATUS, other, taken,
                             ManagedEntry(other, "Apply", intent), "");
  }
}
