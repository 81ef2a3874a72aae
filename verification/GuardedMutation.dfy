/** Patches and deletes of remote objects: an authority read, then a mutation
    that only the verified version accepts. */
module GuardedMutation {
  import opened Wrappers
  import opened Json
  import JsonPatch
  import opened Contract
  import opened ApiServer
  import opened OwnershipCleanup

  /** The precondition that verification returns names the object that was read. */
  predicate Names(precondition: Precondition, doc: Value) {
    Uid(doc) == Some(precondition.uid) && Version(doc) == Some(precondition.resourceVersion)
  }

  /** A patch whose evaluation equals another's has the same result. */
  lemma SameEvaluation(s: State, key: Key, a: seq<JsonPatch.Entry>, b: seq<JsonPatch.Entry>)
    requires WellFormed(s) && key in s.objects
    ensures JsonPatch.Evaluate(s.objects[key], a) == JsonPatch.Evaluate(s.objects[key], b) ==>
        PatchResult(s, key, a) == PatchResult(s, key, b)
    ensures JsonPatch.Evaluate(s.objects[key], a) == None ==> PatchResult(s, key, a).Failure?
  {
  }

  lemma VerifiedStillThere(seen: State, now: State, key: Key, precondition: Precondition)
    requires WellFormed(seen) && WellFormed(now) && Evolves(seen, now)
    requires key in seen.objects && Names(precondition, seen.objects[key])
    ensures At(now, key) == At(seen, key) <==> key in now.objects && Names(precondition, now.objects[key])
  {
    if key in now.objects && Version(now.objects[key]) == Version(seen.objects[key]) {
      SameVersionSameObject(seen, now, key, seen.objects[key]);
    }
  }

  /** Under any interference between the read and the mutation, a guarded patch either is refused or
      does, to the very object that was verified, exactly what the handler's own entries do. */
  lemma GuardedPatchHitsVerified(seen: State, now: State, key: Key, precondition: Precondition,
      entries: seq<JsonPatch.Entry>)
    requires WellFormed(seen) && WellFormed(now) && Evolves(seen, now)
    requires key in seen.objects && Names(precondition, seen.objects[key])
    ensures var guarded := PatchResult(now, key, Guards(precondition) + entries);
            if At(now, key) == At(seen, key) then guarded == PatchResult(now, key, entries) else guarded.Failure?
  {
    VerifiedStillThere(seen, now, key, precondition);
    if key in now.objects {
      GuardedEvaluation(now.objects[key], precondition, entries);
      SameEvaluation(now, key, Guards(precondition) + entries, entries);
    }
  }

  /** The same for a delete under the verified pair. */
  lemma GuardedDeleteHitsVerified(seen: State, now: State, key: Key, precondition: Precondition)
    requires WellFormed(seen) && WellFormed(now) && Evolves(seen, now)
    requires key in seen.objects && Names(precondition, seen.objects[key])
    ensures var r := DeleteResult(now, key, Some(precondition.uid), Some(precondition.resourceVersion));
            if At(now, key) == At(seen, key) then r == Success(State(now.objects - {key}, now.clock)) else r.Failure?
  {
    VerifiedStillThere(seen, now, key, precondition);
  }
}
