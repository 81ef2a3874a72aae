/** The managed remote apply as a state machine: read or create, verify, apply
    under the verified version, clean up. Between any two steps other writers
    may do anything, and the process may crash and start over. */
module RemoteApply {
  import opened Wrappers
  import opened Json
  import opened Contract
  import opened ApiServer
  import opened RemoteAuthority
  import opened OwnershipCleanup

  /** One apply operation after its document has been built. */
  datatype Job = Job(key: Key, config: Value, manager: string, force: bool, identity: string, sourceUid: string) {
    function Authority(): Authority {
      Managed(identity, sourceUid)
    }
  }

  /** What the document builder delivers (AcceptedApplyIsPrepared in PlanValidation). */
  predicate Prepared(job: Job) {
    HasMetadata(job.config) && Version(job.config).None? && Proves(job.config, job.Authority())
  }

  /** Where the client is, and what it remembers. */
  datatype Pc =
    | Begin
    | Observed(seen: Value)
    | Absent
    | Posted(created: Value)
    | Patched(applied: Value, cleanup: bool)
    | Done
    | Failed(error: Error)

  datatype Sys = Sys(server: State, pc: Pc)

  function ApplyVerified(job: Job, server: State, doc: Value, cleanup: bool): (r: Sys)
    requires WellFormed(server)
    ensures WellFormed(r.server)
  {
    match VerifyRemoteObject(doc, job.Authority())
    case Failure(e) => Sys(server, Failed(e))
    case Success(precondition) =>
      match InjectPrecondition(job.config, precondition.resourceVersion)
      case Failure(e) => Sys(server, Failed(e))
      case Success(guarded) =>
        ApplyEvolves(server, job.key, job.manager, job.force, guarded);
        match ApplyResult(server, job.key, job.manager, job.force, guarded)
        case Failure(e) => Sys(server, Failed(Kubernetes(e)))
        case Success((next, applied)) => Sys(next, Patched(applied, cleanup))
  }

  function CreateStep(job: Job, server: State): (r: Sys)
    requires WellFormed(server)
    ensures WellFormed(r.server)
  {
    CreateEvolves(server, job.key, CREATE_MANAGER, "Update", job.config);
    match CreateResult(server, job.key, CREATE_MANAGER, "Update", job.config)
    case Failure(e) => Sys(server, Failed(Kubernetes(e)))
    case Success((next, created)) => Sys(next, Posted(created))
  }

  function CleanupStep(job: Job, server: State, applied: Value): (r: Sys)
    requires WellFormed(server)
    ensures WellFormed(r.server)
  {
    match CleanupPatch(applied)
    case Failure(e) => Sys(server, Failed(e))
    case Success(None) => Sys(server, Done)
    case Success(Some(entries)) =>
      PatchEvolves(server, job.key, entries);
      match PatchResult(server, job.key, entries)
      case Failure(e) => Sys(server, Failed(Kubernetes(e)))
      case Success((next, _)) => Sys(next, Done)
  }

  /** The client's next call and what it does with the answer. */
  function ClientStep(job: Job, sys: Sys): (r: Sys)
    requires WellFormed(sys.server)
    ensures WellFormed(r.server)
  {
    match sys.pc
    case Begin =>
      if job.key in sys.server.objects then Sys(sys.server, Observed(sys.server.objects[job.key]))
          else Sys(sys.server, Absent)
    case Observed(seen) => ApplyVerified(job, sys.server, seen, HasCreateOwnership(seen))
    case Absent => CreateStep(job, sys.server)
    case Posted(created) => ApplyVerified(job, sys.server, created, true)
    case Patched(applied, cleanup) =>
      if cleanup then CleanupStep(job, sys.server, applied) else Sys(sys.server, Done)
    case _ => sys
  }

  datatype Actor = Client | Others | Restart

  /** A restart forgets everything but what the server holds. A lost response is a client step
      followed by a restart, a lost request a restart alone. */
  predicate Step(job: Job, a: Sys, actor: Actor, b: Sys)
    requires WellFormed(a.server)
  {
    match actor
    case Client => b == ClientStep(job, a)
    case Others => b.pc == a.pc && Evolves(a.server, b.server)
    case Restart => b == Sys(a.server, Begin)
  }

  ghost predicate IsRun(job: Job, trace: seq<Sys>, actors: seq<Actor>) {
    && |trace| == |actors| + 1
    && trace[0].pc == Begin
    && (forall i :: 0 <= i < |trace| ==> WellFormed(trace[i].server))
    && forall i :: 0 <= i < |actors| ==> Step(job, trace[i], actors[i], trace[i + 1])
  }

  // ----- Safety -----

  /** The server never issued the version of doc to anything else. */
  predicate Known(server: State, key: Key, doc: Value) {
    && HasMetadata(doc)
    && Issued(Uid(doc), 0, server.clock) && Issued(Version(doc), 0, server.clock)
    && (key in server.objects && Version(server.objects[key]) == Version(doc) ==> server.objects[key] == doc)
  }

  function Remembered(pc: Pc): Option<Value> {
    match pc
    case Observed(doc) => Some(doc)
    case Posted(doc) => Some(doc)
    case Patched(doc, _) => Some(doc)
    case _ => None
  }

  predicate Inv(job: Job, sys: Sys) {
    && WellFormed(sys.server)
    && (Remembered(sys.pc).Some? ==> Known(sys.server, job.key, Remembered(sys.pc).value))
    && (sys.pc.Posted? || sys.pc.Patched? ==> Proves(Remembered(sys.pc).value, job.Authority()))
  }

  /** What one client step may do to the server: nothing; or create the object where there was none; or
      replace the very object the client remembers, which proves the management identity, keeping its uid. */
  ghost predicate Guarded(job: Job, a: Sys, b: Sys) {
    || b.server == a.server
    || (&& job.key in b.server.objects
        && (forall key :: key != job.key ==> At(b.server, key) == At(a.server, key))
        && (if job.key in a.server.objects then
              && Remembered(a.pc) == Some(a.server.objects[job.key])
              && Proves(a.server.objects[job.key], job.Authority())
              && Uid(b.server.objects[job.key]) == Uid(a.server.objects[job.key])
            else
              && a.pc.Absent?
              && ManagedFields(b.server.objects[job.key])
                  == [ManagedEntry(CREATE_MANAGER, "Update", Intent(job.config))]))
  }

  /** An annotation is one leaf of the document. */
  lemma AnnotationIsLeaf(doc: Value, key: string, value: string)
    requires HasMetadata(doc)
    ensures var p := ["metadata", "annotations", key];
            Annotation(doc, key) == Some(value) <==> p in LeafPaths(doc) && LeafAt(doc, p) == String(value)
  {
    var p := ["metadata", "annotations", key];
    var meta := doc.entries["metadata"];
    assert p[1..] == ["annotations", key] && p[1..][1..] == [key] && [key][1..] == [];
    LeafStep(doc, p);
    LeafStep(meta, ["annotations", key]);
    if "annotations" in meta.entries {
      LeafStep(meta.entries["annotations"], [key]);
    }
  }

  /** The leaves of the submitted intent are leaves of the submitted document, with the same values. */
  lemma IntentLeaf(doc: Value, p: Path)
    requires HasMetadata(doc) && p in LeafPaths(Intent(doc))
    ensures SameLeaf(doc, Intent(doc), p)
    ensures p[0] == "metadata" ==> |p| > 1 && p[1] !in SYSTEM_METADATA
  {
    var intent := Intent(doc);
    assert intent.Object? && p != [];
    LeafStep(doc, p);
    LeafStep(intent, p);
    if p[0] == "metadata" {
      assert p[1..] != [];
      LeafStep(doc.entries["metadata"], p[1..]);
      LeafStep(intent.entries["metadata"], p[1..]);
    }
  }

  /** System metadata is never part of an intent, so stamping it disturbs no intended leaf. */
  lemma SystemMetadataApart(doc: Value, key: string, v: Value, intent: Value, p: Path)
    requires HasMetadata(doc) && key in SYSTEM_METADATA && |p| > 0
    requires p[0] == "metadata" ==> |p| > 1 && p[1] !in SYSTEM_METADATA
    ensures SameLeaf(WithMeta(doc, key, v), intent, p) <==> SameLeaf(doc, intent, p)
  {
    var changed := WithMeta(doc, key, v);
    LeafStep(doc, p);
    LeafStep(changed, p);
    if p[0] == "metadata" {
      LeafStep(doc.entries["metadata"], p[1..]);
      LeafStep(changed.entries["metadata"], p[1..]);
    }
  }

  /** Every intended leaf of the job is in the document with the intended value. */
  ghost predicate Carries(doc: Value, job: Job) {
    forall p :: p in LeafPaths(Intent(job.config)) ==> SameLeaf(doc, Intent(job.config), p)
  }

  lemma CarriesIgnoresSystemMetadata(doc: Value, key: string, v: Value, job: Job)
    requires HasMetadata(doc) && HasMetadata(job.config) && key in SYSTEM_METADATA
    ensures Carries(WithMeta(doc, key, v), job) <==> Carries(doc, job)
  {
    forall p | p in LeafPaths(Intent(job.config))
      ensures SameLeaf(WithMeta(doc, key, v), Intent(job.config), p) <==> SameLeaf(doc, Intent(job.config), p)
    {
      IntentLeaf(job.config, p);
      SystemMetadataApart(doc, key, v, Intent(job.config), p);
    }
  }

  lemma StampCarries(doc: Value, uid: string, version: string, job: Job)
    requires HasMetadata(doc) && HasMetadata(job.config)
    ensures Carries(Stamp(doc, uid, version), job) <==> Carries(doc, job)
  {
    CarriesIgnoresSystemMetadata(doc, "uid", String(uid), job);
    CarriesIgnoresSystemMetadata(WithMeta(doc, "uid", String(uid)), "resourceVersion", String(version), job);
  }

  lemma CarryingProves(doc: Value, job: Job)
    requires HasMetadata(doc) && Prepared(job) && Carries(doc, job)
    ensures Proves(doc, job.Authority())
  {
    var config := job.config;
    forall key, value | Annotation(config, key) == Some(value) ensures Annotation(doc, key) == Some(value) {
      var intent := Intent(config);
      assert Annotation(intent, key) == Annotation(config, key) by {
        assert Meta(intent) == Meta(config) - SYSTEM_METADATA;
      }
      AnnotationIsLeaf(intent, key, value);
      assert SameLeaf(doc, intent, ["metadata", "annotations", key]);
      AnnotationIsLeaf(doc, key, value);
    }
  }

  lemma CreatedCarries(job: Job, manager: string, operation: string, token: string)
    requires HasMetadata(job.config)
    ensures Carries(Created(job.config, manager, operation, token), job)
  {
    var config := job.config;
    forall p | p in LeafPaths(Intent(config)) ensures SameLeaf(config, Intent(config), p) {
      IntentLeaf(config, p);
    }
    var managed := Array([ManagedEntry(manager, operation, Intent(config))]);
    CarriesIgnoresSystemMetadata(config, "managedFields", managed, job);
    StampCarries(WithMeta(config, "managedFields", managed), token, token, job);
  }

  lemma AppliedCarries(live: Value, job: Job)
    requires HasMetadata(live) && Uid(live).Some? && Version(live).Some? && HasMetadata(job.config)
    ensures Carries(Applied(live, job.manager, Intent(job.config)), job)
  {
    var intent := Intent(job.config);
    var merged := Merged(live, job.manager, intent);
    forall p | p in LeafPaths(intent) ensures SameLeaf(merged, intent, p) {
      MergeKeepsConfig(Drop(live, AbandonedPaths(live, job.manager, intent)), intent, p);
    }
    var entries := Array(EntriesAfter(live, job.manager, intent));
    CarriesIgnoresSystemMetadata(merged, "managedFields", entries, job);
    StampCarries(WithMeta(merged, "managedFields", entries), Uid(live).value, Version(live).value, job);
  }

  // ----- One client step -----

  /** The apply under a verified version: it commits only onto the very object that was verified. */
  lemma ApplyVerifiedGuarded(job: Job, server: State, doc: Value, cleanup: bool)
    requires Prepared(job) && WellFormed(server) && Known(server, job.key, doc)
    ensures var next := ApplyVerified(job, server, doc, cleanup);
            match next.pc
            case Failed(_) => next.server == server
            case Patched(applied, c) =>
              && c == cleanup
              && At(server, job.key) == Some(doc) && Proves(doc, job.Authority())
              && (job.force || ConflictPaths(doc, job.manager, Intent(job.config)) == {})
              && (next.server, applied) == Store(server, job.key, Applied(doc, job.manager, Intent(job.config)))
            case _ => false
  {
  }

  /** An object made by this job's apply carries the intent, proves the identity and keeps the uid. */
  lemma StoredApply(job: Job, server: State, doc: Value)
    requires Prepared(job) && WellFormed(server) && At(server, job.key) == Some(doc)
    ensures var (next, applied) := Store(server, job.key, Applied(doc, job.manager, Intent(job.config)));
            && WellFormed(next) && Evolves(server, next)
            && (forall key :: key != job.key ==> At(next, key) == At(server, key))
            && At(next, job.key) == Some(applied) && HasMetadata(applied)
            && Uid(applied) == Uid(doc) && Carries(applied, job) && Proves(applied, job.Authority())
            && ManagedFields(applied) == EntriesAfter(doc, job.manager, Intent(job.config))
  {
    var made := Applied(doc, job.manager, Intent(job.config));
    AppliedCarries(doc, job);
    StoreEvolves(server, job.key, made);
    StoredDocument(server, job.key, made);
    StampCarries(made, Uid(made).value, Token(server.clock), job);
    CarryingProves(Store(server, job.key, made).1, job);
  }

  lemma CreateGuarded(job: Job, server: State)
    requires Prepared(job) && WellFormed(server)
    ensures var next := CreateStep(job, server);
            if job.key in server.objects then next == Sys(server, Failed(Kubernetes(AlreadyExists)))
            else
              && next.pc.Posted? && WellFormed(next.server) && Evolves(server, next.server)
              && (forall key :: key != job.key ==> At(next.server, key) == At(server, key))
              && At(next.server, job.key) == Some(next.pc.created)
              && next.pc.created == Created(job.config, CREATE_MANAGER, "Update", Token(server.clock))
              && Carries(next.pc.created, job) && Proves(next.pc.created, job.Authority())
  {
    CreateEvolves(server, job.key, CREATE_MANAGER, "Update", job.config);
    CreatedCarries(job, CREATE_MANAGER, "Update", Token(server.clock));
  }

  lemma CleanupPatchResult(server: State, key: Key, applied: Value)
    requires WellFormed(server) && Known(server, key, applied) && HasCreateOwnership(applied)
    ensures CleanupPatch(applied).Success? && CleanupPatch(applied).value.Some?
    ensures var r := PatchResult(server, key, CleanupPatch(applied).value.value);
            if At(server, key) == Some(applied) then r == Success(Store(server, key, CleanedUp(applied)))
                else r.Failure?
  {
    CleanupEffect(applied, applied);
    if key in server.objects {
      CleanupEffect(server.objects[key], applied);
    }
  }

  /** The clean-up either leaves the server alone or removes exactly the temporary entries from the
      object the apply returned; it fails exactly when there is something to remove and that object is
      no longer the current one. */
  predicate CleanupOutcome(job: Job, server: State, applied: Value, next: Sys)
    requires HasMetadata(applied) && Uid(applied).Some?
  {
    if !HasCreateOwnership(applied) then next == Sys(server, Done)
    else if At(server, job.key) == Some(applied) then next == Sys(Store(server, job.key, CleanedUp(applied)).0, Done)
    else next.pc.Failed? && next.server == server
  }

  lemma CleanupGuarded(job: Job, server: State, applied: Value)
    requires WellFormed(server) && Known(server, job.key, applied)
    ensures CleanupOutcome(job, server, applied, CleanupStep(job, server, applied))
  {
    CleanupPatchShape(applied);
    if HasCreateOwnership(applied) {
      CleanupPatchResult(server, job.key, applied);
    }
  }

  lemma StoredCleanup(job: Job, server: State, applied: Value)
    requires WellFormed(server) && At(server, job.key) == Some(applied)
    ensures var (next, cleaned) := Store(server, job.key, CleanedUp(applied));
            && WellFormed(next) && Evolves(server, next)
            && (forall key :: key != job.key ==> At(next, key) == At(server, key))
            && At(next, job.key) == Some(cleaned) && HasMetadata(cleaned)
            && Uid(cleaned) == Uid(applied)
            && (Proves(applied, job.Authority()) ==> Proves(cleaned, job.Authority()))
            && ManagedFields(cleaned) == WithoutCreateEntries(ManagedFields(applied))
  {
    StoreEvolves(server, job.key, CleanedUp(applied));
    StoredDocument(server, job.key, CleanedUp(applied));
  }

  lemma StoredCleanupCarries(job: Job, server: State, applied: Value)
    requires WellFormed(server) && At(server, job.key) == Some(applied)
    requires HasMetadata(job.config)
    ensures var cleaned := Store(server, job.key, CleanedUp(applied)).1;
            forall p :: p in LeafPaths(Intent(job.config)) ==>
              (SameLeaf(cleaned, Intent(job.config), p) <==> SameLeaf(applied, Intent(job.config), p))
  {
    var made := CleanedUp(applied);
    var managed := Array(WithoutCreateEntries(ManagedFields(applied)));
    var intent := Intent(job.config);
    forall p | p in LeafPaths(intent)
      ensures SameLeaf(Store(server, job.key, made).1, intent, p) <==> SameLeaf(applied, intent, p)
    {
      IntentLeaf(job.config, p);
      SystemMetadataApart(applied, "managedFields", managed, intent, p);
      SystemMetadataApart(made, "uid", String(Uid(made).value), intent, p);
      SystemMetadataApart(WithMeta(made, "uid", String(Uid(made).value)), "resourceVersion",
          String(Token(server.clock)), intent, p);
    }
  }

  ghost predicate SafeStep(job: Job, a: Sys, b: Sys) {
    Guarded(job, a, b) && Inv(job, b) && Evolves(a.server, b.server)
  }

  /** One object is replaced by another with its uid; nothing else changes. */
  ghost predicate Replaces(key: Key, server: State, doc: Value, next: State, replacement: Value) {
    && WellFormed(next) && Evolves(server, next)
    && At(server, key) == Some(doc) && At(next, key) == Some(replacement) && Uid(replacement) == Uid(doc)
    && forall other :: other != key ==> At(next, other) == At(server, other)
  }

  lemma ReplacingIsSafe(job: Job, pc: Pc, server: State, doc: Value, next: State, replacement: Value, pc': Pc)
    requires Remembered(pc) == Some(doc) && Proves(doc, job.Authority())
    requires Replaces(job.key, server, doc, next, replacement)
    requires Remembered(pc') == None || (Remembered(pc') == Some(replacement) && Proves(replacement, job.Authority()))
    ensures SafeStep(job, Sys(server, pc), Sys(next, pc'))
  {
  }

  lemma ApplyReplaces(job: Job, server: State, doc: Value)
    requires Prepared(job) && WellFormed(server) && At(server, job.key) == Some(doc)
    ensures var (next, applied) := Store(server, job.key, Applied(doc, job.manager, Intent(job.config)));
            Replaces(job.key, server, doc, next, applied) && Proves(applied, job.Authority())
  {
    StoredApply(job, server, doc);
  }

  lemma ApplyStepSafe(job: Job, server: State, pc: Pc, doc: Value, cleanup: bool)
    requires Prepared(job) && Inv(job, Sys(server, pc)) && Remembered(pc) == Some(doc)
    ensures SafeStep(job, Sys(server, pc), ApplyVerified(job, server, doc, cleanup))
  {
    var next := ApplyVerified(job, server, doc, cleanup);
    ApplyVerifiedGuarded(job, server, doc, cleanup);
    if next.pc.Failed? {
      StandingStillIsSafe(job, Sys(server, pc), next);
    } else {
      ApplyReplaces(job, server, doc);
      ReplacingIsSafe(job, pc, server, doc, next.server, next.pc.applied, next.pc);
    }
  }

  lemma CleanupReplaces(job: Job, server: State, applied: Value)
    requires WellFormed(server) && At(server, job.key) == Some(applied) && Proves(applied, job.Authority())
    ensures var (next, cleaned) := Store(server, job.key, CleanedUp(applied));
            Replaces(job.key, server, applied, next, cleaned)
  {
    StoredCleanup(job, server, applied);
  }

  lemma CreateStepSafe(job: Job, server: State)
    requires Prepared(job) && Inv(job, Sys(server, Absent))
    ensures var next := CreateStep(job, server);
            SafeStep(job, Sys(server, Absent), next)
  {
    CreateGuarded(job, server);
  }

  /** A step that leaves the server alone and remembers nothing. */
  lemma StandingStillIsSafe(job: Job, sys: Sys, next: Sys)
    requires Inv(job, sys) && next.server == sys.server && Remembered(next.pc).None?
    ensures SafeStep(job, sys, next)
  {
  }

  lemma CleanupStepSafe(job: Job, server: State, applied: Value, next: Sys)
    requires Inv(job, Sys(server, Patched(applied, true)))
    requires CleanupOutcome(job, server, applied, next)
    ensures SafeStep(job, Sys(server, Patched(applied, true)), next)
  {
    var sys := Sys(server, Patched(applied, true));
    if HasCreateOwnership(applied) && At(server, job.key) == Some(applied) {
      CleanupReplaces(job, server, applied);
      var (stored, cleaned) := Store(server, job.key, CleanedUp(applied));
      ReplacingIsSafe(job, sys.pc, server, applied, stored, cleaned, Done);
    } else {
      StandingStillIsSafe(job, sys, next);
    }
  }

  /** Every client step is guarded, and the client's memory stays sound. */
  lemma ClientStepSafe(job: Job, sys: Sys)
    requires Prepared(job) && Inv(job, sys)
    ensures Guarded(job, sys, ClientStep(job, sys)) && Inv(job, ClientStep(job, sys))
    ensures Evolves(sys.server, ClientStep(job, sys).server)
  {
    var server := sys.server;
    match sys.pc {
      case Observed(doc) => ApplyStepSafe(job, server, sys.pc, doc, HasCreateOwnership(doc));
      case Posted(doc) => ApplyStepSafe(job, server, sys.pc, doc, true);
      case Absent => CreateStepSafe(job, server);
      case Patched(applied, cleanup) =>
        if cleanup {
          CleanupGuarded(job, server, applied);
          CleanupStepSafe(job, server, applied, ClientStep(job, sys));
        } else {
          StandingStillIsSafe(job, sys, Sys(server, Done));
        }
      case _ =>
    }
  }

  lemma OthersKeepInv(job: Job, a: Sys, b: Sys)
    requires Inv(job, a) && b.pc == a.pc && Evolves(a.server, b.server)
    ensures Inv(job, b)
  {
    EvolvesKeepsWellFormed(a.server, b.server);
  }

  lemma {:induction false} RunKeepsInv(job: Job, trace: seq<Sys>, actors: seq<Actor>, i: nat)
    requires Prepared(job) && IsRun(job, trace, actors) && i < |trace|
    ensures Inv(job, trace[i])
  {
    if i > 0 {
      RunKeepsInv(job, trace, actors, i - 1);
      assert Step(job, trace[i - 1], actors[i - 1], trace[i - 1 + 1]);
      match actors[i - 1] {
        case Client => ClientStepSafe(job, trace[i - 1]);
        case Others => OthersKeepInv(job, trace[i - 1], trace[i]);
        case Restart =>
      }
    }
  }

  /** Safety of every run, with any interference and any number of restarts: each client step is
      guarded. In particular an object that does not prove this identity and source uid is never
      changed by it, and the object an apply replaces is exactly the one that was verified. */
  lemma EveryWriteIsAuthorised(job: Job, trace: seq<Sys>, actors: seq<Actor>, i: nat)
    requires Prepared(job) && IsRun(job, trace, actors) && i < |actors| && actors[i].Client?
    ensures Guarded(job, trace[i], trace[i + 1])
    ensures job.key in trace[i].server.objects && !Proves(trace[i].server.objects[job.key], job.Authority()) ==>
              trace[i + 1].server == trace[i].server
  {
    RunKeepsInv(job, trace, actors, i);
    assert Step(job, trace[i], actors[i], trace[i + 1]);
    ClientStepSafe(job, trace[i]);
  }

  // ----- The writes of a run -----

  /** The write of one client step, if the server accepted one. */
  function StepCommits(job: Job, a: Sys): seq<Commit>
    requires WellFormed(a.server)
  {
    var b := ClientStep(job, a);
    var sends := a.pc.Absent? || a.pc.Observed? || a.pc.Posted?
        || (a.pc.Patched? && a.pc.cleanup && HasCreateOwnership(a.pc.applied));
    if sends && !b.pc.Failed? then [Commit(job.key, At(a.server, job.key), At(b.server, job.key))] else []
  }

  /** The writes of all client steps, in order. */
  function RunCommits(job: Job, trace: seq<Sys>, actors: seq<Actor>): seq<Commit>
    requires |trace| == |actors| + 1 && forall i :: 0 <= i < |trace| ==> WellFormed(trace[i].server)
    decreases |actors|
  {
    if actors == [] then []
    else
      var n := |actors| - 1;
      RunCommits(job, trace[..n + 1], actors[..n]) + (if actors[n].Client? then StepCommits(job, trace[n]) else [])
  }

  lemma RunCommitsMore(job: Job, trace: seq<Sys>, actors: seq<Actor>, actor: Actor, next: Sys)
    requires |trace| == |actors| + 1 && WellFormed(next.server) && forall i :: 0 <= i < |trace| ==>
        WellFormed(trace[i].server)
    ensures RunCommits(job, trace + [next], actors + [actor])
            == RunCommits(job, trace, actors) + (if actor.Client? then StepCommits(job, trace[|actors|]) else [])
  {
    var longer, acts := trace + [next], actors + [actor];
    assert longer[..|actors| + 1] == trace && acts[..|actors|] == actors;
    assert longer[|actors|] == trace[|actors|];
  }

  /** A write the authority allows: it creates the object carrying the management identity, or replaces
      (or deletes) a version that proved what the authority claims. No authority, no claim. */
  predicate Authorised(authority: Option<Authority>, key: Key, c: Commit) {
    && c.key == key
    && (authority.Some? ==>
          if c.before.Some? then Proves(c.before.value, authority.value)
          else c.after.Some? && authority.value.Managed? && Proves(c.after.value, authority.value))
  }

  ghost predicate AllAuthorised(job: Job, made: seq<Commit>) {
    forall c :: c in made ==> Authorised(Some(job.Authority()), job.key, c)
  }

  /** A step that writes nothing leaves the server alone, and what it writes is authorised. */
  lemma StepCommitsAuthorised(job: Job, a: Sys)
    requires Prepared(job) && Inv(job, a)
    ensures AllAuthorised(job, StepCommits(job, a))
    ensures StepCommits(job, a) == [] ==> ClientStep(job, a).server == a.server
  {
    match a.pc {
      case Observed(doc) => ApplyVerifiedGuarded(job, a.server, doc, HasCreateOwnership(doc));
      case Posted(doc) => ApplyVerifiedGuarded(job, a.server, doc, true);
      case Absent => CreateGuarded(job, a.server);
      case Patched(applied, _) => CleanupGuarded(job, a.server, applied);
      case _ =>
    }
  }

  /** Every write of a run is authorised. */
  lemma {:induction false} RunCommitsAuthorised(job: Job, trace: seq<Sys>, actors: seq<Actor>)
    requires Prepared(job) && IsRun(job, trace, actors)
    ensures AllAuthorised(job, RunCommits(job, trace, actors))
    decreases |actors|
  {
    if actors != [] {
      var n := |actors| - 1;
      RunPrefix(job, trace, actors);
      RunCommitsAuthorised(job, trace[..n + 1], actors[..n]);
      RunKeepsInv(job, trace, actors, n);
      StepCommitsAuthorised(job, trace[n]);
    }
  }

  lemma RunPrefix(job: Job, trace: seq<Sys>, actors: seq<Actor>)
    requires IsRun(job, trace, actors) && actors != []
    ensures IsRun(job, trace[..|actors|], actors[..|actors| - 1])
  {
    var shorter, acts := trace[..|actors|], actors[..|actors| - 1];
    forall i | 0 <= i < |acts| ensures Step(job, shorter[i], acts[i], shorter[i + 1]) {
      assert Step(job, trace[i], actors[i], trace[i + 1]);
    }
  }
}
