/** Crash recovery of the managed remote apply: when a rerun completes, what it
    leaves behind, and that crashes never take the possibility away. */
module RemoteRecovery {
  import opened Wrappers
  import opened Json
  import opened ApiServer
  import opened RemoteAuthority
  import opened OwnershipCleanup
  import opened RemoteApply

  /** What a caller can check before a run: nothing there, or an object of this identity in which no
      other manager owns a field with a different value. */
  predicate Ready(job: Job, server: State) {
    job.key in server.objects ==>
      var live := server.objects[job.key];
      Proves(live, job.Authority()) && (job.force || ConflictPaths(live, job.manager, Intent(job.config)) == {})
  }

  /** n calls of the client, nobody else acting. */
  function RunAlone(job: Job, sys: Sys, n: nat): Sys
    requires WellFormed(sys.server)
    decreases n
  {
    if n == 0 then sys else RunAlone(job, ClientStep(job, sys), n - 1)
  }

  /** The end of a successful apply: the object is there, proves the identity, holds every intended
      value, is owned by the durable manager, and no temporary entry is left. */
  ghost predicate Settled(job: Job, server: State) {
    && job.key in server.objects
    && var live := server.objects[job.key];
       && HasMetadata(live)
       && Proves(live, job.Authority())
       && Carries(live, job)
       && ManagedEntry(job.manager, "Apply", Intent(job.config)) in ManagedFields(live)
       && !HasCreateOwnership(live)
  }

  lemma {:induction false} OtherEntriesKeepKinds(entries: seq<Value>, manager: string, taken: set<Path>)
    ensures (exists i :: 0 <= i < |OtherEntries(entries, manager,
        taken)| && IsCreateEntry(OtherEntries(entries, manager, taken)[i]))
            ==> exists i :: 0 <= i < |entries| && IsCreateEntry(entries[i])
  {
    if entries != [] {
      OtherEntriesKeepKinds(entries[1..], manager, taken);
      var rest := OtherEntries(entries[1..], manager, taken);
      if i :| 0 <= i < |rest| && IsCreateEntry(rest[i]) {
        var j :| 0 <= j < |entries[1..]| && IsCreateEntry(entries[1..][j]);
        assert IsCreateEntry(entries[j + 1]);
      }
      assert IsCreateEntry(Relinquish(entries[0], taken)) ==> IsCreateEntry(entries[0]);
    }
  }

  lemma {:induction false} UpdatedEntriesKeepKinds(entries: seq<Value>, manager: string, taken: set<Path>, entry: Value)
    requires !IsCreateEntry(entry) && forall i :: 0 <= i < |entries| ==> !IsCreateEntry(entries[i])
    ensures var after := UpdatedEntries(entries, manager, taken, entry);
            entry in after && forall i :: 0 <= i < |after| ==> !IsCreateEntry(after[i])
  {
    if entries != [] {
      OtherEntriesKeepKinds(entries[1..], manager, taken);
      UpdatedEntriesKeepKinds(entries[1..], manager, taken, entry);
      assert !IsCreateEntry(Relinquish(entries[0], taken));
    }
  }

  lemma {:induction false} UpdatedEntriesHave(entries: seq<Value>, manager: string, taken: set<Path>, entry: Value)
    ensures entry in UpdatedEntries(entries, manager, taken, entry)
  {
    if entries != [] {
      UpdatedEntriesHave(entries[1..], manager, taken, entry);
    }
  }

  lemma EntryRecorded(live: Value, manager: string, intent: Value)
    ensures ManagedEntry(manager, "Apply", intent) in EntriesAfter(live, manager, intent)
  {
    UpdatedEntriesHave(ManagedFields(live), manager, ConflictPaths(live, manager, intent),
        ManagedEntry(manager, "Apply", intent));
  }

  lemma ApplyAddsNoCreateEntry(live: Value, manager: string, intent: Value)
    requires !HasCreateOwnership(live)
    ensures forall i :: 0 <= i < |EntriesAfter(live, manager, intent)| ==>
        !IsCreateEntry(EntriesAfter(live, manager, intent)[i])
  {
    UpdatedEntriesKeepKinds(ManagedFields(live), manager, ConflictPaths(live, manager, intent),
        ManagedEntry(manager, "Apply", intent));
  }

  /** A durable apply entry survives the clean-up. */
  lemma CleanupKeepsApplyEntry(entries: seq<Value>, manager: string, intent: Value)
    requires ManagedEntry(manager, "Apply", intent) in entries
    ensures ManagedEntry(manager, "Apply", intent) in WithoutCreateEntries(entries)
  {
    FilteredHasNoCreateEntry(entries);
  }

  lemma CarryingHasNoConflict(doc: Value, job: Job)
    requires Carries(doc, job)
    ensures ConflictPaths(doc, job.manager, Intent(job.config)) == {}
  {
  }

  /** The object an apply left, after the temporary entries are gone. */
  lemma SettledByCleanup(job: Job, server: State, applied: Value)
    requires Prepared(job) && WellFormed(server) && At(server, job.key) == Some(applied)
    requires Proves(applied, job.Authority()) && Carries(applied, job)
    requires ManagedEntry(job.manager, "Apply", Intent(job.config)) in ManagedFields(applied)
    ensures Settled(job, Store(server, job.key, CleanedUp(applied)).0)
  {
    StoredCleanup(job, server, applied);
    StoredCleanupCarries(job, server, applied);
    CleanupKeepsApplyEntry(ManagedFields(applied), job.manager, Intent(job.config));
    FilteredHasNoCreateEntry(ManagedFields(applied));
  }

  lemma PatchedStep(job: Job, server: State, applied: Value, cleanup: bool)
    requires WellFormed(server)
    ensures ClientStep(job, Sys(server, Patched(applied, cleanup)))
            == if cleanup then CleanupStep(job, server, applied) else Sys(server, Done)
  {
  }

  /** From the point where the apply has committed, the run ends settled. */
  lemma FinishFromPatched(job: Job, server: State, applied: Value, cleanup: bool)
    requires Prepared(job) && Inv(job, Sys(server, Patched(applied, cleanup)))
    requires At(server, job.key) == Some(applied) && Carries(applied, job)
    requires ManagedEntry(job.manager, "Apply", Intent(job.config)) in ManagedFields(applied)
    requires !cleanup ==> !HasCreateOwnership(applied)
    ensures var next := ClientStep(job, Sys(server, Patched(applied, cleanup)));
            next.pc.Done? && Settled(job, next.server)
  {
    PatchedStep(job, server, applied, cleanup);
    CleanupGuarded(job, server, applied);
    SettledByCleanup(job, server, applied);
  }

  /** The apply on a verified, conflict-free object commits and leads to FinishFromPatched. */
  lemma ApplyFromVerified(job: Job, server: State, doc: Value, cleanup: bool)
    requires Prepared(job) && WellFormed(server) && At(server, job.key) == Some(doc)
    requires !cleanup ==> !HasCreateOwnership(doc)
    ensures var next := ApplyVerified(job, server, doc, cleanup);
            if Ready(job, server) then
              && next.pc.Patched? && Inv(job, next)
              && ClientStep(job, next).pc.Done? && Settled(job, ClientStep(job, next).server)
            else next.pc.Failed? && next.server == server
  {
    ApplyVerifiedGuarded(job, server, doc, cleanup);
    var next := ApplyVerified(job, server, doc, cleanup);
    assert next.pc.Failed? <==> !Ready(job, server);
    if Ready(job, server) {
      StoredApply(job, server, doc);
      EntryRecorded(doc, job.manager, Intent(job.config));
      if !cleanup {
        ApplyAddsNoCreateEntry(doc, job.manager, Intent(job.config));
      }
      FinishFromPatched(job, next.server, next.pc.applied, cleanup);
    }
  }

  ghost predicate Completes(job: Job, server: State)
    requires Prepared(job) && WellFormed(server)
  {
    RunAlone(job, Sys(server, Begin), 4).pc.Done?
  }

  lemma TwoSteps(job: Job, a: Sys, b: Sys, c: Sys, n: nat)
    requires WellFormed(a.server) && b == ClientStep(job, a) && c == ClientStep(job, b)
    ensures RunAlone(job, a, n + 2) == RunAlone(job, c, n)
  {
    assert RunAlone(job, a, n + 2) == RunAlone(job, b, n + 1);
  }

  /** The last two calls: apply to a verified object, then clean up. */
  lemma RunFromVerified(job: Job, sys: Sys, doc: Value, cleanup: bool)
    requires Prepared(job) && WellFormed(sys.server) && At(sys.server, job.key) == Some(doc)
    requires !cleanup ==> !HasCreateOwnership(doc)
    requires ClientStep(job, sys) == ApplyVerified(job, sys.server, doc, cleanup)
    ensures var end := RunAlone(job, sys, 2);
            if Ready(job, sys.server) then end.pc.Done? && Settled(job, end.server)
                else end.pc.Failed? && end.server == sys.server
  {
    var next := ApplyVerified(job, sys.server, doc, cleanup);
    ApplyFromVerified(job, sys.server, doc, cleanup);
    TwoSteps(job, sys, next, ClientStep(job, next), 0);
  }

  lemma RunOnLiveObject(job: Job, server: State)
    requires Prepared(job) && WellFormed(server) && job.key in server.objects
    ensures var end := RunAlone(job, Sys(server, Begin), 4);
            if Ready(job, server) then end.pc.Done? && Settled(job, end.server)
                else end.pc.Failed? && end.server == server
  {
    var doc := server.objects[job.key];
    var first := Sys(server, Observed(doc));
    RunFromVerified(job, first, doc, HasCreateOwnership(doc));
    StaysEnded(job, first, 2);
    FirstStep(job, Sys(server, Begin), first, 3);
  }

  lemma FirstStep(job: Job, a: Sys, b: Sys, n: nat)
    requires WellFormed(a.server) && b == ClientStep(job, a)
    ensures RunAlone(job, a, n + 1) == RunAlone(job, b, n)
  {
  }

  lemma {:induction false} StaysEnded(job: Job, sys: Sys, n: nat)
    requires WellFormed(sys.server)
    requires RunAlone(job, sys, n).pc.Done? || RunAlone(job, sys, n).pc.Failed?
    ensures RunAlone(job, sys, n + 1) == RunAlone(job, sys, n)
    decreases n
  {
    if n > 0 {
      StaysEnded(job, ClientStep(job, sys), n - 1);
    } else {
      assert RunAlone(job, sys, 1) == RunAlone(job, ClientStep(job, sys), 0);
    }
  }

  lemma RunOnAbsentObject(job: Job, server: State)
    requires Prepared(job) && WellFormed(server) && job.key !in server.objects
    ensures var end := RunAlone(job, Sys(server, Begin), 4);
            end.pc.Done? && Settled(job, end.server)
  {
    var posted := CreateStep(job, server);
    CreateGuarded(job, server);
    RunFromPosted(job, posted);
    TwoSteps(job, Sys(server, Begin), Sys(server, Absent), posted, 2);
  }

  lemma PostedStep(job: Job, server: State, doc: Value)
    requires WellFormed(server)
    ensures ClientStep(job, Sys(server, Posted(doc))) == ApplyVerified(job, server, doc, true)
  {
  }

  lemma RunFromPosted(job: Job, posted: Sys)
    requires Prepared(job) && WellFormed(posted.server) && posted.pc.Posted?
    requires At(posted.server, job.key) == Some(posted.pc.created)
    requires Carries(posted.pc.created, job) && Proves(posted.pc.created, job.Authority())
    ensures var end := RunAlone(job, posted, 2);
            end.pc.Done? && Settled(job, end.server)
  {
    CarryingHasNoConflict(posted.pc.created, job);
    PostedStep(job, posted.server, posted.pc.created);
    RunFromVerified(job, posted, posted.pc.created, true);
  }

  /** An uninterrupted run (at most four calls) completes if and only if the server was ready; a
      completed run leaves the object settled, any other leaves the server as it was. */
  lemma CompletesIffReady(job: Job, server: State)
    requires Prepared(job) && WellFormed(server)
    ensures Completes(job, server) <==> Ready(job, server)
    ensures var end := RunAlone(job, Sys(server, Begin), 4).server;
            if Ready(job, server) then Settled(job, end) else end == server
  {
    if job.key in server.objects {
      RunOnLiveObject(job, server);
    } else {
      RunOnAbsentObject(job, server);
    }
  }

  // ----- Crashes -----

  lemma CleanupAddsNoConflict(applied: Value, cleaned: Value, job: Job)
    requires ManagedFields(cleaned) == WithoutCreateEntries(ManagedFields(applied))
    requires forall p :: p in LeafPaths(Intent(job.config)) ==>
               (SameLeaf(cleaned, Intent(job.config), p) <==> SameLeaf(applied, Intent(job.config), p))
    ensures ConflictPaths(cleaned, job.manager, Intent(job.config)) <= ConflictPaths(applied, job.manager,
        Intent(job.config))
  {
    forall p | OwnedByOther(ManagedFields(cleaned), job.manager, p)
        ensures OwnedByOther(ManagedFields(applied), job.manager, p) {
      FewerEntriesOwnLess(ManagedFields(applied), job.manager, p);
    }
  }

  lemma FewerEntriesOwnLess(before: seq<Value>, manager: string, p: Path)
    requires OwnedByOther(WithoutCreateEntries(before), manager, p)
    ensures OwnedByOther(before, manager, p)
  {
    FilteredHasNoCreateEntry(before);
    var after := WithoutCreateEntries(before);
    var i :| 0 <= i < |after| && !IsEntryOf(after[i], manager, "Apply") && p in OwnedPaths(after[i]);
    assert after[i] in before;
  }

  /** No client step takes readiness away, wherever a crash then cuts the run. */
  lemma ClientStepKeepsReady(job: Job, sys: Sys)
    requires Prepared(job) && Inv(job, sys) && Ready(job, sys.server)
    ensures Ready(job, ClientStep(job, sys).server)
  {
    var server := sys.server;
    match sys.pc {
      case Absent =>
        CreateGuarded(job, server);
        if job.key !in server.objects {
          CarryingHasNoConflict(CreateStep(job, server).pc.created, job);
        }
      case Observed(doc) => ApplyKeepsReady(job, server, doc, HasCreateOwnership(doc));
      case Posted(doc) => ApplyKeepsReady(job, server, doc, true);
      case Patched(applied, cleanup) =>
        if cleanup {
          CleanupGuarded(job, server, applied);
          if At(server, job.key) == Some(applied) && HasCreateOwnership(applied) {
            StoredCleanup(job, server, applied);
            StoredCleanupCarries(job, server, applied);
            CleanupAddsNoConflict(applied, Store(server, job.key, CleanedUp(applied)).1, job);
          }
        }
      case _ =>
    }
  }

  lemma ApplyKeepsReady(job: Job, server: State, doc: Value, cleanup: bool)
    requires Prepared(job) && WellFormed(server) && Known(server, job.key, doc) && Ready(job, server)
    ensures Ready(job, ApplyVerified(job, server, doc, cleanup).server)
  {
    ApplyVerifiedGuarded(job, server, doc, cleanup);
    if At(server, job.key) == Some(doc) {
      StoredApply(job, server, doc);
      CarryingHasNoConflict(Store(server, job.key, Applied(doc, job.manager, Intent(job.config))).1, job);
    }
  }

  lemma {:induction false} QuietRunStaysReady(job: Job, trace: seq<Sys>, actors: seq<Actor>, i: nat)
    requires Prepared(job) && IsRun(job, trace, actors) && i < |trace|
    requires forall k :: 0 <= k < |actors| ==> !actors[k].Others?
    requires Ready(job, trace[0].server)
    ensures Ready(job, trace[i].server)
  {
    if i > 0 {
      QuietRunStaysReady(job, trace, actors, i - 1);
      RunKeepsInv(job, trace, actors, i - 1);
      assert Step(job, trace[i - 1], actors[i - 1], trace[i - 1 + 1]);
      if actors[i - 1].Client? {
        ClientStepKeepsReady(job, trace[i - 1]);
      }
    }
  }

  /** Recovery: after any number of runs of the same job, each cut anywhere, one uninterrupted rerun
      completes and leaves the object settled. */
  lemma CrashedRunsRecover(job: Job, trace: seq<Sys>, actors: seq<Actor>)
    requires Prepared(job) && IsRun(job, trace, actors)
    requires forall k :: 0 <= k < |actors| ==> !actors[k].Others?
    requires Ready(job, trace[0].server)
    ensures var end := RunAlone(job, Sys(trace[|actors|].server, Begin), 4);
            end.pc.Done? && Settled(job, end.server)
  {
    RunKeepsInv(job, trace, actors, |actors|);
    QuietRunStaysReady(job, trace, actors, |actors|);
    CompletesIffReady(job, trace[|actors|].server);
  }

  /** Two intents give every common field the same value. */
  ghost predicate Agree(a: Value, b: Value) {
    forall p :: p in LeafPaths(a) && p in LeafPaths(b) ==> LeafAt(a, p) == LeafAt(b, p)
  }

  /** On an object that only the create manager owns, an apply conflicts exactly where it disagrees
      with the created values. */
  lemma ConflictsWithCreate(crashed: Job, job: Job, doc: Value)
    requires Carries(doc, crashed)
    requires ManagedFields(doc) == [ManagedEntry(CREATE_MANAGER, "Update", Intent(crashed.config))]
    ensures ConflictPaths(doc, job.manager, Intent(job.config)) == {}
        <==> Agree(Intent(crashed.config), Intent(job.config))
  {
    var theirs, mine := Intent(crashed.config), Intent(job.config);
    var entry := ManagedEntry(CREATE_MANAGER, "Update", theirs);
    ShapeKeepsPaths(theirs);
    forall p ensures OwnedByOther(ManagedFields(doc), job.manager, p) <==> p in LeafPaths(theirs) {
      assert ManagedFields(doc)[0] == entry && OwnedPaths(entry) == LeafPaths(theirs);
    }
    var conflicts := ConflictPaths(doc, job.manager, mine);
    if Agree(theirs, mine) {
      forall p | p in LeafPaths(mine) ensures p !in conflicts {
        assert p in LeafPaths(theirs) ==> SameLeaf(doc, theirs, p);
      }
      assert conflicts == {};
    } else {
      var p :| p in LeafPaths(theirs) && p in LeafPaths(mine) && LeafAt(theirs, p) != LeafAt(mine, p);
      assert SameLeaf(doc, theirs, p);
      assert p in conflicts;
    }
  }

  /** Why the rerun must carry the same values: after the create of one job and a crash, a different job
      for the same object and identity completes if and only if it is forced or the two intents agree. */
  lemma ResumeAfterCreate(crashed: Job, job: Job, server: State)
    requires Prepared(crashed) && Prepared(job) && WellFormed(server)
    requires crashed.key == job.key && crashed.Authority() == job.Authority() && job.key !in server.objects
    ensures var created := CreateStep(crashed, server).server;
            && WellFormed(created)
            && (Completes(job, created) <==> job.force || Agree(Intent(crashed.config), Intent(job.config)))
  {
    CreateGuarded(crashed, server);
    var after := CreateStep(crashed, server);
    CompletesIffReady(job, after.server);
    ConflictsWithCreate(crashed, job, after.pc.created);
  }
}
