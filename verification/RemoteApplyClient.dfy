/** The managed remote apply as the host runs it, call by call against the API
    server, with other writers acting before every call. Each execution is a run
    of the state machine in RemoteApply. */
module RemoteApplyClient {
  import opened Wrappers
  import opened Sequences
  import opened Json
  import opened Contract
  import opened ApiServer
  import opened RemoteAuthority
  import opened OwnershipCleanup
  import opened RemoteApply

  /** An execution: the writes that came before it, and its steps so far. */
  datatype Run = Run(base: seq<Commit>, trace: seq<Sys>, actors: seq<Actor>)

  function Extended(run: Run, actor: Actor, next: Sys): Run {
    Run(run.base, run.trace + [next], run.actors + [actor])
  }

  /** Same origin. */
  predicate Continues(run: Run, earlier: Run) {
    run.base == earlier.base && run.trace != [] && earlier.trace != [] && run.trace[0] == earlier.trace[0]
  }

  /** The run ends in this server state with the client at pc, and its writes are the last ones logged. */
  ghost predicate Tracks(job: Job, server: State, commits: seq<Commit>, pc: Pc, run: Run) {
    && IsRun(job, run.trace, run.actors)
    && run.trace[|run.actors|] == Sys(server, pc)
    && Inv(job, Sys(server, pc))
    && (forall i :: 0 <= i < |run.actors| ==> !run.actors[i].Restart?)
    && commits == run.base + RunCommits(job, run.trace, run.actors)
  }

  lemma ClientMoves(job: Job, server: State, commits: seq<Commit>, pc: Pc, run: Run)
    requires Prepared(job) && Tracks(job, server, commits, pc, run)
    ensures var next := ClientStep(job, Sys(server, pc));
            && Tracks(job, next.server, commits
                + StepCommits(job, Sys(server, pc)), next.pc, Extended(run, Client, next))
            && Continues(Extended(run, Client, next), run)
  {
    var next := ClientStep(job, Sys(server, pc));
    ClientStepSafe(job, Sys(server, pc));
    ExtendRun(job, run, Client, next);
    Regroup(run.base, RunCommits(job, run.trace, run.actors), StepCommits(job, Sys(server, pc)));
  }

  lemma OthersMove(job: Job, server: State, commits: seq<Commit>, pc: Pc, run: Run, after: State)
    requires Tracks(job, server, commits, pc, run) && Evolves(server, after)
    ensures Tracks(job, after, commits, pc, Extended(run, Others, Sys(after, pc)))
    ensures Continues(Extended(run, Others, Sys(after, pc)), run)
  {
    OthersKeepInv(job, Sys(server, pc), Sys(after, pc));
    ExtendRun(job, run, Others, Sys(after, pc));
  }

  lemma ExtendRun(job: Job, run: Run, actor: Actor, next: Sys)
    requires IsRun(job, run.trace, run.actors) && WellFormed(next.server)
    requires Step(job, run.trace[|run.actors|], actor, next)
    ensures var longer := Extended(run, actor, next);
            && IsRun(job, longer.trace, longer.actors)
            && RunCommits(job, longer.trace, longer.actors)
               == RunCommits(job, run.trace, run.actors)
                   + (if actor.Client? then StepCommits(job, run.trace[|run.actors|]) else [])
  {
    var longer := Extended(run, actor, next);
    forall i | 0 <= i < |longer.actors| ensures Step(job, longer.trace[i], longer.actors[i], longer.trace[i + 1]) {
      if i < |run.actors| {
        assert Step(job, run.trace[i], run.actors[i], run.trace[i + 1]);
      }
    }
    RunCommitsMore(job, run.trace, run.actors, actor, next);
  }

  /** Other writers, between two calls of this client. */
  method LetOthersAct(server: Cluster, ghost job: Job, ghost pc: Pc, ghost run: Run) returns (ghost run': Run)
    requires server.Valid() && Tracks(job, server.state, server.commits, pc, run)
    modifies server`state
    ensures server.Valid() && Tracks(job, server.state, server.commits, pc, run') && Continues(run', run)
  {
    ghost var before := server.state;
    server.Interfere();
    OthersMove(job, before, server.commits, pc, run, server.state);
    run' := Extended(run, Others, Sys(server.state, pc));
  }

  /** The same steps, seen without what was logged before. */
  lemma OnItsOwn(job: Job, server: State, commits: seq<Commit>, pc: Pc, run: Run)
    requires Tracks(job, server, commits, pc, run)
    ensures Tracks(job, server, RunCommits(job, run.trace, run.actors), pc, Run([], run.trace, run.actors))
  {
    var made := RunCommits(job, run.trace, run.actors);
    assert [] + made == made;
  }

  lemma VerifiedStep(job: Job, server: State, pc: Pc, seen: Value, cleanup: bool)
    requires Prepared(job) && WellFormed(server) && Known(server, job.key, seen)
    requires (pc == Posted(seen) && cleanup) || (pc == Observed(seen) && cleanup == HasCreateOwnership(seen))
    ensures var next := ApplyVerified(job, server, seen, cleanup);
            && ClientStep(job, Sys(server, pc)) == next
            && StepCommits(job, Sys(server, pc)) == VerifiedCommits(job, server, next)
            && (!next.pc.Failed? ==> At(server, job.key) == Some(seen) && Proves(seen, job.Authority()))
  {
    ApplyVerifiedGuarded(job, server, seen, cleanup);
  }

  function VerifiedCommits(job: Job, server: State, next: Sys): seq<Commit> {
    if next.pc.Failed? then [] else [Commit(job.key, At(server, job.key), At(next.server, job.key))]
  }

  /** What a successful apply returns is what the key then holds. */
  lemma AppliedIsStored(s: State, key: Key, manager: string, force: bool, doc: Value)
    requires WellFormed(s)
    ensures var r := ApplyResult(s, key, manager, force, doc);
            r.Success? ==> At(r.value.0, key) == Some(r.value.1)
  {
  }

  /** Verify, put the verified version into the document, apply: one step of the machine. */
  method SendApply(server: Cluster, job: Job, ghost pc: Pc, seen: Value, cleanup: bool)
    returns (r: Result<Value, Error>)
    requires server.Valid() && Prepared(job) && Known(server.state, job.key, seen)
    requires (pc == Posted(seen) && cleanup) || (pc == Observed(seen) && cleanup == HasCreateOwnership(seen))
    modifies server
    ensures server.Valid()
    ensures ClientStep(job, Sys(old(server.state), pc))
        == Sys(server.state, if r.Success? then Patched(r.value, cleanup) else Failed(r.error))
    ensures server.commits == old(server.commits) + StepCommits(job, Sys(old(server.state), pc))
    ensures r.Success? ==> At(old(server.state), job.key) == Some(seen) && Proves(seen, job.Authority())
  {
    VerifiedStep(job, server.state, pc, seen, cleanup);
    var verified := VerifyRemoteObject(seen, job.Authority());
    if verified.Failure? {
      return Failure(verified.error);
    }
    var guarded := InjectPrecondition(job.config, verified.value.resourceVersion);
    AppliedIsStored(server.state, job.key, job.manager, job.force, guarded.value);
    var applied := server.Apply(job.key, job.manager, job.force, guarded.value);
    match applied {
      case Failure(e) => r := Failure(Kubernetes(e));
      case Success(doc) => r := Success(doc);
    }
  }

  /** The clean-up of the object an apply returned: one step of the machine. */
  method SendCleanup(server: Cluster, job: Job, applied: Value) returns (r: Result<(), Error>)
    requires server.Valid() && Known(server.state, job.key, applied)
    modifies server
    ensures server.Valid()
    ensures ClientStep(job, Sys(old(server.state), Patched(applied, true)))
        == Sys(server.state, if r.Success? then Done else Failed(r.error))
    ensures server.commits == old(server.commits) + StepCommits(job, Sys(old(server.state), Patched(applied, true)))
    ensures server.commits != old(server.commits) ==> At(old(server.state), job.key) == Some(applied)
  {
    CleanupPatchShape(applied);
    var patch := CleanupPatch(applied);
    match patch {
      case Failure(e) => r := Failure(e);
      case Success(None) => r := Success(());
      case Success(Some(entries)) =>
        CleanupPatchResult(server.state, job.key, applied);
        var sent := server.Patch(job.key, entries);
        match sent {
          case Success(_) => r := Success(());
          case Failure(e) => r := Failure(Kubernetes(e));
        }
    }
  }

  method SendCreate(server: Cluster, job: Job) returns (r: Result<Value, Error>)
    requires server.Valid() && Prepared(job)
    modifies server
    ensures server.Valid()
    ensures ClientStep(job, Sys(old(server.state), Absent))
        == Sys(server.state, if r.Success? then Posted(r.value) else Failed(r.error))
    ensures server.commits == old(server.commits) + StepCommits(job, Sys(old(server.state), Absent))
  {
    CreateGuarded(job, server.state);
    var created := server.Create(job.key, CREATE_MANAGER, job.config);
    match created {
      case Failure(e) => r := Failure(Kubernetes(e));
      case Success(doc) => r := Success(doc);
    }
  }

  /** The object to verify: the one that is there, or the one this call creates. */
  method ReadOrCreate(server: Cluster, job: Job)
    returns (r: Result<Value, Error>, cleanup: bool, ghost pc: Pc, ghost run: Run)
    requires server.Valid() && Prepared(job)
    modifies server
    ensures server.Valid()
    ensures Tracks(job, server.state, server.commits, pc, run)
    ensures run.base == old(server.commits) && run.trace[0] == Sys(old(server.state), Begin)
    ensures match r
            case Success(doc) => (pc == Posted(doc) && cleanup)
                || (pc == Observed(doc) && cleanup == HasCreateOwnership(doc))
            case Failure(e) => pc == Failed(e)
  {
    run := Run(server.commits, [Sys(server.state, Begin)], []);
    assert server.commits == run.base + [];
    run := LetOthersAct(server, job, Begin, run);
    ClientMoves(job, server.state, server.commits, Begin, run);
    assert server.commits + [] == server.commits;
    var got := server.Get(job.key);
    match got {
      case Success(doc) =>
        r, cleanup, pc := Success(doc), HasCreateOwnership(doc), Observed(doc);
        run := Extended(run, Client, Sys(server.state, pc));
      case Failure(_) =>
        run := Extended(run, Client, Sys(server.state, Absent));
        cleanup := true;
        r, pc, run := CreateGuardedObject(server, job, run);
    }
  }

  method CreateGuardedObject(server: Cluster, job: Job, ghost run: Run)
    returns (r: Result<Value, Error>, ghost pc: Pc, ghost run': Run)
    requires server.Valid() && Prepared(job) && Tracks(job, server.state, server.commits, Absent, run)
    modifies server
    ensures server.Valid()
    ensures Tracks(job, server.state, server.commits, pc, run') && Continues(run', run)
    ensures pc == if r.Success? then Posted(r.value) else Failed(r.error)
  {
    run' := LetOthersAct(server, job, Absent, run);
    ClientMoves(job, server.state, server.commits, Absent, run');
    r := SendCreate(server, job);
    pc := if r.Success? then Posted(r.value) else Failed(r.error);
    run' := Extended(run', Client, Sys(server.state, pc));
  }

  /** Read or create, verify, apply under the verified version, clean up. The run is the evidence: its
      steps are those of the machine, and its writes are exactly the writes made. */
  method ApplyManaged(server: Cluster, job: Job) returns (r: Result<(), Error>, ghost run: Run)
    requires server.Valid() && Prepared(job)
    modifies server
    ensures server.Valid()
    ensures Tracks(job, server.state, server.commits, if r.Success? then Done else Failed(r.error), run)
    ensures run.base == old(server.commits) && run.trace[0] == Sys(old(server.state), Begin)
    ensures AllAuthorised(job, RunCommits(job, run.trace, run.actors))
  {
    var candidate, cleanup;
    ghost var pc;
    candidate, cleanup, pc, run := ReadOrCreate(server, job);
    match candidate {
      case Failure(e) => r := Failure(e);
      case Success(doc) => r, run := ApplyUnderVersion(server, job, pc, doc, cleanup, run);
    }
    RunCommitsAuthorised(job, run.trace, run.actors);
  }

  method ApplyUnderVersion(server: Cluster, job: Job, ghost pc: Pc, seen: Value, cleanup: bool, ghost run: Run)
    returns (r: Result<(), Error>, ghost run': Run)
    requires server.Valid() && Prepared(job) && Tracks(job, server.state, server.commits, pc, run)
    requires (pc == Posted(seen) && cleanup) || (pc == Observed(seen) && cleanup == HasCreateOwnership(seen))
    modifies server
    ensures server.Valid()
    ensures Tracks(job, server.state, server.commits, if r.Success? then Done else Failed(r.error), run')
        && Continues(run', run)
  {
    run' := LetOthersAct(server, job, pc, run);
    ClientMoves(job, server.state, server.commits, pc, run');
    var applied := SendApply(server, job, pc, seen, cleanup);
    match applied {
      case Failure(e) =>
        run' := Extended(run', Client, Sys(server.state, Failed(e)));
        r := Failure(e);
      case Success(doc) =>
        run' := Extended(run', Client, Sys(server.state, Patched(doc, cleanup)));
        r, run' := Finish(server, job, doc, cleanup, run');
    }
  }

  method Finish(server: Cluster, job: Job, applied: Value, cleanup: bool, ghost run: Run)
    returns (r: Result<(), Error>, ghost run': Run)
    requires server.Valid() && Prepared(job)
    requires Tracks(job, server.state, server.commits, Patched(applied, cleanup), run)
    modifies server
    ensures server.Valid()
    ensures Tracks(job, server.state, server.commits, if r.Success? then Done else Failed(r.error), run')
        && Continues(run', run)
  {
    if cleanup {
      run' := LetOthersAct(server, job, Patched(applied, true), run);
      ClientMoves(job, server.state, server.commits, Patched(applied, true), run');
      r := SendCleanup(server, job, applied);
      run' := Extended(run', Client, Sys(server.state, if r.Success? then Done else Failed(r.error)));
    } else {
      ClientMoves(job, server.state, server.commits, Patched(applied, false), run);
      assert server.commits + [] == server.commits;
      run' := Extended(run, Client, Sys(server.state, Done));
      r := Success(());
    }
  }
}
