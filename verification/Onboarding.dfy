/** Tenant onboarding: provision, wait for approval, commit the canonical row, and on failure
    compensate or ask for intervention. A task is attempted several times, and an attempt
    that fails may have taken effect. */
module Onboarding {
  import opened Wrappers

  // ----- The canonical tenant row -----

  datatype Phase = Ready | Decommissioned | NeedsIntervention

  datatype Row = Row(phase: Phase, endpoint: Option<string>, lastRequestId: string)

  datatype Request = Request(id: string, phase: Phase, endpoint: Option<string>)

  /** The transition transaction: only the last request is remembered, and a request without an
      endpoint keeps the stored one. */
  function Transition(row: Option<Row>, request: Request): Row {
    if row.Some? && row.value.lastRequestId == request.id then row.value
    else Row(request.phase,
             if request.endpoint.Some? || row.None? then request.endpoint else row.value.endpoint,
             request.id)
  }

  function TransitionAll(row: Option<Row>, requests: seq<Request>): Option<Row> {
    if requests == [] then row
    else Some(Transition(TransitionAll(row, requests[..|requests| - 1]), requests[|requests| - 1]))
  }

  /** Each request, delivered as often as its count says before the next one comes. */
  function Repeated(requests: seq<Request>, counts: seq<nat>): seq<Request>
    requires |requests| == |counts|
  {
    if requests == [] then []
    else Repeated(requests[..|requests| - 1], counts[..|requests| - 1])
         + seq(counts[|requests| - 1] + 1, _ => requests[|requests| - 1])
  }

  /** The last request delivered is the one on record. */
  lemma LastIsRecorded(row: Option<Row>, requests: seq<Request>)
    requires requests != []
    ensures var after := TransitionAll(row, requests);
            after.Some? && after.value.lastRequestId == requests[|requests| - 1].id
  {
  }

  /** A request delivered again after others changes nothing exactly when the last of them carried its id. */
  lemma RepeatIsNoOp(row: Option<Row>, request: Request, others: seq<Request>)
    ensures var before := [request] + others;
            TransitionAll(row, before + [request]) == TransitionAll(row, before)
            <==> others == [] || others[|others| - 1].id == request.id
  {
    var before := [request] + others;
    LastIsRecorded(row, before);
    assert (before + [request])[..|before|] == before;
  }

  /** A Ready commit delivered again after the tenant was decommissioned makes the row Ready again. */
  lemma LateRepeatRevives(id: string, endpoint: string)
    ensures var ready := Request(id + ":ready", Ready, Some(endpoint));
            var gone := Request(id + ":decommissioned", Decommissioned, None);
            && TransitionAll(None, [ready, gone]) == Some(Row(Decommissioned, Some(endpoint), gone.id))
            && TransitionAll(None, [ready, gone, ready]) == Some(Row(Ready, Some(endpoint), ready.id))
  {
    var ready, gone := Request(id + ":ready", Ready, Some(endpoint)),
        Request(id + ":decommissioned", Decommissioned, None);
    assert ready.id[|id| + 1] != gone.id[|id| + 1];
    assert [ready, gone, ready][..2] == [ready, gone] && [ready, gone][..1] == [ready] && [ready][..0] == [];
    assert TransitionAll(None, [ready]) == Some(Transition(None, ready));
  }

  lemma {:induction false} RepeatLast(row: Option<Row>, before: seq<Request>, request: Request, n: nat)
    ensures TransitionAll(row, before + seq(n + 1, _ => request))
        == Some(Transition(TransitionAll(row, before), request))
  {
    var all := before + seq(n + 1, _ => request);
    assert all[..|all| - 1] == before + seq(n, _ => request);
    if n == 0 {
      assert before + seq(n, _ => request) == before;
    } else {
      RepeatLast(row, before, request, n - 1);
    }
  }

  /** Immediate retries of any of the requests leave the same row as one delivery of each. */
  lemma {:induction false} RetriesAreAbsorbed(row: Option<Row>, requests: seq<Request>, counts: seq<nat>)
    requires |requests| == |counts|
    ensures TransitionAll(row, Repeated(requests, counts)) == TransitionAll(row, requests)
  {
    if requests != [] {
      var n := |requests| - 1;
      RetriesAreAbsorbed(row, requests[..n], counts[..n]);
      RepeatLast(row, Repeated(requests[..n], counts[..n]), requests[n], counts[n]);
    }
  }

  // ----- Tasks -----

  datatype Task = Provision | Remove | Commit(request: Request)

  datatype Reply = Done | Failed | Cancelled

  /** A finished task call; took says whether any of its attempts took effect. */
  datatype Call = Call(task: Task, took: bool, reply: Reply)

  datatype World = World(infrastructure: bool, row: Option<Row>)

  function Effect(task: Task, world: World): World {
    match task
    case Provision => world.(infrastructure := true)
    case Remove => world.(infrastructure := false)
    case Commit(request) => world.(row := Some(Transition(world.row, request)))
  }

  /** What the calls did, each counted once however often it was attempted. */
  function Replay(world: World, calls: seq<Call>): World {
    if calls == [] then world
    else
      var before := Replay(world, calls[..|calls| - 1]);
      var last := calls[|calls| - 1];
      if last.took then Effect(last.task, before) else before
  }

  predicate Called(calls: seq<Call>, task: Task) {
    exists c :: c in calls && c.task == task
  }

  predicate Succeeded(calls: seq<Call>, task: Task) {
    Call(task, true, Done) in calls
  }

  predicate Commits(calls: seq<Call>) {
    exists c :: c in calls && c.task.Commit?
  }

  function Retries(task: Task): nat {
    if task.Commit? then 8 else 5
  }

  // ----- The workflow -----

  datatype Input = Input(tenantId: string, requestId: string)

  datatype Outcome = Onboarded(endpoint: string) | Compensated | Intervening

  datatype TaskError = TaskFailed | TaskCancelled

  function Endpoint(input: Input): string {
    "https://" + input.tenantId + ".example.test"
  }

  function ReadyCommit(input: Input): Task {
    Commit(Request(input.requestId + ":ready", Ready, Some(Endpoint(input))))
  }

  function InterventionCommit(input: Input): Task {
    Commit(Request(input.requestId + ":intervention", NeedsIntervention, None))
  }

  /** What waiting for the approval came to, if it came to that. */
  datatype Wait = NotReached | Approved | Rejected | WaitFailed | WaitCancelled

  predicate Last(calls: seq<Call>, task: Task, reply: Reply) {
    calls != [] && calls[|calls| - 1].task == task && calls[|calls| - 1].reply == reply
  }

  function Tasks(calls: seq<Call>): seq<Task> {
    seq(|calls|, i requires 0 <= i < |calls| => calls[i].task)
  }

  /** The calls follow one of the ways through the workflow, and a call that is done took effect. */
  ghost predicate Orderly(input: Input, calls: seq<Call>) {
    && (|| Tasks(calls) <= [Provision, ReadyCommit(input), Remove, InterventionCommit(input)]
        || Tasks(calls) <= [Provision, Remove, Remove, InterventionCommit(input)]
        || Tasks(calls) <= [Provision, Remove, InterventionCommit(input)])
    && forall c :: c in calls && c.reply == Done ==> c.took
  }

  /** Onboarded exactly when the Ready commit went through; then the infrastructure was provisioned and
      its removal never asked for. */
  ghost predicate OnboardedMeans(input: Input, calls: seq<Call>, wait: Wait, r: Result<Outcome, TaskError>) {
    && (r == Success(Onboarded(Endpoint(input))) <==> Succeeded(calls, ReadyCommit(input)))
    && (r.Success? && r.value.Onboarded? ==>
          && r.value.endpoint == Endpoint(input) && wait == Approved
          && Succeeded(calls, Provision) && !Called(calls, Remove) && !Called(calls, InterventionCommit(input)))
    && (Called(calls, ReadyCommit(input)) ==> wait == Approved)
  }

  /** Compensated exactly when the approval was refused and the first removal went through; then
      no commit was asked for. */
  ghost predicate CompensatedMeans(input: Input, calls: seq<Call>, wait: Wait, r: Result<Outcome, TaskError>) {
    && (r == Success(Compensated) <==> wait == Rejected && |calls| == 2 && Last(calls, Remove, Done))
    && (r == Success(Compensated) ==> !Commits(calls))
  }

  /** How many calls the try makes. */
  function TryLength(wait: Wait): nat {
    if wait == Approved || wait == Rejected then 2 else 1
  }

  /** The try provisioned and then threw something that is no cancellation. */
  predicate Caught(calls: seq<Call>, wait: Wait) {
    wait == WaitFailed || (TryLength(wait) == 2 && |calls| >= 2 && calls[1].reply == Failed)
  }

  /** The catch compensates exactly when it caught, and asks for intervention exactly when that removal was
      not done, a cancelled one included. */
  ghost predicate CatchMeans(input: Input, calls: seq<Call>, wait: Wait) {
    var tried := TryLength(wait);
    && |calls| >= tried
    && (Caught(calls, wait) <==> |calls| > tried)
    && (Caught(calls, wait) ==> calls[tried].task == Remove)
    && (Called(calls, InterventionCommit(input)) <==> Caught(calls, wait) && calls[tried].reply != Done)
    && (Called(calls, InterventionCommit(input)) <==> |calls| == tried + 2)
  }

  /** Asking for intervention follows a removal that was not done; the outcome says so exactly when the
      request was recorded. */
  ghost predicate InterveningMeans(input: Input, calls: seq<Call>, wait: Wait, r: Result<Outcome, TaskError>) {
    && (r == Success(Intervening) <==> Succeeded(calls, InterventionCommit(input)))
    && (Called(calls, InterventionCommit(input)) ==> Called(calls, Remove) && !Succeeded(calls, Remove))
  }

  /** A run that throws without being cancelled has removed what it provisioned, or failed to record
      that it could not. */
  ghost predicate ThrownMeans(input: Input, calls: seq<Call>, wait: Wait, r: Result<Outcome, TaskError>) {
    && (Succeeded(calls, Provision) && r == Failure(TaskFailed) ==>
          Last(calls, Remove, Done) || Last(calls, InterventionCommit(input), Failed))
    // a cancellation comes out exactly when nothing came after it
    && (r == Failure(TaskCancelled)
        <==> wait == WaitCancelled || (calls != [] && calls[|calls| - 1].reply == Cancelled))
    && (wait == NotReached <==> !Succeeded(calls, Provision))
    && (wait == NotReached ==> |calls| == 1)
  }

  ghost predicate Ended(input: Input, calls: seq<Call>, wait: Wait, r: Result<Outcome, TaskError>) {
    && Orderly(input, calls)
    && OnboardedMeans(input, calls, wait, r)
    && CompensatedMeans(input, calls, wait, r)
    && CatchMeans(input, calls, wait)
    && InterveningMeans(input, calls, wait, r)
    && ThrownMeans(input, calls, wait, r)
  }

  class Engine {
    var world: World
    ghost var calls: seq<Call>

    constructor (world: World)
      ensures this.world == world && calls == []
    {
      this.world := world;
      calls := [];
    }

    /** One task call: up to its number of retries and one more attempt, each of which may take effect
        whether or not it reports success. */
    method Run(task: Task) returns (reply: Reply, ghost call: Call)
      modifies this
      ensures call.task == task && call.reply == reply && (reply == Done ==> call.took)
      ensures calls == old(calls) + [call]
      ensures world == if call.took then Effect(task, old(world)) else old(world)
    {
      ghost var took := false;
      reply := Failed;
      for attempt := 0 to Retries(task) + 1
        invariant world == if took then Effect(task, old(world)) else old(world)
        invariant reply == Failed && calls == old(calls)
      {
        var effective: bool := *;
        reply := *;
        if effective || reply == Done {
          EffectOnce(task, old(world));
          world := Effect(task, world);
          took := true;
        }
        if reply != Failed {
          break;
        }
      }
      call := Call(task, took, reply);
      calls := calls + [call];
    }

    /** One more call of a run that began at the world given. */
    method Do(task: Task, ghost from: World, ghost done: seq<Call>) returns (reply: Reply, ghost done': seq<Call>)
      requires world == Replay(from, done)
      modifies this
      ensures |done'| == |done| + 1 && done' == done + [Call(task, done'[|done|].took, reply)]
      ensures reply == Done ==> done'[|done|].took
      ensures world == Replay(from, done') && calls == old(calls) + done'[|done|..]
    {
      ghost var call;
      reply, call := Run(task);
      done' := done + [call];
      ReplayMore(from, done, call);
    }

    /** The body of the outer try, up to its result or the error it throws. */
    method Attempt(input: Input, ghost from: World)
      returns (r: Result<Outcome, TaskError>, provisioned: bool, ghost wait: Wait, ghost done: seq<Call>)
      requires world == from
      modifies this
      ensures world == Replay(from, done) && calls == old(calls) + done
      ensures Tried(input, done, wait, provisioned, r)
    {
      var reply, waited;
      wait := NotReached;
      reply, done := Do(Provision, from, []);
      provisioned := reply == Done;
      if !provisioned {
        return Failure(ErrorOf(reply)), provisioned, wait, done;
      }
      waited := WaitForApproval();
      wait := waited;
      match waited {
        case Approved =>
          reply, done := Do(ReadyCommit(input), from, done);
          r := if reply == Done then Success(Onboarded(Endpoint(input))) else Failure(ErrorOf(reply));
        case Rejected =>
          reply, done := Do(Remove, from, done);
          r := if reply == Done then Success(Compensated) else Failure(ErrorOf(reply));
        case WaitCancelled => r := Failure(TaskCancelled);
        case _ => r := Failure(TaskFailed);
      }
    }

    method WaitForApproval() returns (wait: Wait)
      ensures wait != NotReached
    {
      wait :| wait != NotReached;
    }

    /** The workflow: what was provisioned is removed after a failure, and an operator is asked for when
        even that fails. */
    method Onboard(input: Input) returns (r: Result<Outcome, TaskError>, ghost wait: Wait, ghost done: seq<Call>)
      modifies this
      ensures world == Replay(old(world), done) && calls == old(calls) + done
      ensures Ended(input, done, wait, r)
    {
      ghost var from := world;
      var provisioned, reply;
      r, provisioned, wait, done := Attempt(input, from);
      if r.Success? || r.error == TaskCancelled || !provisioned {
        TriedEnds(input, done, wait, provisioned, r);
        return r, wait, done;
      }
      ghost var tried := done;
      reply, done := Do(Remove, from, done);
      ghost var removal := done[|tried|];
      if reply == Done {
        RemovedEnds(input, tried, wait, removal);
        return r, wait, done;
      }
      reply, done := Do(InterventionCommit(input), from, done);
      ghost var asked := done[|tried| + 1];
      r := if reply == Done then Success(Intervening) else Failure(ErrorOf(reply));
      assert done == tried + [removal, asked];
      AskedEnds(input, tried, wait, removal, asked);
    }
  }

  // ----- What the calls say -----

  /** How the body of the outer try ends. */
  ghost predicate Tried(input: Input, calls: seq<Call>, wait: Wait, provisioned: bool, r: Result<Outcome, TaskError>) {
    && 1 <= |calls| <= 2
    && calls[0].task == Provision && (provisioned <==> calls[0].reply == Done)
    && (forall c :: c in calls && c.reply == Done ==> c.took)
    && (wait == NotReached <==> !provisioned)
    && (|calls| == 2 <==> wait == Approved || wait == Rejected)
    && (r.Failure? <==> wait == WaitFailed || wait == WaitCancelled || calls[|calls| - 1].reply != Done)
    && (r.Failure? ==> (r.error == TaskCancelled <==> wait == WaitCancelled || calls[|calls| - 1].reply == Cancelled))
    && (wait == Approved ==>
        calls[1].task == ReadyCommit(input) && (r.Success? ==> r.value == Onboarded(Endpoint(input))))
    && (wait == Rejected ==> calls[1].task == Remove && (r.Success? ==> r.value == Compensated))
  }

  lemma TriedEnds(input: Input, calls: seq<Call>, wait: Wait, provisioned: bool, r: Result<Outcome, TaskError>)
    requires Tried(input, calls, wait, provisioned, r)
    requires r.Success? || r.error == TaskCancelled || !provisioned
    ensures Ended(input, calls, wait, r)
  {
    assert calls == if |calls| == 1 then [calls[0]] else [calls[0], calls[1]];
  }

  lemma RemovedEnds(input: Input, calls: seq<Call>, wait: Wait, removal: Call)
    requires Tried(input, calls, wait, true, Failure(TaskFailed))
    requires removal.task == Remove && removal.reply == Done && removal.took
    ensures Ended(input, calls + [removal], wait, Failure(TaskFailed))
  {
    assert calls == if |calls| == 1 then [calls[0]] else [calls[0], calls[1]];
  }

  lemma AskedEnds(input: Input, calls: seq<Call>, wait: Wait, removal: Call, asked: Call)
    requires Tried(input, calls, wait, true, Failure(TaskFailed))
    requires removal.task == Remove && removal.reply != Done
    requires asked.task == InterventionCommit(input) && (asked.reply == Done ==> asked.took)
    ensures Ended(input, calls + [removal, asked], wait,
                  if asked.reply == Done then Success(Intervening) else Failure(ErrorOf(asked.reply)))
  {
    assert calls == if |calls| == 1 then [calls[0]] else [calls[0], calls[1]];
  }

  lemma SuccessIsDetermined(input: Input, calls: seq<Call>, wait: Wait, r: Result<Outcome, TaskError>,
      q: Result<Outcome, TaskError>)
    requires Ended(input, calls, wait, r) && Ended(input, calls, wait, q) && r.Success?
    ensures q == r
  {
    match r.value {
      case Onboarded(_) => assert q == Success(Onboarded(Endpoint(input)));
      case Compensated => assert q == Success(Compensated);
      case Intervening => assert q == Success(Intervening);
    }
  }

  /** The calls and the wait leave no choice of the result. */
  lemma ResultIsDetermined(input: Input, calls: seq<Call>, wait: Wait, r: Result<Outcome, TaskError>,
      q: Result<Outcome, TaskError>)
    requires Ended(input, calls, wait, r) && Ended(input, calls, wait, q)
    ensures r == q
  {
    if r.Success? {
      SuccessIsDetermined(input, calls, wait, r, q);
    } else if q.Success? {
      SuccessIsDetermined(input, calls, wait, q, r);
    } else {
      assert r.error == TaskCancelled <==> q.error == TaskCancelled;
    }
  }

  lemma OnlyLastAsks(input: Input, calls: seq<Call>, wait: Wait)
    requires Orderly(input, calls) && calls != []
    ensures forall k :: 0 <= k < |calls| - 1 ==> calls[k].task != InterventionCommit(input)
  {
    OrderlyTasks(input, calls);
  }

  /** A cancelled call ends the run as cancelled, unless it is the compensating removal of the catch: that
      cancellation is swallowed, and the intervention commit decides. */
  lemma CancellationIsSwallowedOnlyInCatch(input: Input, calls: seq<Call>, wait: Wait, r: Result<Outcome, TaskError>,
      i: nat)
    requires Ended(input, calls, wait, r) && i < |calls| && calls[i].reply == Cancelled
    ensures var swallowed := Caught(calls, wait) && i == TryLength(wait);
            if !swallowed then i == |calls| - 1 && r == Failure(TaskCancelled)
            else
              && calls[i].task == Remove && i == |calls| - 2 && calls[i + 1].task == InterventionCommit(input)
              && r == if calls[i + 1].reply == Done then Success(Intervening) else Failure(ErrorOf(calls[i + 1].reply))
  {
    OrderlyTasks(input, calls);
    var last := calls[|calls| - 1];
    if Caught(calls, wait) && i == TryLength(wait) {
      if last.reply == Done {
        assert last == Call(InterventionCommit(input), true, Done);
      } else {
        OnlyLastAsks(input, calls, wait);
        assert !Succeeded(calls, InterventionCommit(input));
        assert calls[i] in calls && Called(calls, Remove);
        assert r.error == TaskCancelled <==> last.reply == Cancelled;
      }
    }
  }

  /** Such a run: the Ready commit fails, the removal is cancelled, and the run reports intervention instead
      of the cancellation. It cannot stop at the cancelled removal. */
  lemma SwallowedCancellation(input: Input)
    ensures var calls := [Call(Provision, true, Done), Call(ReadyCommit(input), false, Failed),
        Call(Remove, false, Cancelled),
                          Call(InterventionCommit(input), true, Done)];
            && Ended(input, calls, Approved, Success(Intervening))
            && forall r :: !Ended(input, calls[..3], Approved, r)
  {
    var tried := [Call(Provision, true, Done), Call(ReadyCommit(input), false, Failed)];
    var removal, asked := Call(Remove, false, Cancelled), Call(InterventionCommit(input), true, Done);
    AskedEnds(input, tried, Approved, removal, asked);
    assert tried + [removal, asked] == [tried[0], tried[1], removal, asked];
    var short := [tried[0], tried[1], removal, asked][..3];
    assert short[2] == removal && Caught(short, Approved);
  }

  // ----- What the run leaves behind, when nobody else touches this tenant -----

  predicate Recorded(row: Option<Row>, request: Request) {
    row.Some? && row.value.lastRequestId == request.id
  }

  /** The Ready commit is on record but the infrastructure it points to is gone. */
  predicate PointsNowhere(input: Input, world: World) {
    !world.infrastructure && Recorded(world.row, ReadyCommit(input).request)
  }

  lemma ReplayMore(world: World, calls: seq<Call>, call: Call)
    ensures Replay(world, calls + [call])
        == if call.took then Effect(call.task, Replay(world, calls)) else Replay(world, calls)
  {
    assert (calls + [call])[..|calls|] == calls;
  }

  lemma ReplayShort(world: World, calls: seq<Call>)
    requires |calls| <= 4
    ensures |calls| == 1 ==> Replay(world, calls) == Next(world, calls[0])
    ensures |calls| == 2 ==> Replay(world, calls) == Next(Next(world, calls[0]), calls[1])
    ensures |calls| == 3 ==> Replay(world, calls) == Next(Next(Next(world, calls[0]), calls[1]), calls[2])
    ensures |calls| == 4 ==>
        Replay(world, calls) == Next(Next(Next(Next(world, calls[0]), calls[1]), calls[2]), calls[3])
  {
    if 0 < |calls| {
      ReplayShort(world, calls[..|calls| - 1]);
    }
  }

  function Next(world: World, call: Call): World {
    if call.took then Effect(call.task, world) else world
  }

  lemma OrderlyTasks(input: Input, calls: seq<Call>)
    requires Orderly(input, calls)
    ensures |calls| <= 4 && (|calls| > 0 ==> calls[0].task == Provision)
    ensures |calls| > 1 ==> calls[1].task == ReadyCommit(input) || calls[1].task == Remove
    ensures |calls| > 2 ==>
              calls[2].task == Remove || (calls[1].task == Remove && calls[2].task == InterventionCommit(input))
    ensures |calls| > 3 ==> calls[2].task == Remove && calls[3].task == InterventionCommit(input)
    ensures |calls| == 4 || (|calls| == 3 && calls[2].task == InterventionCommit(input))
        || !Called(calls, InterventionCommit(input))
  {
    assert forall i :: 0 <= i < |calls| ==> Tasks(calls)[i] == calls[i].task;
  }

  /** Onboarded: the infrastructure is there and, unless the same request was on record already, the row is
      Ready and points to it. Compensated: it is gone and the row is untouched. */
  lemma OutcomeOnRecord(input: Input, before: World, calls: seq<Call>, wait: Wait, r: Result<Outcome, TaskError>)
    requires Ended(input, calls, wait, r)
    ensures r == Success(Onboarded(Endpoint(input))) ==>
              var after := Replay(before, calls);
              && after.infrastructure && Recorded(after.row, ReadyCommit(input).request)
              && (!Recorded(before.row, ReadyCommit(input).request) ==>
                    after.row == Some(Row(Ready, Some(Endpoint(input)), input.requestId + ":ready")))
    ensures r == Success(Compensated) ==> Replay(before, calls) == World(false, before.row)
    ensures r == Success(Intervening) ==> Recorded(Replay(before, calls).row, InterventionCommit(input).request)
  {
    OrderlyTasks(input, calls);
    ReplayShort(before, calls);
  }

  /** After a run that failed and removed what it provisioned, the row still says Ready exactly when a
      Ready commit that was reported as failed had taken effect. */
  lemma CompensationLeavesReadyRow(input: Input, before: World, calls: seq<Call>, wait: Wait)
    requires Ended(input, calls, wait, Failure(TaskFailed)) && Last(calls, Remove, Done)
    requires !Recorded(before.row, ReadyCommit(input).request)
    ensures PointsNowhere(input, Replay(before, calls))
            <==> exists c :: c in calls && c.task == ReadyCommit(input) && c.took
    ensures !PointsNowhere(input, Replay(before, calls)) ==> Replay(before, calls) == World(false, before.row)
  {
    OrderlyTasks(input, calls);
    ReplayShort(before, calls);
  }

  function ErrorOf(reply: Reply): TaskError {
    if reply == Cancelled then TaskCancelled else TaskFailed
  }

  lemma EffectOnce(task: Task, world: World)
    ensures Effect(task, Effect(task, world)) == Effect(task, world)
  {
  }
}
