/** What closing, canceling and stopping mean over whole runs. */
module BinarySchedulerClose {
  import opened Results
  import opened BinaryScheduler
  import opened BinarySchedulerSafety
  import opened BinarySchedulerSteps
  import opened BinarySchedulerControl
  import opened BinarySchedulerRuns
  import BinaryBody

  // ---------------------------------------------------------------- stopping is permanent

  lemma StopTurn(s: State, e: Event)
    requires Handshake(s) && Flags(s) && Enabled(s, e) && Stopped(s) && TurnEvent(e)
    ensures Stopped(Apply(s, e)) && Apply(s, e).core.active.Keys <= s.core.active.Keys
  {}

  lemma StopCommand(s: State)
    requires Flags(s) && Enabled(s, SelCommand) && Stopped(s)
    ensures Stopped(DoCommand(s)) && DoCommand(s).core.active.Keys <= s.core.active.Keys
  {
    if s.cmds[0].Cancel? { CancelAfterStop(s.core, s.cmds[0].id); }
  }

  lemma StopSelect(s: State, e: Event)
    requires Flags(s) && Enabled(s, e) && Stopped(s) && SelectEvent(e)
    ensures Stopped(Apply(s, e)) && Apply(s, e).core.active.Keys <= s.core.active.Keys
  {
    if e.SelCommand? { StopCommand(s); }
  }

  lemma StopOther(s: State, e: Event)
    requires Enabled(s, e) && Stopped(s) && !TurnEvent(e) && !SelectEvent(e)
    ensures Stopped(Apply(s, e)) && Apply(s, e).core.active.Keys <= s.core.active.Keys
  {}

  /** "Closing or terminal failure" never becomes false again, although each flag alone is reset,
      and no task is launched afterwards: the active tasks only get fewer. */
  lemma {:induction false} StoppingIsPermanent(s: State, run: seq<Event>)
    requires Inv(s) && Stopped(s) && ValidRun(s, run)
    ensures Stopped(Exec(s, run))
    ensures Exec(s, run).core.active.Keys <= s.core.active.Keys && Exec(s, run).core.pending == []
    decreases |run|
  {
    if run != [] {
      if TurnEvent(run[0]) {
        StopTurn(s, run[0]);
      } else if SelectEvent(run[0]) {
        StopSelect(s, run[0]);
      } else {
        StopOther(s, run[0]);
      }
      StepKeepsInv(s, run[0]);
      StoppingIsPermanent(Apply(s, run[0]), run[1..]);
    }
  }

  // ---------------------------------------------------------------- outcomes

  lemma {:induction false} JobsEndElsewhere(jobs: seq<Job>, j: Job, strict: bool)
    requires JobsEnd(jobs, j.id, strict) && j in jobs
    ensures Ends(strict, j.outcome)
  {
    if j != jobs[0] { JobsEndElsewhere(jobs[1..], j, strict); }
  }

  lemma RecordsGrow(s: State, e: Event)
    requires Enabled(s, e)
    ensures s.closedOver <= Apply(s, e).closedOver && s.cancelAcked <= Apply(s, e).cancelAcked
  {}

  lemma {:induction false} RunRecordsGrow(s: State, run: seq<Event>)
    requires ValidRun(s, run)
    ensures s.closedOver <= Exec(s, run).closedOver && s.cancelAcked <= Exec(s, run).cancelAcked
    decreases |run|
  {
    if run != [] {
      RecordsGrow(s, run[0]);
      RunRecordsGrow(Apply(s, run[0]), run[1..]);
    }
  }

  /** The steps that run `begin_close`: a received close, a hang-up, a dispatcher that died with an unacknowledged job, and
      a restart that failed. */
  predicate BeginsClose(s: State, e: Event) {
    match e
    case SelCommand => s.cmds != [] && s.cmds[0].Close?
    case SelHangup => true
    case SchedCheck => s.core.dispatcherUp && s.thread.Finished? && |s.acks| < s.core.inflight
    case SchedRestart(ok) => !s.core.dispatcherUp && s.core.restartRequested && !ok
    case _ => false
  }

  lemma ClosesOver(s: State, e: Event, id: TaskId)
    requires Enabled(s, e) && BeginsClose(s, e) && (id in s.core.pending || id in s.core.active)
    ensures id in Apply(s, e).closedOver
  {}

  /** Every task queued or active when a close begins, for whatever reason, ends as `ClientClosed`. */
  lemma CloseEndsTasksAsClosed(s: State, e: Event, run: seq<Event>, j: Job)
    requires Inv(s) && Enabled(s, e) && BeginsClose(s, e) && ValidRun(Apply(s, e), run)
    requires j.id in s.core.pending || j.id in s.core.active
    requires j in Exec(Apply(s, e), run).calls
    ensures j.outcome == ClientClosed
  {
    var t := Apply(s, e);
    ClosesOver(s, e, j.id);
    StepKeepsInv(s, e);
    RunRecordsGrow(t, run);
    RunKeepsInv(t, run);
    assert TaskInv(Exec(t, run), j.id);
    JobsEndElsewhere(Exec(t, run).calls, j, true);
  }

  predicate AcknowledgesCancel(s: State, id: TaskId) {
    Enabled(s, SelCommand) && s.cmds[0] == Cancel(id) && CancelTask(s.core, id).1
  }

  /** An acknowledged cancel ends as `TaskCanceled`, or as `ClientClosed` if a close overtook it;
      never as a success. */
  lemma CanceledTaskNeverSucceeds(s: State, run: seq<Event>, j: Job)
    requires Inv(s) && AcknowledgesCancel(s, j.id) && ValidRun(Apply(s, SelCommand), run)
    requires j in Exec(Apply(s, SelCommand), run).calls
    ensures j.outcome == TaskCanceled || j.outcome == ClientClosed
  {
    var t := Apply(s, SelCommand);
    assert j.id in t.cancelAcked;
    StepKeepsInv(s, SelCommand);
    RunRecordsGrow(t, run);
    RunKeepsInv(t, run);
    assert TaskInv(Exec(t, run), j.id);
    JobsEndElsewhere(Exec(t, run).calls, j, false);
  }

  // ---------------------------------------------------------------- permits

  /** Both pools account for every holder: the outstanding count is the number of admitted tasks not
      yet called back, at most 1024; active tasks and undelivered successes hold at most two bodies. */
  lemma PermitsConserved(s: State)
    requires Reachable(s)
    ensures s.outstanding == |s.entering| + |EnqueuedIds(s.cmds)| + |s.core.pending| + |s.core.active| +
                             |s.core.terminal| + |Held(s)| <= MAX_OUTSTANDING_TASKS
    ensures |s.core.active| + Successes(s.core.terminal) + Successes(Held(s)) <= MAX_CONCURRENCY
    ensures s.bodyFree == MAX_CONCURRENCY - |s.core.active| - Successes(s.core.terminal) - Successes(Held(s))
  {
    ReachableInv(s);
  }

  function BodyBytes(jobs: seq<Job>): nat {
    if jobs == [] then 0
    else (if jobs[0].outcome.Success? then jobs[0].outcome.size else 0) + BodyBytes(jobs[1..])
  }

  predicate Within(jobs: seq<Job>, limit: nat) {
    forall j :: j in jobs && j.outcome.Success? ==> j.outcome.size <= limit
  }

  lemma {:induction false} BodyBytesBound(jobs: seq<Job>, limit: nat)
    requires Within(jobs, limit)
    ensures BodyBytes(jobs) <= Successes(jobs) * limit
  {
    if jobs != [] {
      assert jobs[0] in jobs && forall j :: j in jobs[1..] ==> j in jobs;
      BodyBytesBound(jobs[1..], limit);
      if jobs[0].outcome.Success? {
        assert Successes(jobs) * limit == Successes(jobs[1..]) * limit + limit;
      } else {
        assert Successes(jobs) == Successes(jobs[1..]);
      }
    }
  }

  /** A size that the body loop can return under the limit. */
  ghost predicate Collectable(size: nat, limit: nat) {
    exists announced, input ::
      BinaryBody.Expected(announced, input, limit).Body? && |BinaryBody.Expected(announced, input, limit).bytes| == size
  }

  /** Every successful worker returns a body that the body loop collected under the limit. */
  ghost predicate CollectedRun(run: seq<Event>, limit: nat) {
    forall e :: e in run && e.SelWorker? && e.result.Downloaded? ==> Collectable(e.result.size, limit)
  }

  predicate SizedRun(run: seq<Event>, limit: nat) {
    forall e :: e in run && e.SelWorker? && e.result.Downloaded? ==> e.result.size <= limit
  }

  predicate BodiesWithin(s: State, limit: nat) { Within(s.core.terminal, limit) && Within(Held(s), limit) }

  lemma CloseOverKeepsWithin(s: State, c: Core, limit: nat)
    requires Within(c.terminal, limit) && Within(Held(s), limit)
    ensures BodiesWithin(CloseOver(s, c), limit)
  {
    WithinConcat(c.terminal, ClosedJobs(c.pending), limit);
  }

  lemma CheckKeepsWithin(s: State, limit: nat)
    requires BodiesWithin(s, limit)
    ensures BodiesWithin(DoCheck(s), limit)
  {
    if s.core.dispatcherUp && s.thread.Finished? {
      var c := Receive(s.core, s.acks).(dispatcherUp := false);
      var t := s.(registry := s.registry - Elements(s.acks), acks := [], thread := Absent, pc := RestartDispatcher);
      if c.inflight != 0 { CloseOverKeepsWithin(t, WithFailure(c).(inflight := 0), limit); }
    }
  }

  lemma RestartKeepsWithin(s: State, ok: bool, limit: nat)
    requires BodiesWithin(s, limit)
    ensures BodiesWithin(DoRestart(s, ok), limit)
  {
    if !s.core.dispatcherUp && s.core.restartRequested && !ok {
      CloseOverKeepsWithin(s.(pc := Flush), WithFailure(s.core).(restartRequested := false), limit);
    }
  }

  lemma FlushKeepsWithin(s: State, limit: nat)
    requires BodiesWithin(s, limit)
    ensures BodiesWithin(DoFlush(s), limit)
  {
    if s.core.terminal != [] {
      assert s.core.terminal[0] in s.core.terminal;
      assert forall j :: j in s.core.terminal[1..] ==> j in s.core.terminal;
      assert forall j :: j in s.chan ==> j in Held(s);
    }
  }

  lemma TurnKeepsWithin(s: State, e: Event, limit: nat)
    requires Enabled(s, e) && BodiesWithin(s, limit) && TurnEvent(e)
    ensures BodiesWithin(Apply(s, e), limit)
  {
    match e
    case SchedCheck => CheckKeepsWithin(s, limit);
    case SchedRestart(ok) => RestartKeepsWithin(s, ok, limit);
    case SchedFlush => FlushKeepsWithin(s, limit);
    case SchedLaunch => LaunchFrame(s.core, s.bodyFree);
    case SchedRetryable =>
    case SchedDrain =>
    case SchedExit =>
  }

  lemma WithinConcat(a: seq<Job>, b: seq<Job>, limit: nat)
    requires Within(a, limit) && Within(b, limit)
    ensures Within(a + b, limit)
  {}

  lemma CommandKeepsWithin(s: State, limit: nat)
    requires BodiesWithin(s, limit) && s.cmds != []
    ensures BodiesWithin(DoCommand(s), limit)
  {
    var t := s.(cmds := s.cmds[1..], pc := DrainAcks);
    assert Held(t) == Held(s);
    match s.cmds[0]
    case Enqueue(id) =>
      WithinConcat(s.core.terminal, [Job(id, ClientClosed)], limit);
      assert DoCommand(s) == OnEnqueue(t, id);
    case Cancel(id) =>
      CancelKeepsWithin(s.core, id, limit);
      assert DoCommand(s) == OnCancel(t, id);
    case Close(request) =>
      CloseOverKeepsWithin(t, WithClose(s.core, request), limit);
      assert DoCommand(s) == OnClose(t, request);
  }

  lemma CancelKeepsWithin(c: Core, id: TaskId, limit: nat)
    requires Within(c.terminal, limit)
    ensures Within(CancelTask(c, id).0.terminal, limit)
  {
    WithinConcat(c.terminal, [Job(id, TaskCanceled)], limit);
  }

  lemma WorkerKeepsWithin(s: State, id: TaskId, result: WorkerResult, limit: nat)
    requires BodiesWithin(s, limit) && id in s.core.active && (result.Downloaded? ==> result.size <= limit)
    ensures BodiesWithin(DoWorker(s, id, result), limit)
  {
    WithinConcat(s.core.terminal, [Job(id, WorkerOutcome(s.core.active[id], result))], limit);
  }

  lemma SelectKeepsWithin(s: State, e: Event, limit: nat)
    requires Enabled(s, e) && BodiesWithin(s, limit) && SelectEvent(e)
    requires e.SelWorker? && e.result.Downloaded? ==> e.result.size <= limit
    ensures BodiesWithin(Apply(s, e), limit)
  {
    match e
    case SelCommand => CommandKeepsWithin(s, limit);
    case SelWorker(id, result) => WorkerKeepsWithin(s, id, result, limit);
    case SelHangup =>
      var c := s.core.(cmdClosed := true, closing := true);
      CloseOverKeepsWithin(s.(pc := DrainAcks), if c.dispatcherUp then c else c.(restartRequested := true), limit);
    case SelYield =>
    case SelAck =>
    case ShutJoin =>
    case ShutDrop =>
  }

  lemma OtherKeepsWithin(s: State, e: Event, limit: nat)
    requires Enabled(s, e) && BodiesWithin(s, limit) && !TurnEvent(e) && !SelectEvent(e)
    ensures BodiesWithin(Apply(s, e), limit)
  {}

  lemma {:induction false} RunKeepsWithin(s: State, run: seq<Event>, limit: nat)
    requires ValidRun(s, run) && BodiesWithin(s, limit) && SizedRun(run, limit)
    ensures BodiesWithin(Exec(s, run), limit)
    decreases |run|
  {
    if run != [] {
      assert run[0] in run;
      if TurnEvent(run[0]) {
        TurnKeepsWithin(s, run[0], limit);
      } else if SelectEvent(run[0]) {
        SelectKeepsWithin(s, run[0], limit);
      } else {
        OtherKeepsWithin(s, run[0], limit);
      }
      RunKeepsWithin(Apply(s, run[0]), run[1..], limit);
    }
  }

  /** Bytes of undelivered results, and the room active downloads may still fill. */
  function LiveBodyBytes(s: State, limit: nat): nat {
    |s.core.active| * limit + BodyBytes(s.core.terminal) + BodyBytes(Held(s))
  }

  lemma PermitsBoundBodies(s: State, limit: nat)
    requires Permits(s) && BodiesWithin(s, limit)
    ensures LiveBodyBytes(s, limit) <= MAX_CONCURRENCY * limit
  {
    BodyBytesBound(s.core.terminal, limit);
    BodyBytesBound(Held(s), limit);
    var a, b, c := |s.core.active|, Successes(s.core.terminal), Successes(Held(s));
    assert a * limit + b * limit + c * limit == (a + b + c) * limit;
    Scale(a + b + c, MAX_CONCURRENCY, limit);
  }

  /** With bodies collected by the body loop, the live bodies stay within twice the limit at every moment of every run. */
  lemma LiveBodiesBounded(run: seq<Event>, limit: nat)
    requires ValidRun(Init, run) && CollectedRun(run, limit)
    ensures LiveBodyBytes(Exec(Init, run), limit) <= MAX_CONCURRENCY * limit
  {
    forall e | e in run && e.SelWorker? && e.result.Downloaded? ensures e.result.size <= limit {
      assert Collectable(e.result.size, limit);
    }
    InitInv();
    RunKeepsInv(Init, run);
    assert Held(Init) == [];
    RunKeepsWithin(Init, run, limit);
    PermitsBoundBodies(Exec(Init, run), limit);
  }

  // ---------------------------------------------------------------- tasks accepted after a close

  lemma {:induction false} ExtendRun(s: State, run: seq<Event>, e: Event)
    requires ValidRun(s, run) && Enabled(Exec(s, run), e)
    ensures ValidRun(s, run + [e]) && Exec(s, run + [e]) == Apply(Exec(s, run), e)
    decreases |run|
  {
    if run == [] {
      assert run + [e] == [e] && [e][1..] == [];
    } else {
      assert (run + [e])[1..] == run[1..] + [e];
      ExtendRun(Apply(s, run[0]), run[1..], e);
    }
  }

  lemma ReachNext(s: State, e: Event)
    requires Reachable(s) && Enabled(s, e)
    ensures Reachable(Apply(s, e))
  {
    var run :| ValidRun(Init, run) && Exec(Init, run) == s;
    ExtendRun(Init, run, e);
  }

  predicate Quiet(s: State) {
    && s.acks == [] && s.thread.Idle? && s.core.dispatcherUp && s.core.pending == [] && s.core.terminal == []
  }

  lemma QuietFirstHalf(s: State)
    requires Reachable(s) && Quiet(s) && s.pc.DrainAcks?
    ensures Reachable(s.(pc := Flush))
  {
    ReachNext(s, SchedDrain);
    assert DoDrain(s) == s.(pc := CheckDispatcher);
    ReachNext(s.(pc := CheckDispatcher), SchedCheck);
    ReachNext(s.(pc := RestartDispatcher), SchedRestart(true));
  }

  lemma QuietSecondHalf(s: State)
    requires Reachable(s) && Quiet(s) && s.pc.Flush?
    ensures Reachable(s.(pc := ExitTest))
  {
    ReachNext(s, SchedFlush);
    ReachNext(s.(pc := Launch), SchedLaunch);
    ReachNext(s.(pc := ReplyRetryable), SchedRetryable);
  }

  /** Through one turn of a loop that has nothing to do, up to its exit test. */
  lemma QuietTurn(s: State)
    requires Reachable(s) && Quiet(s) && s.pc.DrainAcks?
    ensures Reachable(s.(pc := ExitTest))
  {
    QuietFirstHalf(s);
    QuietSecondHalf(s.(pc := Flush));
  }

  /** Nothing dies and nobody drops the executor. */
  predicate FaultFree(run: seq<Event>) { forall e :: e in run ==> !e.ThCrash? && !e.DropSenders? }

  /** The promise does not reach tasks accepted after the close request was sent: this one is accepted
      before the `Complete` answer and is dropped with the command queue, never called back. */
  lemma LateTaskIsDiscarded() returns (s: State, run: seq<Event>)
    ensures Reachable(s) && 7 in s.accepted && s.answers == []
    ensures ValidRun(s, run) && FaultFree(run)
    ensures var t := Exec(s, run);
            t.answers == [Answer(CloseRequest(0, {}), Complete(true))] && JobTimes(t.calls, 7) == 0 && t.discarded == [7]
  {
    var a := CloseSent();
    var b := CloseReceived(a);
    s := AcceptLate(b);
    run := FinishLate(s);
  }

  lemma CloseSent() returns (a: State)
    ensures Reachable(a) && a == Init.(cmds := [Close(Some(CloseRequest(0, {})))], pc := ExitTest)
  {
    assert ValidRun(Init, []) && Exec(Init, []) == Init;
    ReachNext(Init, SendClose(Some(0)));
    QuietTurn(Init.(cmds := [Close(Some(CloseRequest(0, {})))]));
    a := Init.(cmds := [Close(Some(CloseRequest(0, {})))], pc := ExitTest);
  }

  lemma CloseReceived(a: State) returns (b: State)
    requires Reachable(a) && a == Init.(cmds := [Close(Some(CloseRequest(0, {})))], pc := ExitTest)
    ensures Reachable(b) && b == Init.(core := EmptyCore.(responder := Some(CloseRequest(0, {})), closing := true))
  {
    ReachNext(a, SchedExit);
    ReachNext(a.(pc := Select), SelCommand);
    b := Init.(core := EmptyCore.(responder := Some(CloseRequest(0, {})), closing := true));
    assert DoCommand(a.(pc := Select)) == b;
  }

  lemma AcceptLate(b: State) returns (s: State)
    requires Reachable(b) && b == Init.(core := EmptyCore.(responder := Some(CloseRequest(0, {})), closing := true))
    ensures Reachable(s)
    ensures s == b.(pc := ExitTest, cmds := [Enqueue(7)], accepted := {7}, outstanding := 1, registry := {7})
  {
    ReachNext(b, BeginEnqueue(7));
    var d := b.(entering := {7}, outstanding := 1, registry := {7});
    assert DoAdmit(b, 7) == d;
    ReachNext(d, SendEnqueue(7));
    var e := b.(cmds := [Enqueue(7)], accepted := {7}, outstanding := 1, registry := {7});
    assert DoAccept(d, 7) == e;
    QuietTurn(e);
    s := e.(pc := ExitTest);
  }

  lemma FinishLate(s: State) returns (run: seq<Event>)
    requires s == Init.(core := EmptyCore.(responder := Some(CloseRequest(0, {})), closing := true),
                        pc := ExitTest, cmds := [Enqueue(7)], accepted := {7}, outstanding := 1, registry := {7})
    ensures ValidRun(s, run) && FaultFree(run)
    ensures var t := Exec(s, run);
            t.answers == [Answer(CloseRequest(0, {}), Complete(true))] && JobTimes(t.calls, 7) == 0 && t.discarded == [7]
  {
    var a := s.(pc := Shutdown);
    var b := a.(thread := Finished(false));
    assert Apply(s, SchedExit) == a;
    assert Apply(a, ThHangup) == b;
    run := [SchedExit, ThHangup, ShutJoin, ShutDrop];
    JoinAndDrop(b);
    ChainRun(s, SchedExit, [ThHangup, ShutJoin, ShutDrop]);
    ChainRun(a, ThHangup, [ShutJoin, ShutDrop]);
  }

  lemma JoinAndDrop(b: State)
    requires b == Init.(core := EmptyCore.(responder := Some(CloseRequest(0, {})), closing := true), thread := Finished(false),
                        pc := Shutdown, cmds := [Enqueue(7)], accepted := {7}, outstanding := 1, registry := {7})
    ensures ValidRun(b, [ShutJoin, ShutDrop])
    ensures var t := Exec(b, [ShutJoin, ShutDrop]);
            t.answers == [Answer(CloseRequest(0, {}), Complete(true))] && JobTimes(t.calls, 7) == 0 && t.discarded == [7]
  {
    var c := b.(core := b.core.(responder := None), answers := [Answer(CloseRequest(0, {}), Complete(true))], pc := Replied);
    assert Apply(b, ShutJoin) == c;
    assert EnqueuedIds(b.cmds) == [7];
    ChainRun(b, ShutJoin, [ShutDrop]);
    ChainRun(c, ShutDrop, []);
  }

  lemma ChainRun(s: State, e: Event, rest: seq<Event>)
    requires Enabled(s, e)
    ensures ValidRun(Apply(s, e), rest) ==> ValidRun(s, [e] + rest) && Exec(s, [e] + rest) == Exec(Apply(s, e), rest)
  {
    assert ([e] + rest)[1..] == rest;
  }
}
