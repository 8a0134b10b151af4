/** Theorems about every run of the binary scheduler. */
module BinarySchedulerRuns {
  import opened BinaryScheduler
  import opened BinarySchedulerSafety
  import opened BinarySchedulerSteps
  import opened BinarySchedulerControl

  ghost predicate Inv(s: State) { LoopInv(s) && forall id :: TaskInv(s, id) }

  ghost predicate Reachable(s: State) { exists run :: ValidRun(Init, run) && Exec(Init, run) == s }

  predicate TurnEvent(e: Event) {
    e.SchedDrain? || e.SchedCheck? || e.SchedRestart? || e.SchedFlush? || e.SchedLaunch? || e.SchedRetryable? || e.SchedExit?
  }

  predicate SelectEvent(e: Event) {
    e.SelYield? || e.SelCommand? || e.SelHangup? || e.SelWorker? || e.SelAck? || e.ShutJoin? || e.ShutDrop?
  }

  lemma TurnKeepsTask(s: State, e: Event, id: TaskId)
    requires LoopInv(s) && TaskInv(s, id) && Enabled(s, e) && TurnEvent(e)
    ensures TaskInv(Apply(s, e), id)
  {
    match e
    case SchedDrain => TaskDrain(s, id);
    case SchedCheck => TaskCheck(s, id);
    case SchedRestart(ok) => TaskRestart(s, ok, id);
    case SchedFlush => TaskFlush(s, id);
    case SchedLaunch => TaskLaunch(s, id);
    case SchedRetryable => TaskRetryable(s, id);
    case SchedExit => TaskFrame(s, Apply(s, e), id);
  }

  lemma SelectKeepsTask(s: State, e: Event, id: TaskId)
    requires LoopInv(s) && TaskInv(s, id) && Enabled(s, e) && SelectEvent(e)
    ensures TaskInv(Apply(s, e), id)
  {
    match e
    case SelYield => TaskFrame(s, Apply(s, e), id);
    case SelCommand => TaskCommand(s, id);
    case SelHangup => TaskHangup(s, id);
    case SelWorker(x, result) => TaskWorker(s, x, result, id);
    case SelAck => TaskAck(s, id);
    case ShutJoin => TaskJoin(s, id);
    case ShutDrop => TaskDrop(s, id);
  }

  lemma OtherKeepsTask(s: State, e: Event, id: TaskId)
    requires Inv(s) && Enabled(s, e) && !TurnEvent(e) && !SelectEvent(e)
    ensures TaskInv(Apply(s, e), id)
  {
    assert TaskInv(s, id);
    match e
    case BeginEnqueue(x) => TaskAdmit(s, x, id);
    case SendEnqueue(x) => assert TaskInv(s, x); TaskAccept(s, x, id);
    case FailEnqueue(x) => assert TaskInv(s, x); TaskRefuse(s, x, id);
    case SendCancel(x) => TaskSend(s, Cancel(x), id);
    case SendClose(ticket) => TaskSend(s, CloseCommand(s, ticket), id);
    case DropSenders => TaskFrame(s, Apply(s, e), id);
    case ThRecv => TaskRecv(s, id);
    case ThRun => TaskRun(s, id);
    case ThAck => TaskAcknowledge(s, Idle, id);
    case ThUnplug => TaskUnplug(s, id);
    case ThAckExit => TaskAcknowledge(s, Finished(false), id);
    case ThHangup => TaskStop(s, id);
    case ThCrash => TaskCrash(s, id);
  }

  lemma StepKeepsTask(s: State, e: Event, id: TaskId)
    requires Inv(s) && Enabled(s, e)
    ensures TaskInv(Apply(s, e), id)
  {
    assert TaskInv(s, id);
    if TurnEvent(e) { TurnKeepsTask(s, e, id); } else if SelectEvent(e) { SelectKeepsTask(s, e, id); } else { OtherKeepsTask(s, e, id); }
  }

  lemma TaskStop(s: State, id: TaskId)
    requires TaskInv(s, id) && s.thread.Idle? && s.chan == []
    ensures TaskInv(s.(thread := Finished(false)), id)
  {}

  lemma LoopDropSenders(s: State)
    requires LoopInv(s) && s.entering == {}
    ensures LoopInv(s.(sendersAlive := false))
  {}

  lemma LoopYield(s: State)
    requires LoopInv(s) && s.pc.Select?
    ensures LoopInv(s.(pc := DrainAcks))
  {}

  lemma LoopStop(s: State)
    requires LoopInv(s) && s.thread.Idle? && s.chan == []
    ensures LoopInv(s.(thread := Finished(false)))
  {}

  lemma StepKeepsLoop(s: State, e: Event)
    requires Inv(s) && Enabled(s, e)
    ensures LoopInv(Apply(s, e))
  {
    match e
    case BeginEnqueue(x) => LoopAdmit(s, x);
    case SendEnqueue(x) => LoopAccept(s, x);
    case FailEnqueue(x) => LoopRefuse(s, x);
    case SendCancel(x) => LoopSend(s, Cancel(x));
    case SendClose(ticket) => LoopSend(s, CloseCommand(s, ticket));
    case DropSenders => LoopDropSenders(s);
    case SchedDrain => LoopDrain(s);
    case SchedCheck => LoopCheck(s);
    case SchedRestart(ok) => LoopRestart(s, ok);
    case SchedFlush => LoopFlush(s);
    case SchedLaunch => LoopLaunch(s);
    case SchedRetryable => LoopRetryable(s);
    case SchedExit => LoopExit(s);
    case SelYield => LoopYield(s);
    case SelCommand => LoopCommand(s);
    case SelHangup => LoopHangup(s);
    case SelWorker(x, result) => LoopWorker(s, x, result);
    case SelAck => LoopAck(s);
    case ShutJoin => LoopJoin(s);
    case ShutDrop => LoopDrop(s);
    case ThRecv => LoopRecv(s);
    case ThRun => LoopRun(s);
    case ThAck => LoopAcknowledge(s, Idle);
    case ThUnplug => LoopUnplug(s);
    case ThAckExit => LoopAcknowledge(s, Finished(false));
    case ThHangup => LoopStop(s);
    case ThCrash => LoopCrash(s);
  }

  lemma StepKeepsInv(s: State, e: Event)
    requires Inv(s) && Enabled(s, e)
    ensures Inv(Apply(s, e))
  {
    StepKeepsLoop(s, e);
    forall id ensures TaskInv(Apply(s, e), id) { StepKeepsTask(s, e, id); }
  }

  lemma {:induction false} RunKeepsInv(s: State, run: seq<Event>)
    requires Inv(s) && ValidRun(s, run)
    ensures Inv(Exec(s, run))
    decreases |run|
  {
    if run != [] {
      StepKeepsInv(s, run[0]);
      RunKeepsInv(Apply(s, run[0]), run[1..]);
    }
  }

  lemma InitInv()
    ensures Inv(Init)
  {}

  lemma ReachableInv(s: State)
    requires Reachable(s)
    ensures Inv(s)
  {
    var run :| ValidRun(Init, run) && Exec(Init, run) == s;
    InitInv();
    RunKeepsInv(Init, run);
  }

  // ---------------------------------------------------------------- one place, one callback

  /** An accepted task is in exactly one place, and its callback has run at most once. */
  lemma OnePlaceAlways(s: State, id: TaskId)
    requires Reachable(s)
    ensures id in s.accepted ==>
              CmdTimes(s.cmds, id) + Times(s.core.pending, id) + Bit(id in s.core.active) +
              JobTimes(s.core.terminal, id) + JobTimes(Held(s), id) + JobTimes(s.calls, id) +
              Times(s.lost, id) + Times(s.discarded, id) == 1
    ensures id !in s.accepted ==> JobTimes(s.calls, id) == 0
    ensures id in s.accepted && JobTimes(s.calls, id) + Times(s.lost, id) + Times(s.discarded, id) == 0 ==>
              id in s.registry
  {
    ReachableInv(s);
    assert TaskInv(s, id);
  }

  /** At most one job is in flight between the scheduler and its dispatcher. */
  lemma AtMostOneInFlight(s: State)
    requires Reachable(s)
    ensures InFlight(s) <= s.core.inflight <= 1
    ensures !FlushOutcome(s.core, ReceiverAlive(s.thread), |s.chan|).FlushFull?
  {
    ReachableInv(s);
    ChannelNeverFull(s);
  }

  // ---------------------------------------------------------------- what a close answer means

  /** In any run at all, a `Complete` answer accounts for every task accepted before that close was sent: it was called
      back exactly once, or it went down with a thread or executor that died. */
  lemma CompleteAccountsForEveryTask(run: seq<Event>, a: Answer, id: TaskId)
    requires ValidRun(Init, run)
    requires a in Exec(Init, run).answers && a.reply.Complete? && id in a.request.before
    ensures JobTimes(Exec(Init, run).calls, id) + Times(Exec(Init, run).lost, id) == 1
  {
    InitInv();
    RunKeepsInv(Init, run);
    assert TaskInv(Exec(Init, run), id);
  }

  /** When the scheduler has returned, after any run at all, every accepted task was called back exactly once, was lost
      with a thread or executor that died, or was left in the command queue. */
  lemma ReturnAccountsForEveryTask(run: seq<Event>, id: TaskId)
    requires ValidRun(Init, run) && Exec(Init, run).pc.Done? && id in Exec(Init, run).accepted
    ensures JobTimes(Exec(Init, run).calls, id) + Times(Exec(Init, run).lost, id) + Times(Exec(Init, run).discarded, id) == 1
  {
    var s := Exec(Init, run);
    InitInv();
    RunKeepsInv(Init, run);
    assert TaskInv(s, id);
    assert Held(s) == [];
  }

  /** The two steps that take a job away uncalled: the dispatcher dies holding one, or an executor that was dropped
      without a close finds no dispatcher. A panic between jobs is neither. */
  predicate Loses(s: State, e: Event) {
    (e.ThCrash? && Held(s) != []) || (e.SchedRetryable? && s.core.cmdClosed && !s.core.dispatcherUp)
  }

  predicate Lossless(s: State, run: seq<Event>)
    requires ValidRun(s, run)
    decreases |run|
  {
    run == [] || (!Loses(s, run[0]) && Lossless(Apply(s, run[0]), run[1..]))
  }

  lemma TurnLosesNothing(s: State, e: Event)
    requires Enabled(s, e) && !Loses(s, e) && TurnEvent(e)
    ensures Apply(s, e).lost == s.lost
  {}

  lemma SelectLosesNothing(s: State, e: Event)
    requires Enabled(s, e) && SelectEvent(e)
    ensures Apply(s, e).lost == s.lost
  {}

  lemma OtherLosesNothing(s: State, e: Event)
    requires Handshake(s) && Enabled(s, e) && !Loses(s, e) && !TurnEvent(e) && !SelectEvent(e)
    ensures Apply(s, e).lost == s.lost
  {
    if e.ThUnplug? { assert s.chan == [] && JobIds(s.chan) == []; }
    if e.ThCrash? { assert JobIds(Held(s)) == []; }
  }

  lemma StepLosesNothing(s: State, e: Event)
    requires Handshake(s) && Enabled(s, e) && !Loses(s, e)
    ensures Apply(s, e).lost == s.lost
  {
    if TurnEvent(e) { TurnLosesNothing(s, e); } else if SelectEvent(e) { SelectLosesNothing(s, e); } else { OtherLosesNothing(s, e); }
  }

  lemma {:induction false} RunLosesNothing(s: State, run: seq<Event>)
    requires Inv(s) && ValidRun(s, run) && Lossless(s, run)
    ensures Exec(s, run).lost == s.lost
    decreases |run|
  {
    if run != [] {
      StepLosesNothing(s, run[0]);
      StepKeepsInv(s, run[0]);
      RunLosesNothing(Apply(s, run[0]), run[1..]);
    }
  }

  /** Unless a job was lost, a `Complete` answer means that every task accepted before that close was sent has been called
      back exactly once: with exits and panics between jobs, failed and successful restarts, and retried closes. */
  lemma CompleteMeansCalledBack(run: seq<Event>, a: Answer, id: TaskId)
    requires ValidRun(Init, run) && Lossless(Init, run)
    requires a in Exec(Init, run).answers && a.reply.Complete? && id in a.request.before
    ensures JobTimes(Exec(Init, run).calls, id) == 1
  {
    InitInv();
    RunLosesNothing(Init, run);
    CompleteAccountsForEveryTask(run, a, id);
  }

  /** The dispatcher that the scheduler joins on its way out had panicked. */
  predicate PanicsAtJoin(s: State, e: Event) {
    e.ShutJoin? && s.core.dispatcherUp && s.thread.Finished? && s.thread.panicked
  }

  predicate JoinsQuietly(s: State, run: seq<Event>)
    requires ValidRun(s, run)
    decreases |run|
  {
    run == [] || (!PanicsAtJoin(s, run[0]) && JoinsQuietly(Apply(s, run[0]), run[1..]))
  }

  predicate NoErrors(s: State) {
    && (forall a :: a in s.answers ==> a.reply != Complete(false))
    && (PastLoop(s) && !s.core.dispatcherUp ==> s.core.responder.None?)
  }

  lemma RetryableKeepsNoErrors(s: State)
    requires NoErrors(s) && s.pc.ReplyRetryable?
    ensures NoErrors(DoRetryable(s))
  {}

  lemma TurnKeepsNoErrors(s: State, e: Event)
    requires Enabled(s, e) && NoErrors(s) && TurnEvent(e)
    ensures NoErrors(Apply(s, e))
  {
    if e.SchedRetryable? { RetryableKeepsNoErrors(s); } else { assert Apply(s, e).answers == s.answers; }
    if e.SchedLaunch? { LaunchFrame(s.core, s.bodyFree); }
  }

  lemma SelectKeepsNoErrors(s: State, e: Event)
    requires Flags(s) && Enabled(s, e) && NoErrors(s) && SelectEvent(e) && !PanicsAtJoin(s, e)
    ensures NoErrors(Apply(s, e))
  {
    assert !e.ShutJoin? ==> Apply(s, e).answers == s.answers;
  }

  lemma OtherKeepsNoErrors(s: State, e: Event)
    requires Enabled(s, e) && NoErrors(s) && !TurnEvent(e) && !SelectEvent(e)
    ensures NoErrors(Apply(s, e))
  {
    assert Apply(s, e).answers == s.answers && Apply(s, e).core == s.core && Apply(s, e).pc == s.pc;
  }

  lemma StepKeepsNoErrors(s: State, e: Event)
    requires Flags(s) && Enabled(s, e) && NoErrors(s) && !PanicsAtJoin(s, e)
    ensures NoErrors(Apply(s, e))
  {
    if TurnEvent(e) { TurnKeepsNoErrors(s, e); } else if SelectEvent(e) { SelectKeepsNoErrors(s, e); } else { OtherKeepsNoErrors(s, e); }
  }

  /** A `Complete` answer reports an error only if the dispatcher joined at the end had panicked. */
  lemma {:induction false} CompleteIsOk(s: State, run: seq<Event>)
    requires Inv(s) && NoErrors(s) && ValidRun(s, run) && JoinsQuietly(s, run)
    ensures forall a :: a in Exec(s, run).answers && a.reply.Complete? ==> a.reply.ok
    decreases |run|
  {
    if run != [] {
      StepKeepsNoErrors(s, run[0]);
      StepKeepsInv(s, run[0]);
      CompleteIsOk(Apply(s, run[0]), run[1..]);
    }
  }
}
