/** When the scheduler has returned, which accepted tasks were called back. */
module BinarySchedulerGate {
  import opened BinaryScheduler
  import opened BinarySchedulerSafety
  import opened BinarySchedulerSteps
  import opened BinarySchedulerControl
  import opened BinarySchedulerRuns
  import opened BinarySchedulerTurns

  // ---------------------------------------------------------------- clients that stop enqueueing when they close

  /** No task is handed over once a close request has been sent or the executor dropped (`sent`: that has happened). */
  predicate Gated(run: seq<Event>, sent: bool)
    decreases |run|
  {
    run == [] || (!(sent && run[0].SendEnqueue?) && Gated(run[1..], Sent(sent, run[0])))
  }

  predicate Sent(sent: bool, e: Event) { sent || e.SendClose? || e.DropSenders? }

  /** No `Enqueue` stands behind a `Close`. */
  predicate CloseLast(cmds: seq<Command>) {
    cmds == [] || ((cmds[0].Close? ==> EnqueuedIds(cmds) == []) && CloseLast(cmds[1..]))
  }

  predicate NoClose(cmds: seq<Command>) { cmds == [] || (!cmds[0].Close? && NoClose(cmds[1..])) }

  /** The loop is on its way out: only a received close (or hang-up) gets it there. */
  predicate Leaving(c: Core) { c.closing && (c.dispatcherUp || c.restartRequested) }

  predicate GateInv(s: State, sent: bool) {
    && CloseLast(s.cmds)
    && (!sent ==> NoClose(s.cmds) && !Leaving(s.core) && !PastLoop(s) && s.sendersAlive)
    && (Leaving(s.core) || PastLoop(s) ==> EnqueuedIds(s.cmds) == [])
    && s.discarded == []
  }

  lemma {:induction false} AppendEnqueue(cmds: seq<Command>, id: TaskId)
    requires CloseLast(cmds) && NoClose(cmds)
    ensures CloseLast(cmds + [Enqueue(id)]) && NoClose(cmds + [Enqueue(id)])
  {
    if cmds != [] {
      assert (cmds + [Enqueue(id)])[1..] == cmds[1..] + [Enqueue(id)];
      AppendEnqueue(cmds[1..], id);
    }
  }

  lemma {:induction false} AppendOther(cmds: seq<Command>, c: Command)
    requires CloseLast(cmds) && !c.Enqueue?
    ensures CloseLast(cmds + [c]) && EnqueuedIds(cmds + [c]) == EnqueuedIds(cmds)
    ensures NoClose(cmds) && !c.Close? ==> NoClose(cmds + [c])
  {
    EnqueuedIdsConcat(cmds, [c]);
    assert EnqueuedIds([c]) == [];
    if cmds != [] {
      assert (cmds + [c])[1..] == cmds[1..] + [c];
      AppendOther(cmds[1..], c);
    }
  }

  lemma GateClient(s: State, e: Event, sent: bool)
    requires Flags(s) && Enabled(s, e) && GateInv(s, sent) && !TurnEvent(e) && !SelectEvent(e)
    requires !(sent && e.SendEnqueue?)
    ensures GateInv(Apply(s, e), Sent(sent, e))
  {
    match e
    case SendEnqueue(id) => AppendEnqueue(s.cmds, id);
    case SendCancel(id) => AppendOther(s.cmds, Cancel(id));
    case SendClose(ticket) => AppendOther(s.cmds, CloseCommand(s, ticket));
    case _ =>
  }

  /** No stage of a turn sends the loop on its way out; only one already on it, or hung up, gets past it. */
  lemma EarlyNeverLeaves(s: State, e: Event)
    requires Turns(s) && Enabled(s, e) && (e.SchedDrain? || e.SchedCheck? || e.SchedRestart?)
    ensures Leaving(Apply(s, e).core) ==> Leaving(s.core)
    ensures !PastLoop(Apply(s, e))
  {}

  lemma LateNeverLeaves(s: State, e: Event)
    requires Enabled(s, e) && (e.SchedFlush? || e.SchedLaunch? || e.SchedRetryable? || e.SchedExit?)
    ensures Leaving(Apply(s, e).core) ==> Leaving(s.core)
    ensures PastLoop(Apply(s, e)) ==> Leaving(s.core) || s.core.cmdClosed
  {
    if e.SchedLaunch? { LaunchFrame(s.core, s.bodyFree); }
  }

  lemma TurnFrame(s: State, e: Event)
    requires Enabled(s, e) && TurnEvent(e)
    ensures var t := Apply(s, e); t.cmds == s.cmds && t.discarded == s.discarded && t.sendersAlive == s.sendersAlive
  {}

  lemma TurnNeverLeaves(s: State, e: Event)
    requires Turns(s) && Enabled(s, e) && TurnEvent(e)
    ensures Leaving(Apply(s, e).core) ==> Leaving(s.core)
    ensures PastLoop(Apply(s, e)) ==> Leaving(s.core) || s.core.cmdClosed
  {
    if e.SchedDrain? || e.SchedCheck? || e.SchedRestart? { EarlyNeverLeaves(s, e); } else { LateNeverLeaves(s, e); }
  }

  lemma GateTurn(s: State, e: Event, sent: bool)
    requires Flags(s) && Turns(s) && Enabled(s, e) && GateInv(s, sent) && TurnEvent(e)
    ensures GateInv(Apply(s, e), sent)
  {
    TurnFrame(s, e);
    TurnNeverLeaves(s, e);
  }

  lemma GatePop(cmds: seq<Command>)
    requires CloseLast(cmds) && cmds != []
    ensures CloseLast(cmds[1..]) && (NoClose(cmds) ==> NoClose(cmds[1..]) && !cmds[0].Close?)
    ensures EnqueuedIds(cmds) == [] || cmds[0].Close? ==> EnqueuedIds(cmds[1..]) == []
  {}

  lemma GateCommand(s: State, sent: bool)
    requires Flags(s) && Enabled(s, SelCommand) && GateInv(s, sent)
    ensures GateInv(DoCommand(s), sent)
  {
    var c := s.cmds[0];
    var t := DoCommand(s);
    GatePop(s.cmds);
    assert t.cmds == s.cmds[1..] && t.discarded == s.discarded && t.pc == DrainAcks;
    if c.Cancel? {
      CancelSizes(s.core, c.id, CancelTask(s.core, c.id).0);
      assert Leaving(t.core) == Leaving(s.core);
    } else if c.Enqueue? {
      assert Leaving(t.core) == Leaving(s.core);
    }
  }

  lemma GateSelect(s: State, e: Event, sent: bool)
    requires Flags(s) && Enabled(s, e) && GateInv(s, sent) && SelectEvent(e)
    ensures GateInv(Apply(s, e), sent)
  {
    if e.SelCommand? { GateCommand(s, sent); }
  }

  lemma StepKeepsGate(s: State, e: Event, sent: bool)
    requires LoopInv(s) && Turns(s) && Enabled(s, e) && GateInv(s, sent) && !(sent && e.SendEnqueue?)
    ensures GateInv(Apply(s, e), Sent(sent, e))
  {
    if TurnEvent(e) { GateTurn(s, e, sent); } else if SelectEvent(e) { GateSelect(s, e, sent); } else { GateClient(s, e, sent); }
  }

  function SentBy(run: seq<Event>, sent: bool): bool
    decreases |run|
  {
    if run == [] then sent else SentBy(run[1..], Sent(sent, run[0]))
  }

  lemma {:induction false} SentStays(run: seq<Event>)
    ensures SentBy(run, true)
    decreases |run|
  {
    if run != [] { SentStays(run[1..]); }
  }

  lemma {:induction false} NothingSentIsGated(run: seq<Event>)
    requires !SentBy(run, false)
    ensures Gated(run, false)
    decreases |run|
  {
    if run != [] {
      if Sent(false, run[0]) { SentStays(run[1..]); } else { NothingSentIsGated(run[1..]); }
    }
  }

  lemma {:induction false} RunKeepsGate(s: State, run: seq<Event>, sent: bool)
    requires Inv(s) && Turns(s) && ValidRun(s, run) && Gated(run, sent) && GateInv(s, sent)
    ensures GateInv(Exec(s, run), SentBy(run, sent))
    decreases |run|
  {
    if run != [] {
      StepKeepsGate(s, run[0], sent);
      StepKeepsInv(s, run[0]);
      StepKeepsTurns(s, run[0]);
      RunKeepsGate(Apply(s, run[0]), run[1..], Sent(sent, run[0]));
    }
  }

  /** A client that hands over no task after sending a close leaves none in the queue: when the scheduler has returned,
      after any run at all, every accepted task was called back exactly once or lost with a thread that died. */
  lemma GatedClientIsAccountedFor(run: seq<Event>, id: TaskId)
    requires ValidRun(Init, run) && Gated(run, false) && Exec(Init, run).pc.Done?
    requires id in Exec(Init, run).accepted
    ensures JobTimes(Exec(Init, run).calls, id) + Times(Exec(Init, run).lost, id) == 1
  {
    InitInv();
    RunKeepsGate(Init, run, false);
    ReturnAccountsForEveryTask(run, id);
  }

  /** And unless a job was lost, every accepted task was called back exactly once. */
  lemma GatedClientLosesNothing(run: seq<Event>, id: TaskId)
    requires ValidRun(Init, run) && Lossless(Init, run) && Gated(run, false) && Exec(Init, run).pc.Done?
    requires id in Exec(Init, run).accepted
    ensures JobTimes(Exec(Init, run).calls, id) == 1
  {
    InitInv();
    RunLosesNothing(Init, run);
    GatedClientIsAccountedFor(run, id);
  }
}
