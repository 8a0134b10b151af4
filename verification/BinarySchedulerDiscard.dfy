/** Which hand-overs can be dropped uncalled: exactly those that come after a close that is still under way. */
module BinarySchedulerDiscard {
  import opened BinaryScheduler
  import opened BinarySchedulerSafety
  import opened BinarySchedulerSteps
  import opened BinarySchedulerControl
  import opened BinarySchedulerRuns
  import opened BinarySchedulerTurns
  import opened BinarySchedulerGate
  import opened BinarySchedulerDrain

  /** A close is in the queue, or received and not answered "retry". */
  predicate CloseUnderWay(s: State) { Leaving(s.core) || PastLoop(s) || !NoClose(s.cmds) }

  /** Whether some continuation drops the task with the command queue. */
  ghost predicate CanBeDiscarded(s: State, id: TaskId) { exists run :: DiscardedBy(s, run, id) }

  predicate DiscardedBy(s: State, run: seq<Event>, id: TaskId) { ValidRun(s, run) && id in Exec(s, run).discarded }

  // ---------------------------------------------------------------- no close under way: never discarded

  /** No `Close` stands before the `Enqueue` of the task. */
  predicate Ahead(cmds: seq<Command>, id: TaskId) {
    cmds == [] || cmds[0] == Enqueue(id) || (if cmds[0].Close? then CmdTimes(cmds[1..], id) == 0 else Ahead(cmds[1..], id))
  }

  predicate Safe(s: State, id: TaskId) {
    && id in s.accepted && id !in s.discarded
    && (0 < CmdTimes(s.cmds, id) ==> Ahead(s.cmds, id) && !Leaving(s.core) && !PastLoop(s))
  }

  lemma {:induction false} AheadAppend(cmds: seq<Command>, c: Command, id: TaskId)
    requires Ahead(cmds, id) && c != Enqueue(id)
    ensures Ahead(cmds + [c], id) && CmdTimes(cmds + [c], id) == CmdTimes(cmds, id)
  {
    CmdTimesConcat(cmds, [c], id);
    assert CmdTimes([c], id) == 0;
    if cmds == [] {
      assert cmds + [c] == [c] && [c][1..] == [];
    } else {
      assert (cmds + [c])[1..] == cmds[1..] + [c];
      if cmds[0].Close? { CmdTimesConcat(cmds[1..], [c], id); } else if cmds[0] != Enqueue(id) { AheadAppend(cmds[1..], c, id); }
    }
  }

  lemma {:induction false} NoCloseAhead(cmds: seq<Command>, id: TaskId)
    requires NoClose(cmds)
    ensures Ahead(cmds + [Enqueue(id)], id)
  {
    if cmds == [] {
      assert cmds + [Enqueue(id)] == [Enqueue(id)];
    } else {
      assert (cmds + [Enqueue(id)])[1..] == cmds[1..] + [Enqueue(id)];
      NoCloseAhead(cmds[1..], id);
    }
  }

  lemma OtherKeepsSafe(s: State, e: Event, id: TaskId)
    requires TaskInv(s, id) && Safe(s, id) && Enabled(s, e) && !TurnEvent(e) && !SelectEvent(e)
    ensures Safe(Apply(s, e), id)
  {
    if 0 < CmdTimes(s.cmds, id) {
      match e
      case SendEnqueue(x) => AheadAppend(s.cmds, Enqueue(x), id);
      case SendCancel(x) => AheadAppend(s.cmds, Cancel(x), id);
      case SendClose(ticket) => AheadAppend(s.cmds, CloseCommand(s, ticket), id);
      case _ =>
    } else {
      var c := match e
               case SendEnqueue(x) => Enqueue(x)
               case SendClose(ticket) => CloseCommand(s, ticket)
               case _ => Cancel(0);
      CmdTimesConcat(s.cmds, [c], id);
      CmdTimesConcat(s.cmds, [if e.SendCancel? then Cancel(e.id) else c], id);
    }
  }

  lemma CommandKeepsSafe(s: State, id: TaskId)
    requires Flags(s) && TaskInv(s, id) && Safe(s, id) && Enabled(s, SelCommand)
    ensures Safe(DoCommand(s), id)
  {
    var c, t := s.cmds[0], DoCommand(s);
    assert t.cmds == s.cmds[1..] && t.accepted == s.accepted && t.discarded == s.discarded && t.pc == DrainAcks;
    if c.Cancel? { CancelSizes(s.core, c.id, CancelTask(s.core, c.id).0); }
    assert !c.Close? ==> Leaving(t.core) == Leaving(s.core);
  }

  lemma SelectKeepsSafe(s: State, e: Event, id: TaskId)
    requires Flags(s) && TaskInv(s, id) && Safe(s, id) && Enabled(s, e) && SelectEvent(e)
    ensures Safe(Apply(s, e), id)
  {
    if e.SelCommand? { CommandKeepsSafe(s, id); }
    if e.ShutDrop? {
      EnqueuedIdsTimes(s.cmds, id);
      TimesZero(EnqueuedIds(s.cmds), id);
    }
  }

  lemma StepKeepsSafe(s: State, e: Event, id: TaskId)
    requires Flags(s) && Turns(s) && TaskInv(s, id) && Safe(s, id) && Enabled(s, e)
    ensures Safe(Apply(s, e), id)
  {
    if TurnEvent(e) {
      TurnFrame(s, e);
      TurnNeverLeaves(s, e);
      TurnAccepts(s, e);
    } else if SelectEvent(e) {
      SelectKeepsSafe(s, e, id);
    } else {
      OtherKeepsSafe(s, e, id);
    }
  }

  lemma TurnAccepts(s: State, e: Event)
    requires Enabled(s, e) && TurnEvent(e)
    ensures Apply(s, e).accepted == s.accepted
  {}

  lemma {:induction false} SafeIsNeverDiscarded(s: State, run: seq<Event>, id: TaskId)
    requires Inv(s) && Turns(s) && Safe(s, id) && ValidRun(s, run)
    ensures id !in Exec(s, run).discarded
    decreases |run|
  {
    if run != [] {
      assert TaskInv(s, id);
      StepKeepsSafe(s, run[0], id);
      StepKeepsInv(s, run[0]);
      StepKeepsTurns(s, run[0]);
      SafeIsNeverDiscarded(Apply(s, run[0]), run[1..], id);
    }
  }

  lemma HandOverIsSafe(s: State, id: TaskId)
    requires Inv(s) && Enabled(s, SendEnqueue(id)) && !CloseUnderWay(s)
    ensures Safe(Apply(s, SendEnqueue(id)), id)
  {
    NoCloseAhead(s.cmds, id);
  }

  // ---------------------------------------------------------------- past the loop: discarded

  lemma Chain(s: State, e: Event, run: seq<Event>, id: TaskId)
    requires Enabled(s, e) && DiscardedBy(Apply(s, e), run, id)
    ensures DiscardedBy(s, [e] + run, id)
  {
    assert ([e] + run)[1..] == run;
  }

  lemma DropDiscards(s: State, id: TaskId)
    requires s.pc.Replied? && 0 < CmdTimes(s.cmds, id)
    ensures DiscardedBy(s, [ShutDrop], id)
  {
    EnqueuedIdsTimes(s.cmds, id);
    TimesZero(EnqueuedIds(s.cmds), id);
    assert [ShutDrop][1..] == [];
  }

  lemma PastLoopDiscards(s: State, id: TaskId) returns (run: seq<Event>)
    requires LoopInv(s) && PastLoop(s) && 0 < CmdTimes(s.cmds, id)
    ensures DiscardedBy(s, run, id)
  {
    var t := s;
    if s.pc.Shutdown? && s.thread.Idle? { t := Apply(s, ThHangup); }
    if s.pc.Shutdown? {
      DropDiscards(Apply(t, ShutJoin), id);
      Chain(t, ShutJoin, [ShutDrop], id);
      run := [ShutJoin] + [ShutDrop];
      if s.thread.Idle? {
        Chain(s, ThHangup, run, id);
        run := [ThHangup] + run;
      }
    } else {
      DropDiscards(s, id);
      run := [ShutDrop];
    }
  }

  // ---------------------------------------------------------------- leaving: can get past the loop without a command

  /** Every job handed over is still accounted for: the dispatcher has not died with one unacknowledged. */
  predicate Accounted(s: State) { InFlight(s) == s.core.inflight }

  predicate Exiting(s: State, id: TaskId) {
    Turns(s) && Accounted(s) && Leaving(s.core) && !PastLoop(s) && 0 < CmdTimes(s.cmds, id)
  }

  /** A finished thread weighs less once the check that reaps it lies ahead. */
  function LeaveThread(t: Thread, pc: Pc): nat {
    match t
    case Unplugged(_) => 7
    case Finished(_) => if pc.DrainAcks? || pc.CheckDispatcher? then 4 else 5
    case Running(_) => 4
    case Returned(_) => 3
    case Absent => 3
    case Idle => 1
  }

  function LeaveRank(s: State): nat {
    16 * (6 * |s.core.active| + 5 * |s.core.terminal| + 4 * |s.chan| + LeaveThread(s.thread, s.pc) + |s.acks|) + Stage(s.pc)
  }

  /** The step goes on leaving, nearer the exit, or is past it. */
  predicate Nearer(s: State, t: State) {
    && t.cmds == s.cmds
    && (PastLoop(t) || (Accounted(t) && Leaving(t.core) && LeaveRank(t) < LeaveRank(s)))
  }

  lemma LeaveDrain(s: State, id: TaskId)
    requires LoopInv(s) && Exiting(s, id) && s.pc.DrainAcks?
    ensures Nearer(s, DoDrain(s))
  {}

  lemma LeaveCheck(s: State, id: TaskId)
    requires LoopInv(s) && Exiting(s, id) && s.pc.CheckDispatcher?
    ensures Nearer(s, DoCheck(s))
  {}

  lemma LeaveRestart(s: State, id: TaskId)
    requires LoopInv(s) && Exiting(s, id) && s.pc.RestartDispatcher?
    ensures Nearer(s, DoRestart(s, true))
  {}

  lemma LeaveFlush(s: State, id: TaskId)
    requires LoopInv(s) && Exiting(s, id) && s.pc.Flush?
    ensures Nearer(s, DoFlush(s))
  {
    ChannelNeverFull(s);
  }

  /** The rest of the turn changes nothing while the loop is leaving. */
  lemma LeaveRest(s: State, id: TaskId)
    requires LoopInv(s) && Exiting(s, id) && (s.pc.Launch? || s.pc.ReplyRetryable? || s.pc.ExitTest?)
    ensures s.pc.Launch? ==> Nearer(s, DoLaunch(s))
    ensures s.pc.ReplyRetryable? ==> Nearer(s, DoRetryable(s))
    ensures s.pc.ExitTest? ==> Nearer(s, DoExit(s))
  {
    assert s.pc.ReplyRetryable? ==> DoRetryable(s) == s.(pc := ExitTest);
    assert DoLaunch(s) == s.(pc := ReplyRetryable);
  }

  lemma LeaveWorker(s: State, id: TaskId, x: TaskId)
    requires LoopInv(s) && Exiting(s, id) && s.pc.Select? && x in s.core.active
    ensures Nearer(s, DoWorker(s, x, Errored))
  {
    assert (s.core.active - {x}).Keys == s.core.active.Keys - {x};
  }

  lemma LeaveWait(s: State, e: Event, id: TaskId)
    requires LoopInv(s) && Exiting(s, id) && Enabled(s, e) && s.pc.Select?
    requires e.ThRecv? || e.ThRun? || e.ThAck? || e.ThAckExit? || e.SelAck? || (e.SelYield? && s.thread.Finished?)
    ensures Nearer(s, Apply(s, e))
  {}

  /** At the select, something other than a command can always happen while the loop is leaving. */
  lemma LeaveSelect(s: State, id: TaskId) returns (e: Event)
    requires LoopInv(s) && Exiting(s, id) && s.pc.Select?
    ensures Enabled(s, e) && Nearer(s, Apply(s, e))
  {
    if s.core.active != map[] {
      var x :| x in s.core.active;
      e := SelWorker(x, Errored);
      LeaveWorker(s, id, x);
    } else {
      if s.core.inflight == 0 {
        e := SelYield;
      } else {
        e := if s.chan != [] then ThRecv else if s.thread.Running? then ThRun else if s.thread.Returned? then ThAck
             else if s.thread.Unplugged? then ThAckExit else SelAck;
      }
      LeaveWait(s, e, id);
    }
  }

  lemma LeaveStep(s: State, id: TaskId) returns (e: Event)
    requires LoopInv(s) && Exiting(s, id)
    ensures Enabled(s, e) && Nearer(s, Apply(s, e))
  {
    if s.pc.Select? {
      e := LeaveSelect(s, id);
    } else {
      e := NextOnTurn(s.pc);
      match s.pc
      case DrainAcks => LeaveDrain(s, id);
      case CheckDispatcher => LeaveCheck(s, id);
      case RestartDispatcher => LeaveRestart(s, id);
      case Flush => LeaveFlush(s, id);
      case _ => LeaveRest(s, id);
    }
  }

  lemma {:induction false} LeavingDiscards(s: State, id: TaskId) returns (run: seq<Event>)
    requires Inv(s) && Exiting(s, id)
    ensures DiscardedBy(s, run, id)
    decreases LeaveRank(s)
  {
    var e := LeaveStep(s, id);
    StepKeepsInv(s, e);
    StepKeepsTurns(s, e);
    var t := Apply(s, e);
    var rest;
    if PastLoop(t) { rest := PastLoopDiscards(t, id); } else { rest := LeavingDiscards(t, id); }
    Chain(s, e, rest, id);
    run := [e] + rest;
  }

  // ---------------------------------------------------------------- a close in the queue: the loop can be made to leave

  /** A `Close` stands before the `Enqueue` of the task. */
  predicate Behind(cmds: seq<Command>, id: TaskId) {
    cmds != [] && (if cmds[0].Close? then 0 < CmdTimes(cmds[1..], id) else cmds[0] != Enqueue(id) && Behind(cmds[1..], id))
  }

  lemma {:induction false} BehindClose(cmds: seq<Command>, id: TaskId)
    requires !NoClose(cmds) && CmdTimes(cmds, id) == 0
    ensures Behind(cmds + [Enqueue(id)], id)
  {
    assert (cmds + [Enqueue(id)])[1..] == cmds[1..] + [Enqueue(id)];
    if cmds[0].Close? {
      CmdTimesConcat(cmds[1..], [Enqueue(id)], id);
      assert CmdTimes([Enqueue(id)], id) == 1;
    } else {
      BehindClose(cmds[1..], id);
    }
  }

  lemma {:induction false} BehindIsQueued(cmds: seq<Command>, id: TaskId)
    requires Behind(cmds, id)
    ensures 0 < CmdTimes(cmds, id)
  {
    if !cmds[0].Close? { BehindIsQueued(cmds[1..], id); }
  }

  /** The next event of a turn that takes no notice of anything else; at the select it receives a command. */
  function NextOnTurn(pc: Pc): Event {
    match pc
    case DrainAcks => SchedDrain
    case CheckDispatcher => SchedCheck
    case RestartDispatcher => SchedRestart(true)
    case Flush => SchedFlush
    case Launch => SchedLaunch
    case ReplyRetryable => SchedRetryable
    case ExitTest => SchedExit
    case _ => SelCommand
  }

  lemma EarlyKeepsAccounted(s: State, e: Event)
    requires Handshake(s) && Accounted(s) && Enabled(s, e) && (e.SchedDrain? || e.SchedCheck? || e == SchedRestart(true))
    ensures Accounted(Apply(s, e)) && Stage(Apply(s, e).pc) < Stage(s.pc)
  {}

  lemma LateKeepsAccounted(s: State, e: Event)
    requires Handshake(s) && Accounted(s) && Enabled(s, e)
    requires e.SchedFlush? || e.SchedLaunch? || e.SchedRetryable? || e.SchedExit?
    ensures Accounted(Apply(s, e)) && Stage(Apply(s, e).pc) < Stage(s.pc)
  {
    if e.SchedLaunch? { LaunchFrame(s.core, s.bodyFree); }
    if e.SchedFlush? { ChannelNeverFull(s); }
  }

  lemma CommandKeepsAccounted(s: State)
    requires Accounted(s) && s.cmds != []
    ensures Accounted(DoCommand(s)) && DoCommand(s).pc == DrainAcks && DoCommand(s).cmds == s.cmds[1..]
    ensures s.cmds[0].Close? ==> Leaving(DoCommand(s).core)
  {
    if s.cmds[0].Cancel? { CancelSizes(s.core, s.cmds[0].id, CancelTask(s.core, s.cmds[0].id).0); }
  }

  lemma {:induction false} QueuedCloseDiscards(s: State, id: TaskId) returns (run: seq<Event>)
    requires Inv(s) && Turns(s) && Accounted(s) && !PastLoop(s) && Behind(s.cmds, id)
    ensures DiscardedBy(s, run, id)
    decreases |s.cmds|, Stage(s.pc)
  {
    var e := NextOnTurn(s.pc);
    BehindIsQueued(s.cmds, id);
    StepKeepsInv(s, e);
    StepKeepsTurns(s, e);
    var t := Apply(s, e);
    var rest;
    if s.pc.Select? {
      CommandKeepsAccounted(s);
      if s.cmds[0].Close? { rest := LeavingDiscards(t, id); } else { rest := QueuedCloseDiscards(t, id); }
    } else {
      if e.SchedDrain? || e.SchedCheck? || e.SchedRestart? { EarlyKeepsAccounted(s, e); } else { LateKeepsAccounted(s, e); }
      TurnFrame(s, e);
      if PastLoop(t) { rest := PastLoopDiscards(t, id); } else { rest := QueuedCloseDiscards(t, id); }
    }
    Chain(s, e, rest, id);
    run := [e] + rest;
  }

  // ---------------------------------------------------------------- the exact condition

  /** After a hand-over while a close is under way, some continuation drops the task uncalled. */
  lemma LateHandOverCanBeDiscarded(s: State, id: TaskId) returns (run: seq<Event>)
    requires Reachable(s) && Accounted(s) && Enabled(s, SendEnqueue(id)) && CloseUnderWay(s)
    ensures DiscardedBy(Apply(s, SendEnqueue(id)), run, id)
  {
    ReachableTurns(s);
    StepKeepsInv(s, SendEnqueue(id));
    StepKeepsTurns(s, SendEnqueue(id));
    var t := DoAccept(s, id);
    assert TaskInv(s, id);
    CmdTimesConcat(s.cmds, [Enqueue(id)], id);
    assert CmdTimes([Enqueue(id)], id) == 1;
    if PastLoop(s) {
      run := PastLoopDiscards(t, id);
    } else if Leaving(s.core) {
      run := LeavingDiscards(t, id);
    } else {
      BehindClose(s.cmds, id);
      run := QueuedCloseDiscards(t, id);
    }
  }

  /** A task handed over while no close is under way is never dropped with the queue, in any continuation at all. */
  lemma EarlyHandOverIsNeverDiscarded(s: State, run: seq<Event>, id: TaskId)
    requires Reachable(s) && Enabled(s, SendEnqueue(id)) && !CloseUnderWay(s) && ValidRun(Apply(s, SendEnqueue(id)), run)
    ensures id !in Exec(Apply(s, SendEnqueue(id)), run).discarded
  {
    ReachableTurns(s);
    HandOverIsSafe(s, id);
    assert id !in s.discarded by { assert TaskInv(s, id); TimesZero(s.discarded, id); }
    StepKeepsInv(s, SendEnqueue(id));
    StepKeepsTurns(s, SendEnqueue(id));
    SafeIsNeverDiscarded(Apply(s, SendEnqueue(id)), run, id);
  }

  /** The exact condition, to be read before the hand-over: the task may be dropped uncalled if and only if a close is
      under way. */
  lemma DiscardedExactlyAfterClose(s: State, id: TaskId)
    requires Reachable(s) && Accounted(s) && Enabled(s, SendEnqueue(id))
    ensures CanBeDiscarded(Apply(s, SendEnqueue(id)), id) <==> CloseUnderWay(s)
  {
    var t := Apply(s, SendEnqueue(id));
    if CloseUnderWay(s) {
      var run := LateHandOverCanBeDiscarded(s, id);
    } else {
      forall run | ValidRun(t, run) ensures !DiscardedBy(t, run, id) { EarlyHandOverIsNeverDiscarded(s, run, id); }
    }
  }

  /** While no close has been sent and the executor lives, none is under way. */
  lemma UnderWayOnlyAfterSent(run: seq<Event>)
    requires ValidRun(Init, run) && !SentBy(run, false)
    ensures !CloseUnderWay(Exec(Init, run))
  {
    InitInv();
    NothingSentIsGated(run);
    RunKeepsGate(Init, run, false);
  }

  /** Answering "retry" ends that close: from then on, until another one, hand-overs are safe again. */
  lemma RetryEndsTheClose(s: State)
    requires Reachable(s) && s.pc.ReplyRetryable? && NoClose(s.cmds) && !s.core.cmdClosed
    requires s.core.closing && !s.core.dispatcherUp && !s.core.restartRequested && s.core.active == map[]
    ensures !CloseUnderWay(DoRetryable(s))
  {}
}
