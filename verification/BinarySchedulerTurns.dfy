/** What holds at each stage of a turn in every reachable state. */
module BinarySchedulerTurns {
  import opened BinaryScheduler
  import opened BinarySchedulerSafety
  import opened BinarySchedulerSteps
  import opened BinarySchedulerControl
  import opened BinarySchedulerRuns

  predicate AfterFlush(pc: Pc) { pc.Launch? || pc.ReplyRetryable? || pc.ExitTest? || pc.Select? }

  /** A restart that was asked for has been tried before the flush; a job that can be sent has been sent by the flush; the
      select is reached only if the loop cannot exit; and a live dispatcher is replaced only with nothing in flight. */
  predicate Turns(s: State) {
    && ((s.pc.Flush? || AfterFlush(s.pc)) && s.core.restartRequested ==> s.core.dispatcherUp)
    && (AfterFlush(s.pc) && s.core.dispatcherUp ==> s.core.terminal == [] || 0 < s.core.inflight || s.core.restartRequested)
    && (s.pc.Select? ==> !ExitReady(s.core))
    && (s.core.dispatcherUp && s.core.restartRequested ==> s.core.inflight == 0 && !ReceiverAlive(s.thread))
  }

  lemma EarlyKeepsTurns(s: State, e: Event)
    requires Handshake(s) && Turns(s) && Enabled(s, e) && (e.SchedDrain? || e.SchedCheck? || e.SchedRestart?)
    ensures Turns(Apply(s, e))
  {}

  lemma LateKeepsTurns(s: State, e: Event)
    requires Handshake(s) && Turns(s) && Enabled(s, e) && (e.SchedFlush? || e.SchedLaunch? || e.SchedRetryable? || e.SchedExit?)
    ensures Turns(Apply(s, e))
  {
    if e.SchedLaunch? { LaunchFrame(s.core, s.bodyFree); }
    if e.SchedFlush? { ChannelNeverFull(s); }
  }

  lemma CommandKeepsTurns(s: State)
    requires Turns(s) && s.pc.Select? && s.cmds != []
    ensures Turns(DoCommand(s))
  {
    if s.cmds[0].Cancel? { CancelSizes(s.core, s.cmds[0].id, CancelTask(s.core, s.cmds[0].id).0); }
  }

  lemma SelectKeepsTurns(s: State, e: Event)
    requires Turns(s) && Enabled(s, e) && SelectEvent(e)
    ensures Turns(Apply(s, e))
  {
    if e.SelCommand? { CommandKeepsTurns(s); }
  }

  lemma OtherKeepsTurns(s: State, e: Event)
    requires Turns(s) && Enabled(s, e) && !TurnEvent(e) && !SelectEvent(e)
    ensures Turns(Apply(s, e))
  {
    var t := Apply(s, e);
    assert t.core == s.core && t.pc == s.pc && (ReceiverAlive(t.thread) ==> ReceiverAlive(s.thread));
  }

  lemma StepKeepsTurns(s: State, e: Event)
    requires Handshake(s) && Turns(s) && Enabled(s, e)
    ensures Turns(Apply(s, e))
  {
    if e.SchedDrain? || e.SchedCheck? || e.SchedRestart? {
      EarlyKeepsTurns(s, e);
    } else if TurnEvent(e) {
      LateKeepsTurns(s, e);
    } else if SelectEvent(e) {
      SelectKeepsTurns(s, e);
    } else {
      OtherKeepsTurns(s, e);
    }
  }

  lemma {:induction false} RunKeepsTurns(s: State, run: seq<Event>)
    requires Inv(s) && Turns(s) && ValidRun(s, run)
    ensures Turns(Exec(s, run)) && Inv(Exec(s, run))
    decreases |run|
  {
    if run != [] {
      StepKeepsTurns(s, run[0]);
      StepKeepsInv(s, run[0]);
      RunKeepsTurns(Apply(s, run[0]), run[1..]);
    }
  }

  lemma ReachableTurns(s: State)
    requires Reachable(s)
    ensures Turns(s) && Inv(s)
  {
    var run :| ValidRun(Init, run) && Exec(Init, run) == s;
    InitInv();
    RunKeepsTurns(Init, run);
  }
}
