/** Draining ends: once a close is received and the dispatcher lives, the scheduler cannot go on
    forever and cannot get stuck before it has answered and returned. */
module BinarySchedulerDrain {
  import opened Results
  import opened BinaryScheduler
  import opened BinarySchedulerSafety
  import opened BinarySchedulerSteps
  import opened BinarySchedulerControl
  import opened BinarySchedulerRuns
  import opened BinarySchedulerTurns

  /** Steps of the scheduler, its workers and a dispatcher that does not exit; no client steps. */
  predicate DrainEvent(e: Event) {
    TurnEvent(e) || (SelectEvent(e) && !e.SelYield?) || e.ThRecv? || e.ThRun? || e.ThAck? || e.ThHangup?
  }

  predicate Draining(s: State) {
    && s.core.closing && s.core.dispatcherUp && !s.core.restartRequested
    && (ReceiverAlive(s.thread) || (PastLoop(s) && s.thread == Finished(false)))
    && (AfterFlush(s.pc) ==> s.core.terminal == [] || 0 < s.core.inflight)
    && (s.pc.Select? ==> !ExitReady(s.core))
  }

  // ---------------------------------------------------------------- a rank that every step lowers

  function CommandWeight(cmds: seq<Command>): nat {
    if cmds == [] then 0 else (if cmds[0].Enqueue? then 7 else 1) + CommandWeight(cmds[1..])
  }

  function ThreadWeight(t: Thread): nat {
    match t
    case Running(_) => 4
    case Returned(_) => 3
    case Idle => 1
    case _ => 0
  }

  /** The work left, weighed by how many steps from its callback's acknowledgement it stands. */
  function Work(s: State): nat {
    CommandWeight(s.cmds) + Bit(!s.core.cmdClosed) + 6 * |s.core.active| + 5 * |s.core.terminal| +
    4 * |s.chan| + ThreadWeight(s.thread) + |s.acks|
  }

  function Stage(pc: Pc): nat {
    match pc
    case DrainAcks => 10 case CheckDispatcher => 9 case RestartDispatcher => 8 case Flush => 7 case Launch => 6
    case ReplyRetryable => 5 case ExitTest => 4 case Select => 3 case Shutdown => 2 case Replied => 1 case Done => 0
  }

  function Rank(s: State): nat { 16 * Work(s) + Stage(s.pc) }

  /** The close being served is neither forgotten nor answered. */
  predicate SameAnswer(s: State, t: State) {
    && t.answers == s.answers && (s.core.responder.Some? ==> t.core.responder == s.core.responder)
    && (t.pc.Replied? ==> s.pc.Replied?) && (t.pc.Done? ==> s.pc.Done?)
  }

  lemma CloseOverNothing(c: Core)
    requires c.pending == [] && AllClosing(c.active)
    ensures BeginClose(c) == c
  {
    assert (map id | id in c.active :: CloseReason) == c.active;
    assert ClosedJobs([]) == [];
    assert c.terminal + [] == c.terminal;
  }

  lemma DrainEarlyTurn(s: State, e: Event)
    requires LoopInv(s) && Draining(s) && Enabled(s, e) && (e.SchedDrain? || e.SchedCheck? || e.SchedRestart?)
    ensures Draining(Apply(s, e)) && Rank(Apply(s, e)) < Rank(s)
    ensures SameAnswer(s, Apply(s, e))
  {}

  lemma DrainFlush(s: State)
    requires LoopInv(s) && Draining(s) && s.pc.Flush?
    ensures Draining(DoFlush(s)) && Rank(DoFlush(s)) < Rank(s)
    ensures SameAnswer(s, DoFlush(s))
  {
    ChannelNeverFull(s);
  }

  lemma DrainLateTurn(s: State, e: Event)
    requires LoopInv(s) && Draining(s) && Enabled(s, e)
    requires e.SchedLaunch? || e.SchedRetryable? || e.SchedExit?
    ensures Draining(Apply(s, e)) && Rank(Apply(s, e)) < Rank(s)
    ensures SameAnswer(s, Apply(s, e))
  {
    match e
    case SchedLaunch => assert Apply(s, e) == s.(pc := ReplyRetryable);
    case SchedRetryable => assert Apply(s, e) == s.(pc := ExitTest);
    case SchedExit =>
  }

  lemma DrainCommand(s: State)
    requires LoopInv(s) && Draining(s) && Enabled(s, SelCommand)
    ensures Draining(DoCommand(s)) && Rank(DoCommand(s)) < Rank(s)
    ensures SameAnswer(s, DoCommand(s))
  {
    match s.cmds[0]
    case Enqueue(_) =>
    case Cancel(id) => CancelAfterStop(s.core, id);
    case Close(request) =>
      CloseOverNothing(WithClose(s.core, request));
  }

  lemma DrainWorker(s: State, id: TaskId, result: WorkerResult)
    requires LoopInv(s) && Draining(s) && s.pc.Select? && id in s.core.active
    ensures Draining(DoWorker(s, id, result)) && Rank(DoWorker(s, id, result)) < Rank(s)
    ensures SameAnswer(s, DoWorker(s, id, result))
  {
    assert (s.core.active - {id}).Keys == s.core.active.Keys - {id};
  }

  lemma DrainHangup(s: State)
    requires LoopInv(s) && Draining(s) && s.pc.Select? && !s.core.cmdClosed
    ensures Draining(DoHangup(s)) && Rank(DoHangup(s)) < Rank(s)
    ensures SameAnswer(s, DoHangup(s))
  {
    CloseOverNothing(s.core.(cmdClosed := true, closing := true));
  }

  lemma DrainAck(s: State)
    requires LoopInv(s) && Draining(s) && s.pc.Select? && s.acks != []
    ensures Draining(DoAck(s)) && Rank(DoAck(s)) < Rank(s)
    ensures SameAnswer(s, DoAck(s))
  {}

  lemma DrainSelect(s: State, e: Event)
    requires LoopInv(s) && Draining(s) && Enabled(s, e) && (e.SelWorker? || e.SelHangup? || e.SelAck?)
    ensures Draining(Apply(s, e)) && Rank(Apply(s, e)) < Rank(s)
    ensures SameAnswer(s, Apply(s, e))
  {
    match e
    case SelWorker(id, result) => DrainWorker(s, id, result);
    case SelHangup => DrainHangup(s);
    case SelAck => DrainAck(s);
  }

  lemma DrainCallback(s: State, t: State)
    requires LoopInv(s) && Draining(s)
    requires (s.thread.Idle? && s.chan != [] && t == DoRecv(s)) || (s.thread.Running? && t == DoRun(s)) ||
             (s.thread.Returned? && t == DoAcknowledge(s, s.thread.id, Idle))
    ensures Draining(t) && Rank(t) < Rank(s) && SameAnswer(s, t)
  {}

  lemma DrainThread(s: State, e: Event)
    requires LoopInv(s) && Draining(s) && Enabled(s, e) && (e.ThRecv? || e.ThRun? || e.ThAck? || e.ThHangup?)
    ensures Draining(Apply(s, e)) && Rank(Apply(s, e)) < Rank(s)
    ensures SameAnswer(s, Apply(s, e))
  {
    if !e.ThHangup? { DrainCallback(s, Apply(s, e)); }
  }

  lemma DrainShut(s: State, e: Event)
    requires LoopInv(s) && Draining(s) && Enabled(s, e) && (e.ShutJoin? || e.ShutDrop?)
    ensures Draining(Apply(s, e)) && Rank(Apply(s, e)) < Rank(s)
  {}

  /** Every step of a draining scheduler lowers the rank, whatever the interleaving. */
  lemma DrainStepLowersRank(s: State, e: Event)
    requires LoopInv(s) && Draining(s) && Enabled(s, e) && DrainEvent(e)
    ensures Draining(Apply(s, e)) && Rank(Apply(s, e)) < Rank(s)
    ensures !e.ShutJoin? && !e.ShutDrop? ==> SameAnswer(s, Apply(s, e))
  {
    if e.SchedDrain? || e.SchedCheck? || e.SchedRestart? {
      DrainEarlyTurn(s, e);
    } else if e.SchedFlush? {
      DrainFlush(s);
    } else if TurnEvent(e) {
      DrainLateTurn(s, e);
    } else if e.SelCommand? {
      DrainCommand(s);
    } else if e.ShutJoin? || e.ShutDrop? {
      DrainShut(s, e);
    } else if SelectEvent(e) {
      DrainSelect(s, e);
    } else {
      DrainThread(s, e);
    }
  }

  /** Until it has returned, a draining scheduler always has a step to take. */
  lemma DrainNeverStuck(s: State) returns (e: Event)
    requires LoopInv(s) && Draining(s) && !s.pc.Done?
    ensures DrainEvent(e) && Enabled(s, e)
  {
    match s.pc
    case DrainAcks => e := SchedDrain;
    case CheckDispatcher => e := SchedCheck;
    case RestartDispatcher => e := SchedRestart(true);
    case Flush => e := SchedFlush;
    case Launch => e := SchedLaunch;
    case ReplyRetryable => e := SchedRetryable;
    case ExitTest => e := SchedExit;
    case Select =>
      if s.core.active != map[] {
        var id :| id in s.core.active;
        e := SelWorker(id, Errored);
      } else {
        assert s.core.inflight == 1 == InFlight(s);
        e := if s.chan != [] then ThRecv else if s.thread.Running? then ThRun
             else if s.thread.Returned? then ThAck else SelAck;
      }
    case Shutdown => e := if s.thread.Idle? then ThHangup else ShutJoin;
    case Replied => e := ShutDrop;
  }

  /** A draining run has at most `Rank(s)` steps, and one that cannot be continued has returned. */
  lemma {:induction false} DrainingEnds(s: State, run: seq<Event>)
    requires Inv(s) && Draining(s) && ValidRun(s, run) && forall e :: e in run ==> DrainEvent(e)
    ensures |run| <= Rank(s)
    ensures (forall e :: DrainEvent(e) ==> !Enabled(Exec(s, run), e)) ==> Exec(s, run).pc.Done?
    decreases |run|
  {
    if run == [] {
      if !s.pc.Done? { var e := DrainNeverStuck(s); }
    } else {
      assert run[0] in run;
      DrainStepLowersRank(s, run[0]);
      StepKeepsInv(s, run[0]);
      DrainingEnds(Apply(s, run[0]), run[1..]);
    }
  }

  predicate Answered(s: State, r: CloseRequest) {
    (s.core.responder == Some(r) && !s.pc.Replied? && !s.pc.Done?) || exists ok :: Answer(r, Complete(ok)) in s.answers
  }

  lemma DrainKeepsAnswer(s: State, e: Event, r: CloseRequest)
    requires LoopInv(s) && Draining(s) && Enabled(s, e) && DrainEvent(e) && Answered(s, r)
    ensures Answered(Apply(s, e), r)
  {
    if e.ShutJoin? || e.ShutDrop? {
      JoinAnswers(s, e, r);
    } else {
      DrainStepLowersRank(s, e);
    }
  }

  lemma JoinAnswers(s: State, e: Event, r: CloseRequest)
    requires Enabled(s, e) && (e.ShutJoin? || e.ShutDrop?) && Answered(s, r)
    ensures Answered(Apply(s, e), r)
  {
    if e.ShutJoin? && s.core.responder == Some(r) {
      assert Answer(r, Complete(JoinOk(s))) in Apply(s, e).answers;
    } else {
      var ok :| Answer(r, Complete(ok)) in s.answers;
      assert Answer(r, Complete(ok)) in Apply(s, e).answers;
    }
  }

  /** The close that started the draining is answered `Complete` by the time the scheduler returns. */
  lemma {:induction false} DrainingAnswersTheClose(s: State, run: seq<Event>, r: CloseRequest)
    requires Inv(s) && Draining(s) && ValidRun(s, run) && forall e :: e in run ==> DrainEvent(e)
    requires Answered(s, r)
    ensures Exec(s, run).pc.Done? ==> exists ok :: Answer(r, Complete(ok)) in Exec(s, run).answers
    decreases |run|
  {
    if run != [] {
      assert run[0] in run;
      DrainStepLowersRank(s, run[0]);
      DrainKeepsAnswer(s, run[0], r);
      StepKeepsInv(s, run[0]);
      DrainingAnswersTheClose(Apply(s, run[0]), run[1..], r);
    }
  }

  /** Receiving a close while the dispatcher lives starts the draining. */
  lemma CloseStartsDraining(s: State, request: CloseRequest)
    requires Inv(s) && Enabled(s, SelCommand) && s.cmds[0] == Close(Some(request)) && s.core.responder.None?
    requires s.core.dispatcherUp && !s.core.restartRequested && ReceiverAlive(s.thread)
    ensures Draining(Apply(s, SelCommand)) && Answered(Apply(s, SelCommand), request)
  {
    BeginCloseSizes(WithClose(s.core, Some(request)));
  }
}
