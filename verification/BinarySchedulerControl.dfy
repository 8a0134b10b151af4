/** Every step keeps the dispatcher handshake, the flags and both permit pools. */
module BinarySchedulerControl {
  import opened Results
  import opened BinaryScheduler
  import opened BinarySchedulerSafety
  import opened BinarySchedulerSteps

  // ---------------------------------------------------------------- counting permits

  lemma {:induction false} SuccessesConcat(a: seq<Job>, b: seq<Job>)
    ensures Successes(a + b) == Successes(a) + Successes(b)
  {
    if a == [] { assert a + b == b; } else { assert (a + b)[1..] == a[1..] + b; SuccessesConcat(a[1..], b); }
  }

  lemma {:induction false} EnqueuedIdsConcat(a: seq<Command>, b: seq<Command>)
    ensures EnqueuedIds(a + b) == EnqueuedIds(a) + EnqueuedIds(b)
  {
    if a == [] {
      assert a + b == b;
    } else {
      EnqueuedIdsConcat(a[1..], b);
      assert (a + b)[0] == a[0] && (a + b)[1..] == a[1..] + b;
      var first := if a[0].Enqueue? then [a[0].id] else [];
      assert EnqueuedIds(a + b) == first + (EnqueuedIds(a[1..]) + EnqueuedIds(b));
      assert first + (EnqueuedIds(a[1..]) + EnqueuedIds(b)) == (first + EnqueuedIds(a[1..])) + EnqueuedIds(b);
    }
  }

  lemma {:induction false} ClosedJobsHoldNoBody(ids: seq<TaskId>)
    ensures Successes(ClosedJobs(ids)) == 0
  {
    if ids != [] {
      assert ClosedJobs(ids)[1..] == ClosedJobs(ids[1..]);
      ClosedJobsHoldNoBody(ids[1..]);
    }
  }

  /** `begin_close` neither takes nor returns a permit. */
  lemma BeginCloseSizes(c: Core)
    ensures var d := BeginClose(c);
            && |d.active| == |c.active|
            && |d.pending| + |d.terminal| == |c.pending| + |c.terminal|
            && Successes(d.terminal) == Successes(c.terminal)
            && AllClosing(d.active)
            && d == c.(pending := [], active := d.active, terminal := d.terminal)
  {
    SuccessesConcat(c.terminal, ClosedJobs(c.pending));
    ClosedJobsHoldNoBody(c.pending);
    assert BeginClose(c).active.Keys == c.active.Keys;
  }

  lemma FinishSizes(c: Core, id: TaskId, outcome: Outcome)
    ensures Successes(FinishTask(c, id, outcome).terminal) == Successes(c.terminal) + Bit(outcome.Success?)
  {
    SuccessesConcat(c.terminal, [Job(id, outcome)]);
    assert Successes([Job(id, outcome)]) == Bit(outcome.Success?);
  }

  lemma MarkKeepsSize(active: map<TaskId, Reason>, id: TaskId, reason: Reason)
    requires id in active
    ensures |active[id := reason]| == |active|
  {
    assert active[id := reason].Keys == active.Keys;
  }

  lemma CancelSizes(c: Core, id: TaskId, d: Core)
    requires d == CancelTask(c, id).0
    ensures d == c.(pending := d.pending, active := d.active, terminal := d.terminal)
    ensures |d.active| == |c.active| && |d.pending| + |d.terminal| == |c.pending| + |c.terminal|
    ensures Successes(d.terminal) == Successes(c.terminal)
  {
    var i := Position(c.pending, id);
    if i < |c.pending| {
      var rest := c.(pending := c.pending[..i] + c.pending[i + 1..]);
      FinishSizes(rest, id, TaskCanceled);
      assert d == FinishTask(rest, id, TaskCanceled);
    } else if id in c.active && c.active[id] == NoReason {
      MarkKeepsSize(c.active, id, CancelReason);
      assert d == c.(active := c.active[id := CancelReason]);
    }
  }

  /** Once stopped, nothing is left for a cancel to change. */
  lemma CancelAfterStop(c: Core, id: TaskId)
    requires c.pending == [] && AllClosing(c.active)
    ensures CancelTask(c, id) == (c, false)
  {}

  /** Each launch moves one task from pending to active and takes one body permit. */
  lemma {:induction false} LaunchSizes(c: Core, free: int, d: Core, rest: int)
    requires forall id :: CoreCount(c, id) <= 1
    requires 0 <= free && (d, rest) == LaunchPending(c, free)
    ensures rest + |d.active| == free + |c.active| && 0 <= rest
    ensures |d.pending| + |d.active| == |c.pending| + |c.active|
    decreases |c.pending|
  {
    if |c.active| < MAX_CONCURRENCY && 0 < free && c.pending != [] {
      var id := c.pending[0];
      assert id !in c.active by { assert CoreCount(c, id) <= 1; }
      assert LaunchOne(c).active.Keys == c.active.Keys + {id};
      forall x ensures CoreCount(LaunchOne(c), x) <= 1 { assert CoreCount(c, x) <= 1; }
      LaunchSizes(LaunchOne(c), free - 1, d, rest);
    }
  }

  // ---------------------------------------------------------------- client steps

  lemma LoopAdmit(s: State, id: TaskId)
    requires LoopInv(s) && s.sendersAlive && s.outstanding < MAX_OUTSTANDING_TASKS && id !in s.entering
    ensures LoopInv(DoAdmit(s, id))
  {}

  lemma LoopAccept(s: State, id: TaskId)
    requires LoopInv(s) && CanSend(s) && id in s.entering
    ensures LoopInv(DoAccept(s, id))
  {
    EnqueuedIdsConcat(s.cmds, [Enqueue(id)]);
  }

  lemma LoopRefuse(s: State, id: TaskId)
    requires LoopInv(s) && id in s.entering
    ensures LoopInv(DoRefuse(s, id))
  {}

  lemma LoopSend(s: State, c: Command)
    requires LoopInv(s) && CanSend(s) && !c.Enqueue?
    ensures LoopInv(DoSend(s, c))
  {
    EnqueuedIdsConcat(s.cmds, [c]);
  }

  // ---------------------------------------------------------------- steps of one turn

  lemma LoopDrain(s: State)
    requires LoopInv(s) && s.pc.DrainAcks?
    ensures LoopInv(DoDrain(s))
  {}

  /** Closing over the queue moves jobs between holders of the same permits. */
  lemma PermitsCloseOver(s: State, c: Core)
    requires Permits(s)
    requires c.pending == s.core.pending && c.active == s.core.active && c.terminal == s.core.terminal
    ensures Permits(CloseOver(s, c))
  {
    BeginCloseSizes(c);
  }

  lemma ControlCloseOver(s: State, c: Core)
    requires c.closing && (c.dispatcherUp ==> !c.terminalFailure && !c.dispatcherError)
    requires !c.dispatcherUp && !c.restartRequested ==> c.terminalFailure
    requires !PastLoop(s) && s.discarded == [] && (!s.sendersAlive ==> s.entering == {})
    requires c.cmdClosed ==> s.cmds == [] && !s.sendersAlive
    requires Handshake(s.(core := c))
    ensures Handshake(CloseOver(s, c)) && Flags(CloseOver(s, c))
  {
    BeginCloseSizes(c);
  }

  /** The dispatcher left without acknowledging its job. */
  lemma LoopLost(s: State, t: State, d: Core)
    requires LoopInv(s) && s.pc.CheckDispatcher? && s.core.dispatcherUp && s.thread.Finished?
    requires d == WithFailure(Receive(s.core, s.acks).(dispatcherUp := false)).(inflight := 0)
    requires t == s.(registry := s.registry - Elements(s.acks), acks := [], thread := Absent, pc := RestartDispatcher)
    ensures LoopInv(CloseOver(t, d))
  {
    assert Held(t) == Held(s) == [];
    PermitsCloseOver(t, d);
    ControlCloseOver(t, d);
  }

  lemma LoopReap(s: State)
    requires LoopInv(s) && s.pc.CheckDispatcher? && s.core.dispatcherUp && s.thread.Finished?
    ensures LoopInv(DoCheck(s))
  {
    var c := Receive(s.core, s.acks).(dispatcherUp := false);
    var t := s.(registry := s.registry - Elements(s.acks), acks := [], thread := Absent, pc := RestartDispatcher);
    if c.inflight != 0 {
      LoopLost(s, t, WithFailure(c).(inflight := 0));
    } else {
      assert Held(t) == Held(s) == [];
    }
  }

  lemma LoopCheck(s: State)
    requires LoopInv(s) && s.pc.CheckDispatcher?
    ensures LoopInv(DoCheck(s))
  {
    if s.core.dispatcherUp && s.thread.Finished? { LoopReap(s); }
  }

  lemma LoopNoRestart(s: State, c: Core)
    requires LoopInv(s) && s.pc.RestartDispatcher? && !s.core.dispatcherUp && s.core.restartRequested
    requires c == WithFailure(s.core).(restartRequested := false)
    ensures LoopInv(CloseOver(s.(pc := Flush), c))
  {
    PermitsCloseOver(s.(pc := Flush), c);
    ControlCloseOver(s.(pc := Flush), c);
  }

  lemma LoopRestart(s: State, ok: bool)
    requires LoopInv(s) && s.pc.RestartDispatcher?
    ensures LoopInv(DoRestart(s, ok))
  {
    if !s.core.dispatcherUp && s.core.restartRequested && !ok {
      LoopNoRestart(s, WithFailure(s.core).(restartRequested := false));
    } else {
      assert Held(DoRestart(s, ok)) == Held(s);
    }
  }

  /** With at most one job in flight the callback channel is empty when a job is sent, so the
      send is never refused because the channel is full. */
  lemma ChannelNeverFull(s: State)
    requires Handshake(s)
    ensures s.core.inflight == 0 ==> s.chan == [] && Held(s) == []
    ensures !FlushOutcome(s.core, ReceiverAlive(s.thread), |s.chan|).FlushFull?
  {}

  lemma LoopFlush(s: State)
    requires LoopInv(s) && s.pc.Flush?
    ensures LoopInv(DoFlush(s))
  {
    ChannelNeverFull(s);
    if s.core.dispatcherUp && FlushOutcome(s.core, ReceiverAlive(s.thread), |s.chan|).FlushSent? {
      assert Held(DoFlush(s)) == [s.core.terminal[0]];
    }
  }

  lemma LoopLaunch(s: State)
    requires LoopInv(s) && s.pc.Launch? && forall id :: TaskInv(s, id)
    ensures LoopInv(DoLaunch(s))
  {
    if !s.core.closing && !s.core.terminalFailure {
      var (c, free) := LaunchPending(s.core, s.bodyFree);
      LaunchFrame(s.core, s.bodyFree);
      forall id ensures CoreCount(s.core, id) <= 1 { assert TaskInv(s, id); }
      LaunchSizes(s.core, s.bodyFree, c, free);
    }
  }

  /** The fallback of an executor that was dropped: its jobs go, with their permits. */
  lemma LoopFallback(s: State)
    requires LoopInv(s) && s.pc.ReplyRetryable? && s.core.cmdClosed
    requires s.core.closing && !s.core.dispatcherUp && !s.core.restartRequested && s.core.active == map[]
    ensures LoopInv(DoRetryable(s))
  {
    var t := DoRetryable(s);
    assert Held(t) == Held(s) == [];
    assert Handshake(t) && Flags(t);
  }

  lemma LoopRetryable(s: State)
    requires LoopInv(s) && s.pc.ReplyRetryable?
    ensures LoopInv(DoRetryable(s))
  {
    if s.core.closing && !s.core.dispatcherUp && !s.core.restartRequested && s.core.active == map[] && s.core.cmdClosed {
      LoopFallback(s);
    } else {
      assert Held(DoRetryable(s)) == Held(s);
    }
  }

  lemma LoopExit(s: State)
    requires LoopInv(s) && s.pc.ExitTest?
    ensures LoopInv(DoExit(s))
  {}

  // ---------------------------------------------------------------- steps of the select and of the shutdown

  lemma LoopOnEnqueue(s: State)
    requires LoopInv(s) && s.pc.Select? && s.cmds != [] && s.cmds[0].Enqueue?
    ensures LoopInv(DoCommand(s))
  {
    FinishSizes(s.core, s.cmds[0].id, ClientClosed);
  }

  lemma LoopOnCancel(s: State)
    requires LoopInv(s) && s.pc.Select? && s.cmds != [] && s.cmds[0].Cancel?
    ensures LoopInv(DoCommand(s))
  {
    var id := s.cmds[0].id;
    CancelSizes(s.core, id, CancelTask(s.core, id).0);
    if Stopped(s) { CancelAfterStop(s.core, id); }
  }

  lemma HandshakeAfterClose(s: State, request: Option<CloseRequest>)
    requires Handshake(s) && Flags(s) && s.pc.Select?
    ensures Handshake(s.(core := WithClose(s.core, request), cmds := s.cmds, pc := DrainAcks))
    ensures var c := WithClose(s.core, request);
            && c.closing && (c.dispatcherUp ==> !c.terminalFailure && !c.dispatcherError)
            && (!c.dispatcherUp && !c.restartRequested ==> c.terminalFailure) && c.cmdClosed == s.core.cmdClosed
            && c.pending == s.core.pending && c.active == s.core.active && c.terminal == s.core.terminal
  {}

  lemma LoopOnClose(s: State)
    requires LoopInv(s) && s.pc.Select? && s.cmds != [] && s.cmds[0].Close?
    ensures LoopInv(DoCommand(s))
  {
    var t := s.(cmds := s.cmds[1..], pc := DrainAcks);
    var c := WithClose(s.core, s.cmds[0].request);
    HandshakeAfterClose(s, s.cmds[0].request);
    PermitsCloseOver(t, c);
    ControlCloseOver(t, c);
    assert DoCommand(s) == CloseOver(t, c);
  }

  lemma LoopCommand(s: State)
    requires LoopInv(s) && s.pc.Select? && s.cmds != []
    ensures LoopInv(DoCommand(s))
  {
    match s.cmds[0]
    case Enqueue(_) => LoopOnEnqueue(s);
    case Cancel(_) => LoopOnCancel(s);
    case Close(_) => LoopOnClose(s);
  }

  lemma LoopHangup(s: State)
    requires LoopInv(s) && s.pc.Select? && s.cmds == [] && !s.sendersAlive
    ensures LoopInv(DoHangup(s))
  {
    var t := s.(pc := DrainAcks);
    var c := s.core.(cmdClosed := true, closing := true);
    var d := if c.dispatcherUp then c else c.(restartRequested := true);
    PermitsCloseOver(t, d);
    ControlCloseOver(t, d);
  }

  lemma LoopWorker(s: State, id: TaskId, result: WorkerResult)
    requires LoopInv(s) && s.pc.Select? && id in s.core.active
    ensures LoopInv(DoWorker(s, id, result))
  {
    assert (s.core.active - {id}).Keys == s.core.active.Keys - {id};
    FinishSizes(s.core, id, WorkerOutcome(s.core.active[id], result));
  }

  lemma LoopAck(s: State)
    requires LoopInv(s) && s.pc.Select? && s.acks != []
    ensures LoopInv(DoAck(s))
  {}

  lemma LoopJoin(s: State)
    requires LoopInv(s) && s.pc.Shutdown?
    ensures LoopInv(DoJoin(s))
  {}

  lemma LoopDrop(s: State)
    requires LoopInv(s) && s.pc.Replied?
    ensures LoopInv(DoDrop(s))
  {}

  // ---------------------------------------------------------------- steps of the dispatcher thread

  lemma LoopRecv(s: State)
    requires LoopInv(s) && s.thread.Idle? && s.chan != []
    ensures LoopInv(DoRecv(s))
  {
    assert Held(s) == [s.chan[0]];
    assert Held(DoRecv(s)) == [s.chan[0]];
  }

  lemma LoopRun(s: State)
    requires LoopInv(s) && s.thread.Running?
    ensures LoopInv(DoRun(s))
  {
    assert Held(s) == [s.thread.job] && Held(DoRun(s)) == [];
    assert Successes([s.thread.job]) == Bit(s.thread.job.outcome.Success?);
  }

  lemma LoopAcknowledge(s: State, next: Thread)
    requires LoopInv(s)
    requires (s.thread.Returned? && next == Idle) || (s.thread.Unplugged? && next == Finished(false))
    ensures LoopInv(DoAcknowledge(s, s.thread.id, next))
  {
    assert Held(DoAcknowledge(s, s.thread.id, next)) == Held(s);
  }

  lemma LoopUnplug(s: State)
    requires LoopInv(s) && s.thread.Returned?
    ensures LoopInv(DoUnplug(s))
  {
    assert s.chan == [];
  }

  lemma LoopCrash(s: State)
    requires LoopInv(s) && ReceiverAlive(s.thread)
    ensures LoopInv(DoCrash(s))
  {}
}
