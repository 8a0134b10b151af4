/** Every step keeps the invariant of every task and of the loop. */
module BinarySchedulerSteps {
  import opened Results
  import opened BinaryScheduler
  import opened BinarySchedulerSafety

  // ---------------------------------------------------------------- the loop's helpers, one task at a time

  lemma FinishCount(c: Core, done: TaskId, outcome: Outcome, id: TaskId)
    ensures CoreCount(FinishTask(c, done, outcome), id) == CoreCount(c, id) + Bit(done == id)
    ensures JobsEnd(FinishTask(c, done, outcome).terminal, id, true) <==>
            JobsEnd(c.terminal, id, true) && (done == id ==> Ends(true, outcome))
    ensures JobsEnd(FinishTask(c, done, outcome).terminal, id, false) <==>
            JobsEnd(c.terminal, id, false) && (done == id ==> Ends(false, outcome))
  {
    JobTimesConcat(c.terminal, [Job(done, outcome)], id);
    JobsEndConcat(c.terminal, [Job(done, outcome)], id, true);
    JobsEndConcat(c.terminal, [Job(done, outcome)], id, false);
  }

  lemma BeginCloseCount(c: Core, id: TaskId)
    ensures CoreCount(BeginClose(c), id) == CoreCount(c, id)
    ensures Times(c.pending, id) == 0 ==> JobTimes(BeginClose(c).terminal, id) == JobTimes(c.terminal, id)
    ensures JobsEnd(BeginClose(c).terminal, id, true) <==> JobsEnd(c.terminal, id, true)
    ensures JobsEnd(BeginClose(c).terminal, id, false) <==> JobsEnd(c.terminal, id, false)
  {
    JobTimesConcat(c.terminal, ClosedJobs(c.pending), id);
    ClosedJobsTimes(c.pending, id);
    StrictEndsLoosely(ClosedJobs(c.pending), id);
    JobsEndConcat(c.terminal, ClosedJobs(c.pending), id, true);
    JobsEndConcat(c.terminal, ClosedJobs(c.pending), id, false);
  }

  lemma {:induction false} StrictEndsLoosely(jobs: seq<Job>, id: TaskId)
    requires JobsEnd(jobs, id, true)
    ensures JobsEnd(jobs, id, false)
  {
    if jobs != [] { StrictEndsLoosely(jobs[1..], id); }
  }

  lemma TimesWithout(ids: seq<TaskId>, i: nat, id: TaskId)
    requires i < |ids|
    ensures Times(ids, id) == Times([ids[i]], id) + Times(ids[..i] + ids[i + 1..], id)
  {
    assert ids == ids[..i] + ids[i..];
    assert ids[i..] == [ids[i]] + ids[i + 1..];
    TimesConcat(ids[..i], ids[i..], id);
    TimesConcat([ids[i]], ids[i + 1..], id);
    TimesConcat(ids[..i], ids[i + 1..], id);
  }

  lemma CancelCount(c: Core, target: TaskId, id: TaskId)
    ensures CoreCount(CancelTask(c, target).0, id) == CoreCount(c, id)
  {
    var i := Position(c.pending, target);
    if i < |c.pending| {
      TimesWithout(c.pending, i, id);
      FinishCount(c.(pending := c.pending[..i] + c.pending[i + 1..]), target, TaskCanceled, id);
    }
  }

  function LaunchOne(c: Core): Core
    requires c.pending != []
  {
    c.(active := c.active[c.pending[0] := NoReason], pending := c.pending[1..])
  }

  lemma {:induction false} LaunchFrame(c: Core, free: int)
    ensures var d := LaunchPending(c, free).0; d == c.(pending := d.pending, active := d.active)
    decreases |c.pending|
  {
    if |c.active| < MAX_CONCURRENCY && 0 < free && c.pending != [] {
      LaunchFrame(LaunchOne(c), free - 1);
    }
  }

  lemma {:induction false} LaunchCount(c: Core, free: int, d: Core, id: TaskId)
    requires CoreCount(c, id) <= 1 && d == LaunchPending(c, free).0
    ensures CoreCount(d, id) == CoreCount(c, id)
    ensures Times(d.pending, id) <= Times(c.pending, id)
    ensures id in d.active && Times(c.pending, id) == 0 ==> id in c.active && d.active[id] == c.active[id]
    decreases |c.pending|
  {
    if |c.active| < MAX_CONCURRENCY && 0 < free && c.pending != [] {
      LaunchCount(LaunchOne(c), free - 1, d, id);
    }
  }

  /** The states agree on everything the invariant of a task reads. */
  predicate SameWork(s: State, t: State) {
    && t.core.pending == s.core.pending && t.core.active == s.core.active && t.core.terminal == s.core.terminal
    && t.core.responder == s.core.responder
    && t == s.(core := t.core, pc := t.pc, sendersAlive := t.sendersAlive, outstanding := t.outstanding,
               bodyFree := t.bodyFree)
  }

  lemma TaskFrame(s: State, t: State, id: TaskId)
    requires TaskInv(s, id) && SameWork(s, t)
    ensures TaskInv(t, id)
  {}

  // ---------------------------------------------------------------- client steps

  lemma TaskAdmit(s: State, x: TaskId, id: TaskId)
    requires TaskInv(s, id) && x !in s.accepted
    ensures TaskInv(DoAdmit(s, x), id)
  {}

  lemma TaskAccept(s: State, x: TaskId, id: TaskId)
    requires TaskInv(s, id) && x in s.entering && x !in s.accepted
    ensures TaskInv(DoAccept(s, x), id)
  {
    CmdTimesConcat(s.cmds, [Enqueue(x)], id);
    SendSeals(s.cmds, Enqueue(x), id);
  }

  lemma TaskRefuse(s: State, x: TaskId, id: TaskId)
    requires TaskInv(s, id) && x in s.entering && x !in s.accepted
    ensures TaskInv(DoRefuse(s, x), id)
  {}

  lemma TaskSend(s: State, c: Command, id: TaskId)
    requires TaskInv(s, id) && !c.Enqueue?
    requires c.Close? && c.request.Some? ==> c.request.value.before == s.accepted
    ensures TaskInv(DoSend(s, c), id)
  {
    CmdTimesConcat(s.cmds, [c], id);
    SendSeals(s.cmds, c, id);
  }

  // ---------------------------------------------------------------- steps of one turn

  lemma TaskDrain(s: State, id: TaskId)
    requires TaskInv(s, id)
    ensures TaskInv(DoDrain(s), id)
  {
    TimesZero(s.acks, id);
  }

  /** A task still queued or active has no job anywhere. */
  lemma NoJobYet(s: State, id: TaskId, strict: bool)
    requires OnePlace(s, id) && (0 < Times(s.core.pending, id) || id in s.core.active)
    ensures JobsEnd(s.core.terminal, id, strict) && JobsEnd(Held(s), id, strict) && JobsEnd(s.calls, id, strict)
    ensures CmdTimes(s.cmds, id) == 0 && id in s.accepted
  {
    AbsentJobsEnd(s.core.terminal, id, strict);
    AbsentJobsEnd(Held(s), id, strict);
    AbsentJobsEnd(s.calls, id, strict);
  }

  lemma TaskCloseOver(s: State, c: Core, id: TaskId)
    requires TaskInv(s, id)
    requires c.pending == s.core.pending && c.active == s.core.active && c.terminal == s.core.terminal
    requires c.responder == s.core.responder
    ensures TaskInv(CloseOver(s, c), id)
  {
    BeginCloseCount(c, id);
    TimesZero(s.core.pending, id);
    if id !in s.closedOver && (id in s.core.pending || id in s.core.active) {
      NoJobYet(s, id, true);
    }
  }

  lemma TaskReap(s: State, id: TaskId)
    requires TaskInv(s, id) && s.thread.Finished?
    ensures TaskInv(s.(registry := s.registry - Elements(s.acks), acks := [], thread := Absent, pc := RestartDispatcher), id)
  {
    TimesZero(s.acks, id);
  }

  lemma TaskCheck(s: State, id: TaskId)
    requires TaskInv(s, id)
    ensures TaskInv(DoCheck(s), id)
  {
    if s.core.dispatcherUp && s.thread.Finished? {
      var c := Receive(s.core, s.acks).(dispatcherUp := false);
      var t := s.(registry := s.registry - Elements(s.acks), acks := [], thread := Absent, pc := RestartDispatcher);
      TaskReap(s, id);
      if c.inflight != 0 {
        TaskCloseOver(t, WithFailure(c).(inflight := 0), id);
      }
    }
  }

  lemma TaskReplace(s: State, t: State, id: TaskId)
    requires TaskInv(s, id) && s.thread.Absent? && s.chan == []
    requires SameWork(s, t.(thread := Absent)) && t.thread.Idle?
    ensures TaskInv(t, id)
  {}

  lemma TaskRestart(s: State, ok: bool, id: TaskId)
    requires Handshake(s) && TaskInv(s, id)
    ensures TaskInv(DoRestart(s, ok), id)
  {
    if !s.core.dispatcherUp && s.core.restartRequested {
      if ok {
        TaskReplace(s, DoRestart(s, ok), id);
      } else {
        TaskFrame(s, s.(pc := Flush), id);
        TaskCloseOver(s.(pc := Flush), WithFailure(s.core).(restartRequested := false), id);
      }
    } else {
      TaskFrame(s, DoRestart(s, ok), id);
    }
  }

  /** The first terminal job moves to the empty callback channel. */
  lemma TaskHandOver(s: State, t: State, id: TaskId)
    requires TaskInv(s, id) && s.chan == [] && !s.thread.Running? && s.core.terminal != []
    requires t == s.(core := s.core.(terminal := s.core.terminal[1..], inflight := 1),
                     chan := [s.core.terminal[0]], pc := Launch)
    ensures TaskInv(t, id)
  {
    assert Held(s) == [] && Held(t) == [s.core.terminal[0]];
    assert WaitingCount(t, id) == WaitingCount(s, id);
  }

  lemma TaskFlush(s: State, id: TaskId)
    requires Handshake(s) && TaskInv(s, id)
    ensures TaskInv(DoFlush(s), id)
  {
    if s.core.dispatcherUp && FlushOutcome(s.core, ReceiverAlive(s.thread), |s.chan|).FlushSent? {
      assert s.chan == [] && s.chan + [s.core.terminal[0]] == [s.core.terminal[0]];
      TaskHandOver(s, DoFlush(s), id);
    } else {
      TaskFrame(s, DoFlush(s), id);
    }
  }

  lemma TaskLaunch(s: State, id: TaskId)
    requires TaskInv(s, id)
    ensures TaskInv(DoLaunch(s), id)
  {
    LaunchFrame(s.core, s.bodyFree);
    LaunchCount(s.core, s.bodyFree, LaunchPending(s.core, s.bodyFree).0, id);
  }

  lemma TaskAbandon(s: State, t: State, id: TaskId)
    requires Handshake(s) && Flags(s) && TaskInv(s, id)
    requires Stopped(s) && s.core.cmdClosed && s.core.active == map[] && s.thread.Absent?
    requires t == s.(core := t.core, pc := t.pc, lost := s.lost + JobIds(s.core.terminal), registry := {},
                     outstanding := t.outstanding, bodyFree := t.bodyFree)
    requires t.core.pending == [] && t.core.active == map[] && t.core.terminal == []
    requires t.core.responder == s.core.responder
    ensures TaskInv(t, id)
  {
    TimesConcat(s.lost, JobIds(s.core.terminal), id);
    JobIdsTimes(s.core.terminal, id);
  }

  lemma TaskAnswer(s: State, r: Reply, id: TaskId)
    requires TaskInv(s, id)
    requires r.Complete? && s.core.responder.Some? && id in s.core.responder.value.before ==> CalledOrLost(s, id)
    ensures TaskInv(s.(core := s.core.(responder := None),
                       answers := s.answers + (if s.core.responder.Some?
                                               then [Answer(s.core.responder.value, r)] else [])), id)
  {}

  lemma TaskRetryable(s: State, id: TaskId)
    requires Handshake(s) && Flags(s) && TaskInv(s, id)
    ensures TaskInv(DoRetryable(s), id)
  {
    if s.core.closing && !s.core.dispatcherUp && !s.core.restartRequested && s.core.active == map[] {
      TaskAnswer(s, Retryable, id);
      var t := s.(core := s.core.(responder := None),
                  answers := s.answers + (if s.core.responder.Some?
                                          then [Answer(s.core.responder.value, Retryable)] else []));
      if s.core.cmdClosed {
        TaskAbandon(t, DoRetryable(s), id);
      } else {
        TaskFrame(t, DoRetryable(s), id);
      }
    } else {
      TaskFrame(s, DoRetryable(s), id);
    }
  }

  // ---------------------------------------------------------------- steps of the select and of the shutdown

  lemma TaskOnEnqueue(s: State, id: TaskId)
    requires TaskInv(s, id) && s.cmds != [] && s.cmds[0].Enqueue?
    ensures TaskInv(DoCommand(s), id)
  {
    var x := s.cmds[0].id;
    TimesConcat(s.core.pending, [x], id);
    FinishCount(s.core, x, ClientClosed, id);
  }

  lemma TaskPop(s: State, id: TaskId)
    requires TaskInv(s, id) && s.cmds != [] && !s.cmds[0].Enqueue?
    ensures TaskInv(s.(cmds := s.cmds[1..], pc := DrainAcks), id)
  {}

  lemma TaskCancelPending(s: State, i: nat, id: TaskId)
    requires TaskInv(s, id) && i < |s.core.pending| && i == Position(s.core.pending, s.core.pending[i])
    ensures TaskInv(OnCancel(s, s.core.pending[i]), id)
  {
    var x := s.core.pending[i];
    var rest := s.core.pending[..i] + s.core.pending[i + 1..];
    CancelCount(s.core, x, id);
    FinishCount(s.core.(pending := rest), x, TaskCanceled, id);
    TimesZero(s.core.pending, x);
    if x == id {
      NoJobYet(s, id, false);
    }
  }

  lemma TaskCancelActive(s: State, x: TaskId, id: TaskId)
    requires TaskInv(s, id) && x in s.core.active && s.core.active[x] == NoReason
    ensures TaskInv(s.(core := s.core.(active := s.core.active[x := CancelReason]),
                       cancelAcked := s.cancelAcked + {x}), id)
  {
    if x == id { NoJobYet(s, id, false); }
  }

  lemma TaskOnCancel(s: State, x: TaskId, id: TaskId)
    requires TaskInv(s, id)
    ensures TaskInv(OnCancel(s, x), id)
  {
    if x in s.core.pending {
      TaskCancelPending(s, Position(s.core.pending, x), id);
    } else if x in s.core.active && s.core.active[x] == NoReason {
      TaskCancelActive(s, x, id);
    } else {
      assert OnCancel(s, x) == s;
    }
  }

  lemma TaskRespondTo(s: State, request: Option<CloseRequest>, id: TaskId)
    requires TaskInv(s, id)
    requires request.Some? && id in request.value.before ==> CmdTimes(s.cmds, id) == 0 && id in s.accepted
    ensures TaskInv(s.(core := s.core.(responder := WithClose(s.core, request).responder)), id)
  {
    if s.core.responder.Some? { assert s.(core := s.core.(responder := WithClose(s.core, request).responder)) == s; }
  }

  lemma SameOnClose(s: State, request: Option<CloseRequest>)
    ensures var c := WithClose(s.core, request);
            && OnClose(s, request) == CloseOver(s.(core := s.core.(responder := c.responder)), c)
            && c.pending == s.core.pending && c.active == s.core.active && c.terminal == s.core.terminal
  {}

  lemma TaskOnClose(s: State, request: Option<CloseRequest>, id: TaskId)
    requires TaskInv(s, id)
    requires request.Some? && id in request.value.before ==> CmdTimes(s.cmds, id) == 0 && id in s.accepted
    ensures TaskInv(OnClose(s, request), id)
  {
    var c := WithClose(s.core, request);
    TaskRespondTo(s, request, id);
    SameOnClose(s, request);
    TaskCloseOver(s.(core := s.core.(responder := c.responder)), c, id);
  }

  lemma TaskCommand(s: State, id: TaskId)
    requires TaskInv(s, id) && s.cmds != []
    ensures TaskInv(DoCommand(s), id)
  {
    var t := s.(cmds := s.cmds[1..], pc := DrainAcks);
    match s.cmds[0]
    case Enqueue(_) => TaskOnEnqueue(s, id);
    case Cancel(x) => TaskPop(s, id); TaskOnCancel(t, x, id);
    case Close(request) => TaskPop(s, id); TaskOnClose(t, request, id);
  }

  lemma TaskHangup(s: State, id: TaskId)
    requires TaskInv(s, id)
    ensures TaskInv(DoHangup(s), id)
  {
    var c := s.core.(cmdClosed := true, closing := true);
    TaskCloseOver(s.(pc := DrainAcks), if c.dispatcherUp then c else c.(restartRequested := true), id);
  }

  lemma TaskWorker(s: State, x: TaskId, result: WorkerResult, id: TaskId)
    requires TaskInv(s, id) && x in s.core.active
    ensures TaskInv(DoWorker(s, x, result), id)
  {
    FinishCount(s.core.(active := s.core.active - {x}), x, WorkerOutcome(s.core.active[x], result), id);
  }

  lemma TaskAck(s: State, id: TaskId)
    requires TaskInv(s, id) && s.acks != []
    ensures TaskInv(DoAck(s), id)
  {}

  lemma TaskJoin(s: State, id: TaskId)
    requires Handshake(s) && Flags(s) && TaskInv(s, id) && s.pc.Shutdown?
    ensures TaskInv(DoJoin(s), id)
  {
    assert s.chan == [] && !s.thread.Running?;
    var t := s.(pc := Replied);
    TaskFrame(s, t, id);
    TaskAnswer(t, Complete(JoinOk(s)), id);
  }

  lemma TaskDrop(s: State, id: TaskId)
    requires TaskInv(s, id) && s.pc.Replied?
    ensures TaskInv(DoDrop(s), id)
  {
    TimesConcat(s.discarded, EnqueuedIds(s.cmds), id);
    EnqueuedIdsTimes(s.cmds, id);
  }

  // ---------------------------------------------------------------- steps of the dispatcher thread

  lemma TaskRecv(s: State, id: TaskId)
    requires Handshake(s) && TaskInv(s, id) && s.thread.Idle? && s.chan != []
    ensures TaskInv(DoRecv(s), id)
  {
    assert Held(s) == [s.chan[0]];
    assert Held(DoRecv(s)) == [s.chan[0]];
  }

  lemma TaskRun(s: State, id: TaskId)
    requires Handshake(s) && TaskInv(s, id) && s.thread.Running?
    ensures TaskInv(DoRun(s), id)
  {
    assert Held(s) == [s.thread.job];
    assert Held(DoRun(s)) == [];
    JobTimesConcat(s.calls, [s.thread.job], id);
    JobsEndConcat(s.calls, [s.thread.job], id, true);
    JobsEndConcat(s.calls, [s.thread.job], id, false);
  }

  lemma TaskAcknowledge(s: State, next: Thread, id: TaskId)
    requires TaskInv(s, id) && (s.thread.Returned? || s.thread.Unplugged?)
    requires next.Idle? || next.Finished?
    ensures TaskInv(DoAcknowledge(s, s.thread.id, next), id)
  {
    TimesConcat(s.acks, [s.thread.id], id);
  }

  lemma TaskUnplug(s: State, id: TaskId)
    requires Handshake(s) && TaskInv(s, id) && s.thread.Returned?
    ensures TaskInv(DoUnplug(s), id)
    ensures DoUnplug(s).lost == s.lost
  {
    assert s.chan == [];
    assert DoUnplug(s).lost == s.lost;
  }

  lemma TaskCrash(s: State, id: TaskId)
    requires TaskInv(s, id) && ReceiverAlive(s.thread)
    ensures TaskInv(DoCrash(s), id)
  {
    TimesConcat(s.lost, JobIds(Held(s)), id);
    JobIdsTimes(Held(s), id);
  }
}
