/** The variables of the scheduler loop as an object, its helpers as methods. Each method is proved
    to do what the transition system says of the same helper. */
module BinarySchedulerLoop {
  import opened Results
  import opened Model = BinaryScheduler
  import opened BinarySchedulerRuns

  lemma FirstClosed(terminal: seq<Job>, pending: seq<TaskId>)
    requires pending != []
    ensures terminal + ClosedJobs(pending) == (terminal + [Job(pending[0], ClientClosed)]) + ClosedJobs(pending[1..])
  {
    assert forall i :: 0 <= i < |pending| - 1 ==> ClosedJobs(pending)[i + 1] == ClosedJobs(pending[1..])[i];
  }

  class Scheduler {
    var pending: seq<TaskId>
    var active: map<TaskId, Reason>
    var terminal: seq<Job>
    var inflight: nat
    var dispatcherUp: bool
    var restartRequested: bool
    var dispatcherError: bool
    var terminalFailure: bool
    var closing: bool
    var cmdClosed: bool
    var responder: Option<CloseRequest>
    var bodySlots: int
    var registry: set<TaskId>

    function View(): Core
      reads this
    {
      Core(pending, active, terminal, inflight, dispatcherUp, restartRequested, dispatcherError,
           terminalFailure, closing, cmdClosed, responder)
    }

    constructor ()
      ensures View() == EmptyCore && bodySlots == MAX_CONCURRENCY && registry == {}
    {
      pending, active, terminal, inflight := [], map[], [], 0;
      dispatcherUp, restartRequested, dispatcherError := true, false, false;
      terminalFailure, closing, cmdClosed, responder := false, false, false, None;
      bodySlots, registry := MAX_CONCURRENCY, {};
    }

    method Finish(id: TaskId, outcome: Outcome)
      modifies this`terminal
      ensures View() == Model.FinishTask(old(View()), id, outcome)
    {
      terminal := terminal + [Job(id, outcome)];
    }

    /** Takes a body permit first and gives it back if there is no task for it. */
    method LaunchAll()
      modifies this`pending, this`active, this`bodySlots
      ensures (View(), bodySlots) == Model.LaunchPending(old(View()), old(bodySlots))
    {
      while |active| < MAX_CONCURRENCY
        invariant Model.LaunchPending(View(), bodySlots) == Model.LaunchPending(old(View()), old(bodySlots))
        decreases |pending|
      {
        if bodySlots <= 0 { break; }
        bodySlots := bodySlots - 1;
        if pending == [] {
          bodySlots := bodySlots + 1;
          break;
        }
        active := active[pending[0] := NoReason];
        pending := pending[1..];
      }
    }

    method Withdraw(id: TaskId) returns (acknowledged: bool)
      modifies this`pending, this`active, this`terminal
      ensures (View(), acknowledged) == Model.CancelTask(old(View()), id)
    {
      var i := 0;
      while i < |pending| && pending[i] != id
        invariant 0 <= i <= |pending|
        invariant Position(pending, id) == i + Position(pending[i..], id)
      {
        i := i + 1;
      }
      if i < |pending| {
        pending := pending[..i] + pending[i + 1..];
        Finish(id, TaskCanceled);
        return true;
      }
      if id in active && active[id] == NoReason {
        active := active[id := CancelReason];
        return true;
      }
      return false;
    }

    /** Every pending task ends as closed, in order. */
    method ClosePending()
      modifies this`pending, this`terminal
      ensures pending == [] && terminal == old(terminal + ClosedJobs(pending))
    {
      while pending != []
        invariant terminal + ClosedJobs(pending) == old(terminal + ClosedJobs(pending))
        decreases |pending|
      {
        var id := pending[0];
        FirstClosed(terminal, pending);
        pending := pending[1..];
        Finish(id, ClientClosed);
      }
    }

    /** Every active task is told to end as closed. */
    method CloseActive()
      modifies this`active
      ensures active == map id | id in old(active) :: CloseReason
    {
      var todo := active.Keys;
      while todo != {}
        invariant todo <= active.Keys == old(active).Keys
        invariant forall id :: id in active && id !in todo ==> active[id] == CloseReason
        decreases todo
      {
        var id :| id in todo;
        active := active[id := CloseReason];
        todo := todo - {id};
      }
    }

    method CloseAll()
      modifies this`pending, this`active, this`terminal
      ensures View() == Model.BeginClose(old(View()))
    {
      ClosePending();
      CloseActive();
    }

    /** Hands over the first terminal job if none is in flight. */
    method FlushJobs(receiverAlive: bool, queued: nat) returns (result: FlushResult, sent: Option<Job>)
      modifies this`terminal, this`inflight
      ensures result == FlushOutcome(old(View()), receiverAlive, queued)
      ensures result.FlushSent? ==>
                sent == Some(old(terminal)[0]) && View() == old(View()).(terminal := old(terminal)[1..], inflight := 1)
      ensures !result.FlushSent? ==> sent.None? && View() == old(View())
    {
      if 0 < inflight || terminal == [] { return FlushIdle, None; }
      var job := terminal[0];
      terminal := terminal[1..];
      if !receiverAlive {
        terminal := [job] + terminal;
        return FlushDisconnected, None;
      }
      if CALLBACK_CAPACITY <= queued {
        terminal := [job] + terminal;
        return FlushFull, None;
      }
      inflight := 1;
      return FlushSent, Some(job);
    }

    method DrainAcks(acks: seq<TaskId>)
      modifies this`inflight, this`registry
      ensures View() == Receive(old(View()), acks)
      ensures registry == old(registry) - Elements(acks)
    {
      var i := 0;
      while i < |acks|
        invariant 0 <= i <= |acks|
        invariant inflight == SaturatingSub(old(inflight), i)
        invariant registry == old(registry) - Elements(acks[..i])
      {
        inflight := SaturatingSub(inflight, 1);
        registry := registry - {acks[i]};
        assert Elements(acks[..i + 1]) == Elements(acks[..i]) + {acks[i]};
        i := i + 1;
      }
      assert acks[..i] == acks;
    }

    /** A finished dispatcher is taken away: restart it, or fail and close if a job went unacknowledged. */
    method Reap(acks: seq<TaskId>)
      requires dispatcherUp
      modifies this
      ensures var c := Receive(old(View()), acks).(dispatcherUp := false);
              View() == if c.inflight == 0 then c.(restartRequested := true)
                        else Model.BeginClose(WithFailure(c).(inflight := 0))
      ensures registry == old(registry) - Elements(acks) && bodySlots == old(bodySlots)
    {
      dispatcherUp := false;
      DrainAcks(acks);
      if inflight == 0 {
        restartRequested := true;
      } else {
        inflight := 0;
        Fail();
      }
    }

    method Fail()
      modifies this`pending, this`active, this`terminal, this`terminalFailure, this`closing, this`dispatcherError
      ensures View() == Model.BeginClose(WithFailure(old(View())))
    {
      terminalFailure, closing, dispatcherError := true, true, true;
      CloseAll();
    }

    method Replace(ok: bool)
      requires !dispatcherUp && restartRequested
      modifies this
      ensures ok ==> View() == old(View()).(dispatcherUp := true, restartRequested := false, dispatcherError := false,
                                            terminalFailure := false)
      ensures !ok ==> View() == Model.BeginClose(WithFailure(old(View())).(restartRequested := false))
      ensures registry == old(registry) && bodySlots == old(bodySlots)
    {
      restartRequested := false;
      if ok {
        dispatcherUp, dispatcherError, terminalFailure := true, false, false;
      } else {
        Fail();
      }
    }

    method TakeEnqueue(id: TaskId)
      modifies this`pending, this`terminal
      ensures View() == AfterEnqueue(old(View()), id)
    {
      if !closing && !terminalFailure { pending := pending + [id]; } else { Finish(id, ClientClosed); }
    }

    method TakeClose(request: Option<CloseRequest>)
      modifies this
      ensures View() == Model.BeginClose(WithClose(old(View()), request))
      ensures registry == old(registry) && bodySlots == old(bodySlots)
    {
      if responder.None? { responder := request; }
      if !dispatcherUp { restartRequested, dispatcherError := true, false; }
      CloseAll();
      closing := true;
    }

    method TakeWorkerEvent(id: TaskId, result: WorkerResult)
      requires id in active
      modifies this`active, this`terminal, this`bodySlots
      ensures var outcome := WorkerOutcome(old(active)[id], result);
              && View() == Model.FinishTask(old(View()).(active := old(active) - {id}), id, outcome)
              && bodySlots == old(bodySlots) + (if outcome.Success? then 0 else 1)
    {
      var outcome := WorkerOutcome(active[id], result);
      active := active - {id};
      if !outcome.Success? { bodySlots := bodySlots + 1; }
      Finish(id, outcome);
    }

    /** The loop variables and the shared pools are those of the machine's state. */
    ghost predicate Matches(s: State)
      reads this
    {
      View() == s.core && bodySlots == s.bodyFree && registry == s.registry
    }

    /** The close of a loop without a dispatcher is answered "retry"; a loop that was hung up gives up its jobs. */
    method AnswerRetry()
      modifies this
      ensures View() == old(View()).(closing := false, responder := None, terminal := if cmdClosed then [] else old(terminal))
      ensures bodySlots == old(bodySlots) + (if cmdClosed then Successes(old(terminal)) else 0)
      ensures registry == if cmdClosed then {} else old(registry)
    {
      responder := None;
      closing := false;
      if cmdClosed {
        bodySlots := bodySlots + Successes(terminal);
        terminal := [];
        registry := {};
      }
    }

    /** The stages before the flush, in the environment `s` of that moment. */
    method EarlyStage(s: State, e: Event)
      requires Matches(s) && Enabled(s, e) && (e.SchedDrain? || e.SchedCheck? || e.SchedRestart?)
      modifies this
      ensures Matches(Apply(s, e))
    {
      match e
      case SchedDrain => DrainAcks(s.acks);
      case SchedCheck => if dispatcherUp && s.thread.Finished? { Reap(s.acks); }
      case SchedRestart(ok) => if !dispatcherUp && restartRequested { Replace(ok); }
    }

    method FlushStage(s: State)
      requires Matches(s) && s.pc.Flush?
      modifies this
      ensures Matches(DoFlush(s))
    {
      if dispatcherUp {
        var result, _ := FlushJobs(ReceiverAlive(s.thread), |s.chan|);
        if result.FlushDisconnected? { restartRequested := true; }
      }
    }

    method RetryStage(s: State)
      requires Matches(s)
      modifies this
      ensures Matches(DoRetryable(s))
    {
      if closing && !dispatcherUp && !restartRequested && active == map[] { AnswerRetry(); }
    }

    /** The stages from the flush on. */
    method LateStage(s: State, e: Event)
      requires Matches(s) && Enabled(s, e) && (e.SchedFlush? || e.SchedLaunch? || e.SchedRetryable? || e.SchedExit?)
      modifies this
      ensures Matches(Apply(s, e))
    {
      match e
      case SchedFlush => FlushStage(s);
      case SchedLaunch => if !closing && !terminalFailure { LaunchAll(); }
      case SchedRetryable => RetryStage(s);
      case SchedExit =>
    }

    /** What the select does with a command. */
    method TakeCommand(s: State)
      requires Matches(s) && s.cmds != []
      modifies this
      ensures Matches(DoCommand(s))
    {
      match s.cmds[0]
      case Enqueue(id) => TakeEnqueue(id);
      case Cancel(id) => var _ := Withdraw(id);
      case Close(request) => TakeClose(request);
    }

    /** All senders are gone. */
    method TakeHangup(s: State)
      requires Matches(s)
      modifies this
      ensures Matches(DoHangup(s))
    {
      cmdClosed := true;
      if !dispatcherUp { restartRequested := true; }
      CloseAll();
      closing := true;
    }

    method TakeAck(s: State)
      requires Matches(s) && s.acks != []
      modifies this
      ensures Matches(DoAck(s))
    {
      DrainAcks([s.acks[0]]);
    }

    /** One branch of the select, or a step of the shutdown, is the machine's event. */
    method Handle(s: State, e: Event)
      requires Matches(s) && Enabled(s, e) && SelectEvent(e)
      modifies this
      ensures Matches(Apply(s, e))
    {
      match e
      case SelCommand => TakeCommand(s);
      case SelHangup => TakeHangup(s);
      case SelWorker(id, result) => TakeWorkerEvent(id, result);
      case SelAck => TakeAck(s);
      case ShutJoin => responder := None;
      case SelYield =>
      case ShutDrop =>
    }

    /**
     * The loop's code under any interleaving with clients, workers and the dispatcher thread: event by event it stays in
     * step with the machine. The other threads touch only the pools they share with it.
     */
    method Simulate(run: seq<Event>) returns (s: State)
      requires Matches(Init) && ValidRun(Init, run)
      modifies this
      ensures s == Exec(Init, run) && Matches(s)
    {
      s := Init;
      var rest := run;
      while rest != []
        invariant Matches(s) && ValidRun(s, rest) && Exec(s, rest) == Exec(Init, run)
        decreases |rest|
      {
        var e := rest[0];
        var t := Apply(s, e);
        if e.SchedDrain? || e.SchedCheck? || e.SchedRestart? {
          EarlyStage(s, e);
        } else if TurnEvent(e) {
          LateStage(s, e);
        } else if SelectEvent(e) {
          Handle(s, e);
        } else {
          SharedOnly(s, e);
          bodySlots, registry := t.bodyFree, t.registry;
        }
        s, rest := t, rest[1..];
      }
    }
  }

  /** Clients and the dispatcher thread never touch the loop's own variables. */
  lemma SharedOnly(s: State, e: Event)
    requires Enabled(s, e) && !TurnEvent(e) && !SelectEvent(e)
    ensures Apply(s, e).core == s.core
  {}
}
