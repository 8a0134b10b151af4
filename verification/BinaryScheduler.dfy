/** The bounded binary-download scheduler as a transition system.

    A state holds the variables of the scheduler loop (`Core`), the channels that
    connect it to its clients and to its callback dispatcher thread, the two permit
    pools, and a record of what has happened so far. An event is one atomic step of
    one thread; a run is a list of events, so every interleaving of the client
    threads, the scheduler, the workers and the dispatcher is some run. */
module BinaryScheduler {
  import opened Results

  const MAX_CONCURRENCY := 2
  const MAX_OUTSTANDING_TASKS := 1024
  const COMMAND_CAPACITY := MAX_OUTSTANDING_TASKS
  const CALLBACK_CAPACITY := 2

  type TaskId = nat

  datatype Reason = NoReason | CancelReason | CloseReason

  datatype Outcome = Success(size: nat) | WorkerFailed | TaskCanceled | ClientClosed

  datatype WorkerResult = Downloaded(size: nat) | Errored

  datatype Job = Job(id: TaskId, outcome: Outcome)

  /** A close request: its number, and the tasks already accepted when it was sent. */
  datatype CloseRequest = CloseRequest(ticket: nat, before: set<TaskId>)

  datatype Command =
    | Enqueue(id: TaskId)
    | Cancel(id: TaskId)
    | Close(request: Option<CloseRequest>)

  /** What a close caller hears: teardown finished (with or without an error), or retry. */
  datatype Reply = Complete(ok: bool) | Retryable

  datatype Answer = Answer(request: CloseRequest, reply: Reply)

  /** The local variables of the scheduler loop. */
  datatype Core = Core(
    pending: seq<TaskId>,
    active: map<TaskId, Reason>,
    terminal: seq<Job>,
    inflight: nat,
    dispatcherUp: bool,
    restartRequested: bool,
    dispatcherError: bool,
    terminalFailure: bool,
    closing: bool,
    cmdClosed: bool,
    responder: Option<CloseRequest>
  )

  /** Where the scheduler stands in one turn of its loop, and after it. */
  datatype Pc =
    | DrainAcks | CheckDispatcher | RestartDispatcher | Flush | Launch
    | ReplyRetryable | ExitTest | Select | Shutdown | Replied | Done

  /** The dispatcher thread. `Unplugged` has dropped its receiver and not yet acknowledged. */
  datatype Thread =
    | Absent | Idle | Running(job: Job) | Returned(id: TaskId) | Unplugged(id: TaskId)
    | Finished(panicked: bool)

  datatype State = State(
    core: Core,
    pc: Pc,
    cmds: seq<Command>,
    sendersAlive: bool,
    entering: set<TaskId>,
    thread: Thread,
    chan: seq<Job>,
    acks: seq<TaskId>,
    registry: set<TaskId>,
    outstanding: int,
    bodyFree: int,
    // what has happened so far
    accepted: set<TaskId>,
    calls: seq<Job>,
    lost: seq<TaskId>,
    discarded: seq<TaskId>,
    cancelAcked: set<TaskId>,
    closedOver: set<TaskId>,
    answers: seq<Answer>
  )

  datatype Event =
    // client threads
    | BeginEnqueue(id: TaskId) | SendEnqueue(id: TaskId) | FailEnqueue(id: TaskId)
    | SendCancel(id: TaskId) | SendClose(ticket: Option<nat>) | DropSenders
    // the scheduler, one event for each stage of a turn
    | SchedDrain | SchedCheck | SchedRestart(ok: bool) | SchedFlush | SchedLaunch
    | SchedRetryable | SchedExit
    | SelYield | SelCommand | SelHangup | SelWorker(id: TaskId, result: WorkerResult) | SelAck
    | ShutJoin | ShutDrop
    // the dispatcher thread
    | ThRecv | ThRun | ThAck | ThUnplug | ThAckExit | ThHangup | ThCrash

  const EmptyCore := Core([], map[], [], 0, true, false, false, false, false, false, None)

  const Init := State(
    EmptyCore, DrainAcks, [], true, {}, Idle, [], [], {}, 0, MAX_CONCURRENCY,
    {}, [], [], [], {}, {}, [])

  // ---------------------------------------------------------------- small functions

  function JobIds(jobs: seq<Job>): (ids: seq<TaskId>)
    ensures |ids| == |jobs|
  {
    seq(|jobs|, i requires 0 <= i < |jobs| => jobs[i].id)
  }

  function EnqueuedIds(cmds: seq<Command>): (ids: seq<TaskId>)
  {
    if cmds == [] then []
    else (if cmds[0].Enqueue? then [cmds[0].id] else []) + EnqueuedIds(cmds[1..])
  }

  function ClosedJobs(ids: seq<TaskId>): (jobs: seq<Job>)
    ensures |jobs| == |ids|
    ensures forall i :: 0 <= i < |ids| ==> jobs[i] == Job(ids[i], ClientClosed)
  {
    seq(|ids|, i requires 0 <= i < |ids| => Job(ids[i], ClientClosed))
  }

  function Elements(ids: seq<TaskId>): set<TaskId> { set x | x in ids }

  function SaturatingSub(a: nat, b: nat): nat { if a < b then 0 else a - b }

  /** The dispatcher thread still owns its end of the callback channel. */
  predicate ReceiverAlive(t: Thread) { t.Idle? || t.Running? || t.Returned? }

  /** Jobs handed to the dispatcher whose callback has not run. */
  function Held(s: State): seq<Job> {
    s.chan + (if s.thread.Running? then [s.thread.job] else [])
  }

  // ---------------------------------------------------------------- the loop's helpers

  function FinishTask(c: Core, id: TaskId, outcome: Outcome): Core {
    c.(terminal := c.terminal + [Job(id, outcome)])
  }

  function BeginClose(c: Core): Core {
    c.(pending := [],
       terminal := c.terminal + ClosedJobs(c.pending),
       active := map id | id in c.active :: CloseReason)
  }

  function Position(ids: seq<TaskId>, id: TaskId): (i: nat)
    ensures i <= |ids|
    ensures i < |ids| ==> ids[i] == id
    ensures i == |ids| <==> id !in ids
  {
    if ids == [] || ids[0] == id then 0 else 1 + Position(ids[1..], id)
  }

  /** The new loop variables, and whether the cancel is acknowledged. */
  function CancelTask(c: Core, id: TaskId): (Core, bool) {
    var i := Position(c.pending, id);
    if i < |c.pending| then
      (FinishTask(c.(pending := c.pending[..i] + c.pending[i + 1..]), id, TaskCanceled), true)
    else if id in c.active && c.active[id] == NoReason then
      (c.(active := c.active[id := CancelReason]), true)
    else
      (c, false)
  }

  /** Moves pending tasks to active while a slot and a body permit are free. */
  function LaunchPending(c: Core, free: int): (Core, int)
    decreases |c.pending|
  {
    if |c.active| < MAX_CONCURRENCY && 0 < free && c.pending != [] then
      LaunchPending(c.(active := c.active[c.pending[0] := NoReason], pending := c.pending[1..]), free - 1)
    else
      (c, free)
  }

  function WorkerOutcome(reason: Reason, result: WorkerResult): Outcome {
    match reason
    case CancelReason => TaskCanceled
    case CloseReason => ClientClosed
    case NoReason => match result
      case Downloaded(size) => Success(size)
      case Errored => WorkerFailed
  }

  datatype FlushResult = FlushIdle | FlushSent | FlushFull | FlushDisconnected

  function FlushOutcome(c: Core, receiverAlive: bool, queued: nat): FlushResult {
    if 0 < c.inflight || c.terminal == [] then FlushIdle
    else if !receiverAlive then FlushDisconnected
    else if CALLBACK_CAPACITY <= queued then FlushFull
    else FlushSent
  }

  predicate Stopped(s: State) { s.core.closing || s.core.terminalFailure }

  // ---------------------------------------------------------------- steps

  predicate CanSend(s: State) { s.sendersAlive && !s.pc.Done? && |s.cmds| < COMMAND_CAPACITY }

  predicate Enabled(s: State, e: Event) {
    match e
    case BeginEnqueue(id) =>
      s.sendersAlive && s.outstanding < MAX_OUTSTANDING_TASKS && id !in s.accepted && id !in s.entering
    case SendEnqueue(id) => id in s.entering && CanSend(s)
    case FailEnqueue(id) => id in s.entering && !CanSend(s)
    case SendCancel(_) => CanSend(s)
    case SendClose(_) => CanSend(s)
    case DropSenders => s.sendersAlive && s.entering == {}
    case SchedDrain => s.pc.DrainAcks?
    case SchedCheck => s.pc.CheckDispatcher?
    case SchedRestart(_) => s.pc.RestartDispatcher?
    case SchedFlush => s.pc.Flush?
    case SchedLaunch => s.pc.Launch?
    case SchedRetryable => s.pc.ReplyRetryable?
    case SchedExit => s.pc.ExitTest?
    case SelYield => s.pc.Select? && s.core.restartRequested
    case SelCommand => s.pc.Select? && !s.core.cmdClosed && s.cmds != []
    case SelHangup => s.pc.Select? && !s.core.cmdClosed && s.cmds == [] && !s.sendersAlive
    case SelWorker(id, _) => s.pc.Select? && id in s.core.active
    case SelAck => s.pc.Select? && 0 < s.core.inflight && s.acks != []
    case ShutJoin => s.pc.Shutdown? && (s.core.dispatcherUp ==> s.thread.Finished?)
    case ShutDrop => s.pc.Replied?
    case ThRecv => s.thread.Idle? && s.chan != []
    case ThRun => s.thread.Running?
    case ThAck => s.thread.Returned?
    case ThUnplug => s.thread.Returned?
    case ThAckExit => s.thread.Unplugged?
    case ThHangup => s.thread.Idle? && s.chan == [] && s.pc.Shutdown?
    case ThCrash => ReceiverAlive(s.thread)
  }

  function DoAdmit(s: State, id: TaskId): State {
    s.(entering := s.entering + {id}, outstanding := s.outstanding + 1, registry := s.registry + {id})
  }

  function DoAccept(s: State, id: TaskId): State {
    s.(entering := s.entering - {id}, accepted := s.accepted + {id}, cmds := s.cmds + [Enqueue(id)])
  }

  function DoRefuse(s: State, id: TaskId): State {
    s.(entering := s.entering - {id}, outstanding := s.outstanding - 1, registry := s.registry - {id})
  }

  function CloseCommand(s: State, ticket: Option<nat>): Command {
    Close(if ticket.Some? then Some(CloseRequest(ticket.value, s.accepted)) else None)
  }

  function DoSend(s: State, c: Command): State { s.(cmds := s.cmds + [c]) }

  function DoRecv(s: State): State
    requires s.chan != []
  {
    s.(thread := Running(s.chan[0]), chan := s.chan[1..])
  }

  function DoAcknowledge(s: State, id: TaskId, next: Thread): State {
    s.(acks := s.acks + [id], thread := next)
  }

  function Receive(c: Core, acks: seq<TaskId>): Core { c.(inflight := SaturatingSub(c.inflight, |acks|)) }

  function DoDrain(s: State): State {
    s.(core := Receive(s.core, s.acks), registry := s.registry - Elements(s.acks), acks := [],
       pc := CheckDispatcher)
  }

  function WithFailure(c: Core): Core { c.(terminalFailure := true, closing := true, dispatcherError := true) }

  /** Reaps a finished dispatcher: restart if its last job was acknowledged, fail otherwise. */
  function DoCheck(s: State): State {
    if s.core.dispatcherUp && s.thread.Finished? then
      var c := Receive(s.core, s.acks).(dispatcherUp := false);
      var t := s.(registry := s.registry - Elements(s.acks), acks := [], thread := Absent,
                  pc := RestartDispatcher);
      if c.inflight == 0 then
        t.(core := c.(restartRequested := true))
      else
        CloseOver(t, WithFailure(c).(inflight := 0))
    else
      s.(pc := RestartDispatcher)
  }

  function DoRestart(s: State, ok: bool): State {
    if !s.core.dispatcherUp && s.core.restartRequested then
      if ok then
        s.(core := s.core.(dispatcherUp := true, restartRequested := false, dispatcherError := false,
                           terminalFailure := false),
           thread := Idle, chan := [], pc := Flush)
      else
        CloseOver(s.(pc := Flush), WithFailure(s.core).(restartRequested := false))
    else
      s.(pc := Flush)
  }

  function DoFlush(s: State): State {
    if !s.core.dispatcherUp then s.(pc := Launch)
    else match FlushOutcome(s.core, ReceiverAlive(s.thread), |s.chan|)
      case FlushIdle => s.(pc := Launch)
      case FlushFull => s.(pc := Launch)
      case FlushDisconnected => s.(core := s.core.(restartRequested := true), pc := Launch)
      case FlushSent =>
        s.(core := s.core.(terminal := s.core.terminal[1..], inflight := 1),
           chan := s.chan + [s.core.terminal[0]], pc := Launch)
  }

  function DoLaunch(s: State): State {
    if !s.core.closing && !s.core.terminalFailure then
      var (c, free) := LaunchPending(s.core, s.bodyFree);
      s.(core := c, bodyFree := free, pc := ReplyRetryable)
    else
      s.(pc := ReplyRetryable)
  }

  /** Without a dispatcher and with nothing active, a close is answered "retry". The executor
      may be gone by then; in that fallback the remaining jobs are cleared uncalled. */
  function DoRetryable(s: State): State {
    if s.core.closing && !s.core.dispatcherUp && !s.core.restartRequested && s.core.active == map[] then
      var answers := s.answers + (if s.core.responder.Some? then [Answer(s.core.responder.value, Retryable)] else []);
      var c := s.core.(closing := false, responder := None);
      if s.core.cmdClosed then
        s.(core := c.(terminal := []), answers := answers, lost := s.lost + JobIds(s.core.terminal),
           outstanding := s.outstanding - |s.core.terminal|,
           bodyFree := s.bodyFree + Successes(s.core.terminal),
           registry := {}, pc := Shutdown)
      else
        s.(core := c, answers := answers, pc := ExitTest)
    else
      s.(pc := ExitTest)
  }

  function Successes(jobs: seq<Job>): nat {
    if jobs == [] then 0
    else (if jobs[0].outcome.Success? then 1 else 0) + Successes(jobs[1..])
  }

  predicate ExitReady(c: Core) {
    c.closing && c.dispatcherUp && c.pending == [] && c.active == map[] && c.terminal == [] && c.inflight == 0
  }

  function DoExit(s: State): State { s.(pc := if ExitReady(s.core) then Shutdown else Select) }

  /** `begin_close`, with a record of the tasks it closes over. */
  function CloseOver(s: State, c: Core): State {
    s.(core := BeginClose(c), closedOver := s.closedOver + Elements(c.pending) + c.active.Keys)
  }

  function AfterEnqueue(c: Core, id: TaskId): Core {
    if !c.closing && !c.terminalFailure then c.(pending := c.pending + [id]) else FinishTask(c, id, ClientClosed)
  }

  /** The flags a close request sets before `begin_close` runs. */
  function WithClose(c: Core, request: Option<CloseRequest>): Core {
    var d := if c.responder.None? then c.(responder := request) else c;
    (if d.dispatcherUp then d else d.(restartRequested := true, dispatcherError := false)).(closing := true)
  }

  function OnEnqueue(s: State, id: TaskId): State { s.(core := AfterEnqueue(s.core, id)) }

  function OnCancel(s: State, id: TaskId): State {
    var (c, ok) := CancelTask(s.core, id);
    s.(core := c, cancelAcked := if ok then s.cancelAcked + {id} else s.cancelAcked)
  }

  function OnClose(s: State, request: Option<CloseRequest>): State { CloseOver(s, WithClose(s.core, request)) }

  function DoCommand(s: State): State
    requires s.cmds != []
  {
    var t := s.(cmds := s.cmds[1..], pc := DrainAcks);
    match s.cmds[0]
    case Enqueue(id) => OnEnqueue(t, id)
    case Cancel(id) => OnCancel(t, id)
    case Close(request) => OnClose(t, request)
  }

  function DoHangup(s: State): State {
    var c := s.core.(cmdClosed := true, closing := true);
    CloseOver(s.(pc := DrainAcks), if c.dispatcherUp then c else c.(restartRequested := true))
  }

  function DoWorker(s: State, id: TaskId, result: WorkerResult): State
    requires id in s.core.active
  {
    var outcome := WorkerOutcome(s.core.active[id], result);
    s.(core := FinishTask(s.core.(active := s.core.active - {id}), id, outcome),
       bodyFree := if outcome.Success? then s.bodyFree else s.bodyFree + 1,
       pc := DrainAcks)
  }

  function DoAck(s: State): State
    requires s.acks != []
  {
    s.(core := s.core.(inflight := SaturatingSub(s.core.inflight, 1)),
       registry := s.registry - {s.acks[0]}, acks := s.acks[1..], pc := DrainAcks)
  }

  /** No start error is left over and the dispatcher did not panic. */
  predicate JoinOk(s: State) {
    !s.core.dispatcherError && !(s.core.dispatcherUp && s.thread.Finished? && s.thread.panicked)
  }

  function DoJoin(s: State): State {
    s.(core := s.core.(responder := None),
       answers := s.answers + (if s.core.responder.Some?
                               then [Answer(s.core.responder.value, Complete(JoinOk(s)))] else []),
       pc := Replied)
  }

  function DoDrop(s: State): State {
    var ids := EnqueuedIds(s.cmds);
    s.(cmds := [], discarded := s.discarded + ids, outstanding := s.outstanding - |ids|, pc := Done)
  }

  function DoRun(s: State): State
    requires s.thread.Running?
  {
    s.(calls := s.calls + [s.thread.job], thread := Returned(s.thread.job.id),
       outstanding := s.outstanding - 1,
       bodyFree := if s.thread.job.outcome.Success? then s.bodyFree + 1 else s.bodyFree)
  }

  /** The channel end goes away, and with it any job that is still queued. */
  function DoUnplug(s: State): State
    requires s.thread.Returned?
  {
    s.(thread := Unplugged(s.thread.id), chan := [], lost := s.lost + JobIds(s.chan),
       outstanding := s.outstanding - |s.chan|, bodyFree := s.bodyFree + Successes(s.chan))
  }

  /** The thread dies; whatever it was handed and did not call back is gone. */
  function DoCrash(s: State): State {
    s.(thread := Finished(true), chan := [], lost := s.lost + JobIds(Held(s)),
       outstanding := s.outstanding - |Held(s)|, bodyFree := s.bodyFree + Successes(Held(s)))
  }

  function Apply(s: State, e: Event): State
    requires Enabled(s, e)
  {
    match e
    case BeginEnqueue(id) => DoAdmit(s, id)
    case SendEnqueue(id) => DoAccept(s, id)
    case FailEnqueue(id) => DoRefuse(s, id)
    case SendCancel(id) => DoSend(s, Cancel(id))
    case SendClose(ticket) => DoSend(s, CloseCommand(s, ticket))
    case DropSenders => s.(sendersAlive := false)
    case SchedDrain => DoDrain(s)
    case SchedCheck => DoCheck(s)
    case SchedRestart(ok) => DoRestart(s, ok)
    case SchedFlush => DoFlush(s)
    case SchedLaunch => DoLaunch(s)
    case SchedRetryable => DoRetryable(s)
    case SchedExit => DoExit(s)
    case SelYield => s.(pc := DrainAcks)
    case SelCommand => DoCommand(s)
    case SelHangup => DoHangup(s)
    case SelWorker(id, result) => DoWorker(s, id, result)
    case SelAck => DoAck(s)
    case ShutJoin => DoJoin(s)
    case ShutDrop => DoDrop(s)
    case ThRecv => DoRecv(s)
    case ThRun => DoRun(s)
    case ThAck => DoAcknowledge(s, s.thread.id, Idle)
    case ThUnplug => DoUnplug(s)
    case ThAckExit => DoAcknowledge(s, s.thread.id, Finished(false))
    case ThHangup => s.(thread := Finished(false))
    case ThCrash => DoCrash(s)
  }

  /** Every event of the list is enabled when its turn comes. */
  predicate ValidRun(s: State, run: seq<Event>)
    decreases |run|
  {
    run == [] || (Enabled(s, run[0]) && ValidRun(Apply(s, run[0]), run[1..]))
  }

  function Exec(s: State, run: seq<Event>): State
    requires ValidRun(s, run)
    decreases |run|
  {
    if run == [] then s else Exec(Apply(s, run[0]), run[1..])
  }
}
