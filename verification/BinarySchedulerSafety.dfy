/** What every step of the binary scheduler keeps. The invariant speaks about one task at a
    time (`TaskInv`) and about the loop as a whole (`LoopInv`). */
module BinarySchedulerSafety {
  import opened Results
  import opened BinaryScheduler

  // ---------------------------------------------------------------- counting a task

  function Times(ids: seq<TaskId>, id: TaskId): nat {
    if ids == [] then 0 else (if ids[0] == id then 1 else 0) + Times(ids[1..], id)
  }

  function JobTimes(jobs: seq<Job>, id: TaskId): nat {
    if jobs == [] then 0 else (if jobs[0].id == id then 1 else 0) + JobTimes(jobs[1..], id)
  }

  function CmdTimes(cmds: seq<Command>, id: TaskId): nat {
    if cmds == [] then 0 else (if cmds[0] == Enqueue(id) then 1 else 0) + CmdTimes(cmds[1..], id)
  }

  function Bit(b: bool): nat { if b then 1 else 0 }

  /** How often the task occurs in the loop's own collections. */
  function CoreCount(c: Core, id: TaskId): nat {
    Times(c.pending, id) + Bit(id in c.active) + JobTimes(c.terminal, id)
  }

  /** How often the task occurs where it still waits for its callback. */
  function WaitingCount(s: State, id: TaskId): nat {
    CmdTimes(s.cmds, id) + CoreCount(s.core, id) + JobTimes(Held(s), id)
  }

  /** How often the task occurs anywhere, callbacks included. */
  function PlaceCount(s: State, id: TaskId): nat {
    WaitingCount(s, id) + JobTimes(s.calls, id) + Times(s.lost, id) + Times(s.discarded, id)
  }

  lemma {:induction false} TimesConcat(a: seq<TaskId>, b: seq<TaskId>, id: TaskId)
    ensures Times(a + b, id) == Times(a, id) + Times(b, id)
  {
    if a == [] { assert a + b == b; } else { assert (a + b)[1..] == a[1..] + b; TimesConcat(a[1..], b, id); }
  }

  lemma {:induction false} JobTimesConcat(a: seq<Job>, b: seq<Job>, id: TaskId)
    ensures JobTimes(a + b, id) == JobTimes(a, id) + JobTimes(b, id)
  {
    if a == [] { assert a + b == b; } else { assert (a + b)[1..] == a[1..] + b; JobTimesConcat(a[1..], b, id); }
  }

  lemma {:induction false} CmdTimesConcat(a: seq<Command>, b: seq<Command>, id: TaskId)
    ensures CmdTimes(a + b, id) == CmdTimes(a, id) + CmdTimes(b, id)
  {
    if a == [] { assert a + b == b; } else { assert (a + b)[1..] == a[1..] + b; CmdTimesConcat(a[1..], b, id); }
  }

  lemma {:induction false} TimesZero(ids: seq<TaskId>, id: TaskId)
    ensures Times(ids, id) == 0 <==> id !in ids
  {
    if ids != [] { TimesZero(ids[1..], id); }
  }

  lemma {:induction false} JobIdsTimes(jobs: seq<Job>, id: TaskId)
    ensures Times(JobIds(jobs), id) == JobTimes(jobs, id)
  {
    if jobs != [] {
      assert JobIds(jobs)[1..] == JobIds(jobs[1..]);
      JobIdsTimes(jobs[1..], id);
    }
  }

  lemma {:induction false} EnqueuedIdsTimes(cmds: seq<Command>, id: TaskId)
    ensures Times(EnqueuedIds(cmds), id) == CmdTimes(cmds, id)
  {
    if cmds != [] {
      TimesConcat(if cmds[0].Enqueue? then [cmds[0].id] else [], EnqueuedIds(cmds[1..]), id);
      EnqueuedIdsTimes(cmds[1..], id);
    }
  }

  lemma {:induction false} ClosedJobsTimes(ids: seq<TaskId>, id: TaskId)
    ensures JobTimes(ClosedJobs(ids), id) == Times(ids, id)
    ensures JobsEnd(ClosedJobs(ids), id, true)
  {
    if ids != [] {
      assert ClosedJobs(ids)[1..] == ClosedJobs(ids[1..]);
      ClosedJobsTimes(ids[1..], id);
    }
  }

  // ---------------------------------------------------------------- outcomes and close requests

  predicate Ends(strict: bool, o: Outcome) { o.ClientClosed? || (!strict && o.TaskCanceled?) }

  predicate Marked(strict: bool, r: Reason) { r.CloseReason? || (!strict && r.CancelReason?) }

  /** Every job of the task says `ClientClosed`, or also `TaskCanceled` when not `strict`. */
  predicate JobsEnd(jobs: seq<Job>, id: TaskId, strict: bool) {
    jobs == [] || ((jobs[0].id == id ==> Ends(strict, jobs[0].outcome)) && JobsEnd(jobs[1..], id, strict))
  }

  lemma {:induction false} JobsEndConcat(a: seq<Job>, b: seq<Job>, id: TaskId, strict: bool)
    ensures JobsEnd(a + b, id, strict) <==> JobsEnd(a, id, strict) && JobsEnd(b, id, strict)
  {
    if a == [] { assert a + b == b; } else { assert (a + b)[1..] == a[1..] + b; JobsEndConcat(a[1..], b, id, strict); }
  }

  lemma {:induction false} AbsentJobsEnd(jobs: seq<Job>, id: TaskId, strict: bool)
    requires JobTimes(jobs, id) == 0
    ensures JobsEnd(jobs, id, strict)
  {
    if jobs != [] { AbsentJobsEnd(jobs[1..], id, strict); }
  }

  predicate Names(c: Command, id: TaskId) { c.Close? && c.request.Some? && id in c.request.value.before }

  /** No `Enqueue` of the task stands behind a close request sent after its acceptance. */
  predicate Sealed(cmds: seq<Command>, id: TaskId) {
    cmds == [] || ((Names(cmds[0], id) ==> CmdTimes(cmds, id) == 0) && Sealed(cmds[1..], id))
  }

  predicate Unnamed(cmds: seq<Command>, id: TaskId) {
    cmds == [] || (!Names(cmds[0], id) && Unnamed(cmds[1..], id))
  }

  lemma {:induction false} SendSeals(cmds: seq<Command>, c: Command, id: TaskId)
    requires Sealed(cmds, id) && (c == Enqueue(id) ==> Unnamed(cmds, id))
    ensures Sealed(cmds + [c], id)
    ensures Unnamed(cmds, id) && !Names(c, id) ==> Unnamed(cmds + [c], id)
  {
    CmdTimesConcat(cmds, [c], id);
    if cmds != [] {
      assert (cmds + [c])[1..] == cmds[1..] + [c];
      SendSeals(cmds[1..], c, id);
    }
  }

  // ---------------------------------------------------------------- the invariant for one task

  /** Exactly one place for an accepted task, none for any other. */
  predicate OnePlace(s: State, id: TaskId) {
    PlaceCount(s, id) == Bit(id in s.accepted) && !(id in s.entering && id in s.accepted)
  }

  predicate Doomed(s: State, id: TaskId, strict: bool) {
    && id in s.accepted && CmdTimes(s.cmds, id) == 0 && Times(s.core.pending, id) == 0
    && (id in s.core.active ==> Marked(strict, s.core.active[id]))
    && JobsEnd(s.core.terminal, id, strict) && JobsEnd(Held(s), id, strict) && JobsEnd(s.calls, id, strict)
  }

  predicate Outcomes(s: State, id: TaskId) {
    && (id in s.closedOver ==> Doomed(s, id, true))
    && (id in s.cancelAcked ==> Doomed(s, id, false))
  }

  predicate CalledOrLost(s: State, id: TaskId) { 0 < JobTimes(s.calls, id) || 0 < Times(s.lost, id) }

  predicate Closes(s: State, id: TaskId) {
    && Sealed(s.cmds, id)
    && (s.core.responder.Some? && id in s.core.responder.value.before ==> CmdTimes(s.cmds, id) == 0)
    && (id !in s.accepted ==> Unnamed(s.cmds, id))
    && (id !in s.accepted ==> s.core.responder.Some? ==> id !in s.core.responder.value.before)
    && (forall a :: a in s.answers && a.reply.Complete? && id in a.request.before ==> CalledOrLost(s, id))
  }

  /** A task is registered from its admission until its callback has been acknowledged. */
  predicate Registered(s: State, id: TaskId) {
    && (id in s.entering || 0 < WaitingCount(s, id) ==> id in s.registry)
    && (0 < Times(s.acks, id) ==> 0 < JobTimes(s.calls, id))
    && ((s.thread.Returned? || s.thread.Unplugged?) && s.thread.id == id ==> 0 < JobTimes(s.calls, id))
  }

  predicate TaskInv(s: State, id: TaskId) {
    OnePlace(s, id) && Outcomes(s, id) && Closes(s, id) && Registered(s, id)
  }

  // ---------------------------------------------------------------- the invariant for the loop

  /** The in-flight job wherever it is: queued, being run, run, or acknowledged. */
  function InFlight(s: State): nat {
    |s.chan| + Bit(s.thread.Running? || s.thread.Returned? || s.thread.Unplugged?) + |s.acks|
  }

  predicate Handshake(s: State) {
    && InFlight(s) <= s.core.inflight <= 1
    && (InFlight(s) < s.core.inflight ==> s.thread.Finished? && s.thread.panicked)
    && (s.core.dispatcherUp <==> !s.thread.Absent?)
    && (!ReceiverAlive(s.thread) ==> s.chan == [])
    && (s.thread.Absent? ==> s.core.inflight == 0)
  }

  predicate PastLoop(s: State) { s.pc.Shutdown? || s.pc.Replied? || s.pc.Done? }

  predicate AllClosing(active: map<TaskId, Reason>) {
    forall id :: id in active ==> active[id] == CloseReason
  }

  predicate Flags(s: State) {
    && (s.core.dispatcherUp ==> !s.core.terminalFailure && !s.core.dispatcherError)
    && (!s.core.dispatcherUp && !s.core.restartRequested ==> s.core.terminalFailure)
    && (!s.core.dispatcherUp && s.core.terminalFailure && s.core.restartRequested ==> s.core.closing)
    && (Stopped(s) ==> s.core.pending == [] && AllClosing(s.core.active))
    && (PastLoop(s) ==> Stopped(s) && s.core.active == map[] && s.core.terminal == [] && s.core.inflight == 0)
    && (if s.pc.Done? then s.cmds == [] else s.discarded == [])
    && (s.core.cmdClosed ==> s.cmds == [] && !s.sendersAlive)
    && (!s.sendersAlive ==> s.entering == {})
  }

  /** Both permit pools account for every holder. */
  predicate Permits(s: State) {
    && s.outstanding == |s.entering| + |EnqueuedIds(s.cmds)| + |s.core.pending| + |s.core.active| +
                        |s.core.terminal| + |Held(s)|
    && s.outstanding <= MAX_OUTSTANDING_TASKS
    && s.bodyFree + |s.core.active| + Successes(s.core.terminal) + Successes(Held(s)) == MAX_CONCURRENCY
    && 0 <= s.bodyFree
  }

  predicate LoopInv(s: State) { Handshake(s) && Flags(s) && Permits(s) }
}
