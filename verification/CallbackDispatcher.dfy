/** The bounded callback queue: sampling frames may be dropped, everything else is delivered in order. */
module CallbackDispatcher {

  const CALLBACK_QUEUE_CAPACITY: nat := 2048

  datatype Status = Pending | Transmission | Paused | Completed | Failed | Canceled

  datatype Frame = Progress(task: nat, status: Status, value: nat) | Complete(task: nat)

  predicate Sampling(f: Frame) { f.Progress? && f.status.Transmission? }

  /** The frames that must arrive. */
  function Kept(frames: seq<Frame>): seq<Frame> {
    if frames == [] then []
    else
      var rest := Kept(frames[..|frames| - 1]);
      if Sampling(frames[|frames| - 1]) then rest else rest + [frames[|frames| - 1]]
  }

  predicate Subsequence(a: seq<Frame>, b: seq<Frame>)
    decreases |b|
  {
    a == [] ||
    (b != [] &&
      ((a[|a| - 1] == b[|b| - 1] && Subsequence(a[..|a| - 1], b[..|b| - 1])) || Subsequence(a, b[..|b| - 1])))
  }

  /** At most one frame is in the hands of the submitter (blocked) and at most one in those of the thread (running). */
  datatype State = State(
    submitted: seq<Frame>, blocked: seq<Frame>, queue: seq<Frame>, running: seq<Frame>, delivered: seq<Frame>,
    senderAlive: bool, exited: bool)

  datatype Event = Submit(frame: Frame) | Unblock | Receive | Return | DropSender | Exit

  function Init(): State { State([], [], [], [], [], true, false) }

  predicate Enabled(s: State, e: Event) {
    match e
    case Submit(_) | DropSender => s.senderAlive && s.blocked == []
    case Unblock => s.blocked != [] && |s.queue| < CALLBACK_QUEUE_CAPACITY
    case Receive => s.queue != [] && s.running == []
    case Return => s.running != []
    case Exit => !s.senderAlive && s.queue == [] && s.running == [] && !s.exited
  }

  /** A full queue drops a sampling frame and makes the submitter of any other frame wait. */
  function Apply(s: State, e: Event): State
    requires Enabled(s, e)
  {
    match e
    case Submit(f) =>
      var t := s.(submitted := s.submitted + [f]);
      if |s.queue| < CALLBACK_QUEUE_CAPACITY then t.(queue := s.queue + [f])
      else if Sampling(f) then t
      else t.(blocked := [f])
    case Unblock => s.(queue := s.queue + s.blocked, blocked := [])
    case Receive => s.(running := [s.queue[0]], queue := s.queue[1..])
    case Return => s.(delivered := s.delivered + s.running, running := [])
    case DropSender => s.(senderAlive := false)
    case Exit => s.(exited := true)
  }

  predicate ValidRun(s: State, run: seq<Event>)
    decreases |run|
  {
    run == [] || (Enabled(s, run[0]) && ValidRun(Apply(s, run[0]), run[1..]))
  }

  function Exec(s: State, run: seq<Event>): State
    requires ValidRun(s, run)
    decreases |run|
  {
    if run == [] then s else Exec(Apply(s, run[0]), run[1..])
  }

  /** Everything not dropped, in the order it left the submitter. */
  function Flow(s: State): seq<Frame> { s.delivered + s.running + s.queue + s.blocked }

  predicate Inv(s: State) {
    && Subsequence(Flow(s), s.submitted) && Kept(Flow(s)) == Kept(s.submitted)
    && |s.queue| <= CALLBACK_QUEUE_CAPACITY && |s.running| <= 1 && |s.blocked| <= 1
    && (!s.senderAlive ==> s.blocked == [])
    && (s.exited ==> !s.senderAlive && s.queue == [] && s.running == [])
  }

  lemma KeptSnoc(a: seq<Frame>, x: Frame)
    ensures Kept(a + [x]) == if Sampling(x) then Kept(a) else Kept(a) + [x]
  {
    assert (a + [x])[..|a|] == a;
  }

  lemma SubsequenceSnoc(a: seq<Frame>, b: seq<Frame>, x: Frame)
    requires Subsequence(a, b)
    ensures Subsequence(a + [x], b + [x]) && Subsequence(a, b + [x])
  {
    assert (a + [x])[..|a|] == a && (b + [x])[..|b|] == b;
  }

  lemma SubmitKeepsInv(s: State, f: Frame)
    requires Inv(s) && Enabled(s, Submit(f))
    ensures Inv(Apply(s, Submit(f)))
  {
    var t := Apply(s, Submit(f));
    SubsequenceSnoc(Flow(s), s.submitted, f);
    KeptSnoc(Flow(s), f);
    KeptSnoc(s.submitted, f);
    if |s.queue| < CALLBACK_QUEUE_CAPACITY || !Sampling(f) {
      assert Flow(t) == Flow(s) + [f];
    } else {
      assert Flow(t) == Flow(s);
    }
  }

  lemma SameFlow(s: State, e: Event)
    requires Enabled(s, e) && !e.Submit?
    ensures Flow(Apply(s, e)) == Flow(s) && Apply(s, e).submitted == s.submitted
  {
    if e.Receive? { assert s.queue == [s.queue[0]] + s.queue[1..]; }
  }

  lemma StepKeepsInv(s: State, e: Event)
    requires Inv(s) && Enabled(s, e)
    ensures Inv(Apply(s, e))
  {
    if e.Submit? { SubmitKeepsInv(s, e.frame); } else { SameFlow(s, e); }
  }

  lemma {:induction false} RunKeepsInv(s: State, run: seq<Event>)
    requires Inv(s) && ValidRun(s, run)
    ensures Inv(Exec(s, run))
    decreases |run|
  {
    if run != [] {
      StepKeepsInv(s, run[0]);
      RunKeepsInv(Apply(s, run[0]), run[1..]);
    }
  }

  /** At every moment what was delivered, followed by what is under way, is what was submitted minus sampling frames. */
  lemma NothingButSamplingIsLost(run: seq<Event>)
    requires ValidRun(Init(), run)
    ensures Subsequence(Flow(Exec(Init(), run)), Exec(Init(), run).submitted)
    ensures Kept(Flow(Exec(Init(), run))) == Kept(Exec(Init(), run).submitted)
    ensures |Exec(Init(), run).queue| <= CALLBACK_QUEUE_CAPACITY
  {
    RunKeepsInv(Init(), run);
  }

  /** Once the sender is dropped and the thread joined, the delivered frames alone are complete. */
  lemma JoinMeansDelivered(run: seq<Event>)
    requires ValidRun(Init(), run) && Exec(Init(), run).exited
    ensures Kept(Exec(Init(), run).delivered) == Kept(Exec(Init(), run).submitted)
    ensures Subsequence(Exec(Init(), run).delivered, Exec(Init(), run).submitted)
  {
    RunKeepsInv(Init(), run);
    assert Flow(Exec(Init(), run)) == Exec(Init(), run).delivered;
  }

  // ---------------------------------------------------------------- the thread does exit

  function Remaining(s: State): nat { 2 * |s.queue| + |s.running| + if s.exited then 0 else 1 }

  /** After the sender is dropped only the dispatcher moves; it is never stuck and each move lowers the remaining work. */
  lemma DrainingEnds(run: seq<Event>, e: Event)
    requires ValidRun(Init(), run) && !Exec(Init(), run).senderAlive
    ensures !Exec(Init(), run).exited ==> exists d :: Enabled(Exec(Init(), run), d)
    ensures Enabled(Exec(Init(), run), e) ==> Remaining(Apply(Exec(Init(), run), e)) < Remaining(Exec(Init(), run))
  {
    RunKeepsInv(Init(), run);
    var s := Exec(Init(), run);
    assert Enabled(s, Return) || Enabled(s, Receive) || Enabled(s, Exit) || s.exited;
  }

  // ---------------------------------------------------------------- progress never goes backwards

  predicate Ascends(frames: seq<Frame>, task: nat) {
    forall i, j :: 0 <= i < j < |frames| && Of(frames[i], task) && Of(frames[j], task) ==> frames[i].value <= frames[j].value
  }

  predicate Of(f: Frame, task: nat) { f.Progress? && f.task == task }

  lemma {:induction false} SubsequenceMember(a: seq<Frame>, b: seq<Frame>, f: Frame)
    requires Subsequence(a, b) && f in a
    ensures f in b
    decreases |b|
  {
    if Subsequence(a, b[..|b| - 1]) {
      SubsequenceMember(a, b[..|b| - 1], f);
    } else if f != a[|a| - 1] {
      SubsequenceMember(a[..|a| - 1], b[..|b| - 1], f);
    }
  }

  lemma {:induction false} SubsequenceAscends(a: seq<Frame>, b: seq<Frame>, task: nat)
    requires Subsequence(a, b) && Ascends(b, task)
    ensures Ascends(a, task)
    decreases |b|
  {
    if a != [] {
      var m := |b| - 1;
      assert Ascends(b[..m], task);
      if Subsequence(a, b[..m]) {
        SubsequenceAscends(a, b[..m], task);
      } else {
        var n := |a| - 1;
        SubsequenceAscends(a[..n], b[..m], task);
        forall i | 0 <= i < n && Of(a[i], task) && Of(a[n], task) ensures a[i].value <= a[n].value {
          SubsequenceMember(a[..n], b[..m], a[..n][i]);
          var k :| 0 <= k < m && b[..m][k] == a[i];
          assert Of(b[k], task) && Of(b[m], task);
        }
        forall i, j | 0 <= i < j < |a| && Of(a[i], task) && Of(a[j], task) ensures a[i].value <= a[j].value {
          if j < n { assert Of(a[..n][i], task) && Of(a[..n][j], task); }
        }
      }
    }
  }

  /** If the scheduler reports a task's progress in ascending order, the callbacks see it ascending, drops or not. */
  lemma ProgressNeverGoesBack(run: seq<Event>, task: nat)
    requires ValidRun(Init(), run) && Ascends(Exec(Init(), run).submitted, task)
    ensures Ascends(Exec(Init(), run).delivered, task)
  {
    RunKeepsInv(Init(), run);
    var s := Exec(Init(), run);
    SubsequenceAscends(Flow(s), s.submitted, task);
    assert forall i :: 0 <= i < |s.delivered| ==> Flow(s)[i] == s.delivered[i];
  }

  // ---------------------------------------------------------------- the code

  /** One submitter and the dispatcher thread that makes room for it. */
  class Dispatcher {
    var submitted: seq<Frame>
    var queue: seq<Frame>
    var delivered: seq<Frame>

    ghost function View(): State
      reads this
    {
      State(submitted, [], queue, [], delivered, true, false)
    }

    constructor ()
      ensures View() == Init() && Inv(View())
    {
      submitted, queue, delivered := [], [], [];
    }

    /** One turn of the receive loop: call back, isolating a panic. */
    method ReceiveOne()
      requires Inv(View()) && queue != []
      modifies `queue, `delivered
      ensures Inv(View()) && delivered == old(delivered) + [old(queue)[0]] && queue == old(queue)[1..]
    {
      StepKeepsInv(View(), Receive);
      StepKeepsInv(Apply(View(), Receive), Return);
      delivered := delivered + [queue[0]];
      queue := queue[1..];
    }

    method SubmitProgress(f: Frame)
      requires Inv(View()) && f.Progress?
      modifies this
      ensures Inv(View()) && submitted == old(submitted) + [f]
      ensures Sampling(f) && |old(queue)| == CALLBACK_QUEUE_CAPACITY ==> queue == old(queue) && delivered == old(delivered)
      ensures !(Sampling(f) && |old(queue)| == CALLBACK_QUEUE_CAPACITY) ==> delivered + queue == old(delivered + queue) + [f]
    {
      if Sampling(f) {
        StepKeepsInv(View(), Submit(f));
        submitted := submitted + [f];
        if |queue| < CALLBACK_QUEUE_CAPACITY { queue := queue + [f]; }
        return;
      }
      Send(f);
    }

    method SubmitComplete(task: nat)
      requires Inv(View())
      modifies this
      ensures Inv(View()) && submitted == old(submitted) + [Complete(task)]
      ensures delivered + queue == old(delivered + queue) + [Complete(task)]
    {
      Send(Complete(task));
    }

    /** The blocking send: it waits until the thread has made room. */
    method Send(f: Frame)
      requires Inv(View()) && !Sampling(f)
      modifies this
      ensures Inv(View()) && submitted == old(submitted) + [f]
      ensures delivered + queue == old(delivered + queue) + [f]
    {
      while |queue| >= CALLBACK_QUEUE_CAPACITY
        invariant Inv(View()) && submitted == old(submitted) && delivered + queue == old(delivered + queue)
        decreases |queue|
      {
        ghost var before := queue;
        ReceiveOne();
        assert before == [before[0]] + queue;
      }
      StepKeepsInv(View(), Submit(f));
      submitted, queue := submitted + [f], queue + [f];
    }

    /** The rest of the loop after the last sender is gone, up to the join. */
    method Join()
      requires Inv(View())
      modifies `queue, `delivered
      ensures Inv(View()) && queue == [] && delivered == old(delivered + queue)
      ensures Kept(delivered) == Kept(submitted) && Subsequence(delivered, submitted)
    {
      while queue != []
        invariant Inv(View()) && delivered + queue == old(delivered + queue) && submitted == old(submitted)
        decreases |queue|
      {
        ghost var before := queue;
        ReceiveOne();
        assert before == [before[0]] + queue;
      }
      assert Flow(View()) == delivered;
    }
  }
}
