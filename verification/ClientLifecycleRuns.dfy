/** What holds of the client lifecycle in every reachable state and over every run. */
module ClientLifecycleRuns {
  import opened ClientLifecycle

  // ---------------------------------------------------------------- framing

  /** Executors are never unbuilt or revived. */
  predicate Rises(x: Executor, y: Executor) { (x.done ==> y.done) && (x.built ==> y.built) && x.calls <= y.calls }

  predicate SameLife(s: State, t: State) {
    t.life == s.life && t.closed == s.closed && t.binary.built == s.binary.built && t.pounce.built == s.pounce.built
  }

  /** The step of thread `i` may change the lifecycle only while nobody else depends on it. */
  predicate MayChange(s: State, t: State, i: nat) {
    SameLife(s, t) || (s.lock == Held(i) && (s.life != Closing || s.token == Held(i)))
  }

  lemma PcKeeps(s: State, t: State, i: nat, j: nat)
    requires i < |s.threads| && j < |s.threads| && i != j && ThreadOk(s, j)
    requires Rises(s.pounce, t.pounce) && Rises(s.binary, t.binary) && MayChange(s, t, i)
    ensures PcOk(t, s.threads[j].pc)
  {}

  predicate Passes(a: Lock, b: Lock, i: nat) { a == b || (a == Free && b == Held(i)) || (a == Held(i) && b == Free) }

  /** What a step of thread `i` must show for the invariant to carry over to all the other threads. */
  predicate StepFrame(s: State, t: State, i: nat) {
    && i < |s.threads| == |t.threads| && t.threads == s.threads[i := t.threads[i]]
    && Rises(s.pounce, t.pounce) && Rises(s.binary, t.binary) && MayChange(s, t, i)
    && Passes(s.lock, t.lock, i) && Passes(s.token, t.token, i)
    && (s.stranded ==> t.stranded)
    && (s.token == Held(i) ==> t.token == Held(i) || t.threads[i].pc.Notifying? || t.stranded)
    && !s.threads[i].pc.Notifying?
  }

  lemma PendingKeeps(s: State, t: State, i: nat)
    requires StepFrame(s, t, i) && Pending(s)
    ensures Pending(t)
  {
    var j :| 0 <= j < |s.threads| && s.threads[j].pc.Notifying?;
    assert t.threads[j] == s.threads[j];
  }

  lemma StepKeeps(s: State, t: State, i: nat)
    requires Inv(s) && StepFrame(s, t, i) && LifeOk(t) && ThreadOk(t, i)
    ensures Inv(t)
  {
    if Pending(s) { PendingKeeps(s, t, i); }
    if t.threads[i].pc.Notifying? { assert Pending(t); }
    forall j | 0 <= j < |t.threads| ensures ThreadOk(t, j) {
      if j != i {
        assert ThreadOk(s, j) && t.threads[j] == s.threads[j];
        PcKeeps(s, t, i, j);
      }
    }
  }

  // ---------------------------------------------------------------- the steps

  lemma EnterKeeps(s: State, thread: Thread)
    requires Inv(s) && (thread.pc.Fresh? || thread.pc.WantAdmit?)
    ensures Inv(s.(threads := s.threads + [thread]))
  {
    var t := s.(threads := s.threads + [thread]);
    if Pending(s) {
      var j :| 0 <= j < |s.threads| && s.threads[j].pc.Notifying?;
      assert t.threads[j].pc.Notifying?;
    }
    forall j | 0 <= j < |t.threads| ensures ThreadOk(t, j) {
      if j < |s.threads| { assert ThreadOk(s, j) && t.threads[j] == s.threads[j]; }
    }
  }

  lemma AcquireKeeps(s: State, i: nat)
    requires Inv(s) && CanStep(s, i) && WantsLock(s.threads[i].pc)
    ensures Inv(Acquire(s, i))
  {
    assert ThreadOk(s, i);
    StepKeeps(s, Acquire(s, i), i);
  }

  lemma RetryKeeps(s: State, i: nat)
    requires Inv(s) && CanStep(s, i) && s.threads[i].pc.Deciding? && s.life.CloseFailed?
    ensures Inv(Decide(s, i))
  {
    assert ThreadOk(s, i);
    if s.token.Held? { assert ThreadOk(s, s.token.owner); }
    StepKeeps(s, Decide(s, i), i);
  }

  lemma DecideKeeps(s: State, i: nat)
    requires Inv(s) && CanStep(s, i) && s.threads[i].pc.Deciding?
    ensures Inv(Decide(s, i))
  {
    assert ThreadOk(s, i);
    match s.life {
      case Closing => StepKeeps(s, Goto(s, i, Waiting).(lock := Free), i);
      case Closed => StepKeeps(s, Goto(s, i, Returned).(lock := Free), i);
      case CloseFailed(p, b) => RetryKeeps(s, i);
      case Open => StepKeeps(s, Goto(s, i, Swapped).(closed := true), i);
    }
  }

  lemma StartClosingKeeps(s: State, i: nat)
    requires Inv(s) && CanStep(s, i) && s.threads[i].pc.Swapped?
    ensures Inv(StartClosing(s, i))
  {
    assert ThreadOk(s, i);
    if s.token.Held? { assert ThreadOk(s, s.token.owner); }
    StepKeeps(s, StartClosing(s, i), i);
  }

  lemma TearDownKeeps(s: State, i: nat, o: Outcome)
    requires Inv(s) && CanStep(s, i) && s.threads[i].pc.Tearing?
    ensures Inv(TearDown(s, i, o))
  {
    assert ThreadOk(s, i);
    StepKeeps(s, TearDown(s, i, o), i);
  }

  lemma SettleKeeps(s: State, i: nat, ok: bool)
    requires Inv(s) && CanStep(s, i) && s.threads[i].pc == Settling(ok)
    ensures Inv(Settle(s, i, ok))
  {
    assert ThreadOk(s, i);
    StepKeeps(s, Settle(s, i, ok), i);
  }

  lemma ReopenKeeps(s: State, i: nat)
    requires Inv(s) && CanStep(s, i) && s.threads[i].pc.Reopening?
    ensures Inv(Reopen(s, i))
  {
    assert ThreadOk(s, i);
    StepKeeps(s, Reopen(s, i), i);
  }

  lemma LaunchKeeps(s: State, i: nat, o: Outcome)
    requires Inv(s) && CanStep(s, i) && s.threads[i].pc.Launching?
    ensures Inv(Launch(s, i, o))
  {
    assert ThreadOk(s, i);
    var t := Launch(s, i, o);
    if o.Succeeds? {
      if Pending(s) {
        var j :| 0 <= j < |s.threads| && s.threads[j].pc.Notifying?;
        assert t.threads[j].pc.Notifying?;
      }
      forall j | 0 <= j < |t.threads| ensures ThreadOk(t, j) {
        if j < |s.threads| { assert ThreadOk(s, j); }
      }
    } else {
      StepKeeps(s, t, i);
    }
  }

  /** A supervisor step: the flags stay sound and the executors only rise. */
  lemma AttemptKeeps(s: State, i: nat, pc: Pc, x: Executor, y: Executor)
    requires Inv(s) && i < |s.threads| && s.threads[i].pc.Attempting? && pc.Attempting?
    requires Rises(s.pounce, x) && Rises(s.binary, y) && x.built == s.pounce.built && y.built == s.binary.built
    requires (pc.pounce ==> Settled(x)) && (pc.binary ==> Settled(y))
    ensures Inv(Goto(s, i, pc).(pounce := x, binary := y))
  {
    assert ThreadOk(s, i);
    StepKeeps(s, Goto(s, i, pc).(pounce := x, binary := y), i);
  }

  lemma CloseOneKeeps(s: State, i: nat, kind: Kind, o: Outcome)
    requires Inv(s) && i < |s.threads| && s.threads[i].pc.Attempting?
    ensures Inv(CloseOne(s, i, kind, o))
  {
    assert ThreadOk(s, i);
    var t := CloseOne(s, i, kind, o);
    AttemptKeeps(s, i, t.threads[i].pc, t.pounce, t.binary);
  }

  lemma PublishKeeps(s: State, i: nat)
    requires Inv(s) && CanStep(s, i) && s.threads[i].pc.Publishing?
    ensures Inv(Publish(s, i))
  {
    assert ThreadOk(s, i);
    StepKeeps(s, Publish(s, i), i);
  }

  lemma NotifyKeeps(s: State, i: nat)
    requires Inv(s) && CanStep(s, i) && s.threads[i].pc.Notifying?
    ensures Inv(Notify(s, i))
  {
    assert ThreadOk(s, i);
    var t := Notify(s, i);
    forall j | 0 <= j < |t.threads| ensures ThreadOk(t, j) {
      assert ThreadOk(s, j);
      assert j != i ==> t.threads[j] == Wake(s.threads[j]);
    }
  }

  lemma AdmissionKeeps(s: State, i: nat, o: Outcome)
    requires Inv(s) && CanStep(s, i) && (s.threads[i].pc.Checking? || s.threads[i].pc.Creating?)
    ensures Inv(Advance(s, i, o))
  {
    assert ThreadOk(s, i);
    StepKeeps(s, Advance(s, i, o), i);
  }

  /** Moves that touch nothing but the thread itself. */
  lemma MoveKeeps(s: State, i: nat, o: Outcome)
    requires Inv(s) && CanStep(s, i)
    requires var pc := s.threads[i].pc; pc.Fresh? || pc.Waiting? || pc.Attempting? || pc.Reconciling?
    ensures Inv(Advance(s, i, o))
  {
    assert ThreadOk(s, i);
    StepKeeps(s, Advance(s, i, o), i);
  }

  lemma PanicKeeps(s: State, i: nat)
    requires Inv(s) && i < |s.threads| && s.threads[i].pc.Attempting?
    ensures Inv(Goto(s, i, Reconciling(s.threads[i].pc.pounce, s.threads[i].pc.binary)))
  {
    assert ThreadOk(s, i);
    StepKeeps(s, Goto(s, i, Reconciling(s.threads[i].pc.pounce, s.threads[i].pc.binary)), i);
  }

  lemma AbandonKeeps(s: State, i: nat)
    requires Inv(s) && i < |s.threads| && (s.threads[i].pc.Waiting? || s.threads[i].pc.Tearing?)
    ensures Inv(Abandon(s, i))
  {
    assert ThreadOk(s, i);
    StepKeeps(s, Abandon(s, i), i);
  }

  lemma CompletesKeeps(s: State, t: State)
    requires Inv(s)
    requires t == s.(pounce := s.pounce.(done := true)) || t == s.(binary := s.binary.(done := true))
    ensures Inv(t)
  {
    assert Pending(s) ==> Pending(t);
    forall j | 0 <= j < |t.threads| ensures ThreadOk(t, j) { assert ThreadOk(s, j); }
  }

  lemma AdvanceKeeps(s: State, i: nat, o: Outcome)
    requires Inv(s) && CanStep(s, i)
    ensures Inv(Advance(s, i, o))
  {
    match s.threads[i].pc {
      case WantDecide | WantSettle(_) | WantPublish(_, _) | WantAdmit(_) => AcquireKeeps(s, i);
      case Deciding => DecideKeeps(s, i);
      case Swapped => StartClosingKeeps(s, i);
      case Tearing => TearDownKeeps(s, i, o);
      case Settling(ok) => SettleKeeps(s, i, ok);
      case Reopening => ReopenKeeps(s, i);
      case Launching(_, _) => LaunchKeeps(s, i, o);
      case Publishing(_, _) => PublishKeeps(s, i);
      case Notifying => NotifyKeeps(s, i);
      case Checking(_) | Creating(_) => AdmissionKeeps(s, i, o);
      case _ => MoveKeeps(s, i, o);
    }
  }

  lemma StepKeepsInv(s: State, e: Event)
    requires Inv(s) && Enabled(s, e)
    ensures Inv(Apply(s, e))
  {
    match e {
      case Close => EnterKeeps(s, Thread(Fresh, false, false));
      case Admit(k) => EnterKeeps(s, Thread(WantAdmit(k), false, false));
      case Step(i, o) => AdvanceKeeps(s, i, o);
      case CloseExecutor(i, k, o) => CloseOneKeeps(s, i, k, o);
      case Panic(i) => PanicKeeps(s, i);
      case Drop(i) => AbandonKeeps(s, i);
      case Completes(_) => CompletesKeeps(s, Apply(s, e));
    }
  }

  lemma {:induction false} RunKeepsInv(s: State, run: seq<Event>)
    requires Inv(s) && ValidRun(s, run)
    ensures Inv(Exec(s, run))
    decreases |run|
  {
    if run != [] {
      StepKeepsInv(s, run[0]);
      RunKeepsInv(Apply(s, run[0]), run[1..]);
    }
  }
}
