/** The promises of `MeowClient::close` and of the admission gate. */
module ClientLifecycleTheorems {
  import opened ClientLifecycle
  import opened ClientLifecycleRuns

  /** Whenever the lock is free the flag mirrors the lifecycle. */
  lemma ClosedFlagMirrorsLifecycle(s: State, run: seq<Event>)
    requires Initial(s) && ValidRun(s, run) && Exec(s, run).lock == Free
    ensures Exec(s, run).life == Open <==> !Exec(s, run).closed
  {
    RunKeepsInv(s, run);
  }

  lemma AtMostOneTeardown(s: State, run: seq<Event>, i: nat, j: nat)
    requires Initial(s) && ValidRun(s, run)
    requires i < |Exec(s, run).threads| && j < |Exec(s, run).threads| && i != j
    ensures !(Teardown(Exec(s, run).threads[i].pc) && Teardown(Exec(s, run).threads[j].pc))
  {
    RunKeepsInv(s, run);
    assert ThreadOk(Exec(s, run), i) && ThreadOk(Exec(s, run), j);
  }

  /** `Closed` is published only when every executor that was ever built is shut down. */
  lemma ClosedMeansShutDown(s: State, run: seq<Event>)
    requires Initial(s) && ValidRun(s, run) && Exec(s, run).life == Closed
    ensures Settled(Exec(s, run).pounce) && Settled(Exec(s, run).binary)
  {
    RunKeepsInv(s, run);
  }

  /** No admission publishes an executor once a close has won the lifecycle. */
  lemma NothingBuiltWhileClosing(s: State, run: seq<Event>, e: Event)
    requires Initial(s) && ValidRun(s, run) && Enabled(Exec(s, run), e) && Exec(s, run).life != Open
    ensures Apply(Exec(s, run), e).pounce.built == Exec(s, run).pounce.built
    ensures Apply(Exec(s, run), e).binary.built == Exec(s, run).binary.built
  {
    RunKeepsInv(s, run);
    BuiltOnlyWhenOpen(Exec(s, run), e);
  }

  lemma BuiltOnlyWhenOpen(s: State, e: Event)
    requires Inv(s) && Enabled(s, e) && s.life != Open
    ensures Apply(s, e).pounce.built == s.pounce.built && Apply(s, e).binary.built == s.binary.built
  {
    if e.Step? { assert ThreadOk(s, e.i); }
  }

  // ---------------------------------------------------------------- a mixed client that started closing

  predicate Sealed(s: State) { Inv(s) && s.binary.built && s.life != Open }

  /** The progress flag of one executor, wherever it currently lives. */
  predicate Flag(s: State, kind: Kind) {
    match s.life
    case Open => false
    case Closed => true
    case CloseFailed(p, b) => if kind.Pounce? then p else b
    case Closing =>
      s.token.Held? && s.token.owner < |s.threads| && Mixed(s.threads[s.token.owner].pc) &&
      if kind.Pounce? then s.threads[s.token.owner].pc.pounce else s.threads[s.token.owner].pc.binary
  }

  function Calls(s: State, kind: Kind): nat { if kind.Pounce? then s.pounce.calls else s.binary.calls }

  predicate FlagHolds(s: State, t: State, kind: Kind) { Flag(s, kind) ==> Flag(t, kind) && Calls(t, kind) == Calls(s, kind) }

  lemma SealedThread(s: State, i: nat)
    requires Sealed(s) && i < |s.threads|
    ensures var pc := s.threads[i].pc; !NonMixed(pc) && !pc.Creating? && !pc.Swapped?
    ensures Mixed(s.threads[i].pc) <==> s.token == Held(i)
    ensures Mixed(s.threads[i].pc) ==> s.life == Closing
  {
    assert ThreadOk(s, i);
  }

  /** A step of a thread that runs no teardown. */
  lemma SealedBystander(s: State, i: nat, o: Outcome, kind: Kind)
    requires Sealed(s) && CanStep(s, i) && s.token != Held(i)
    ensures Advance(s, i, o).life != Open && FlagHolds(s, Advance(s, i, o), kind)
  {
    SealedThread(s, i);
    if s.token.Held? { SealedThread(s, s.token.owner); }
  }

  lemma SealedTeardown(s: State, i: nat, o: Outcome, kind: Kind)
    requires Sealed(s) && CanStep(s, i) && s.token == Held(i)
    ensures Advance(s, i, o).life != Open && FlagHolds(s, Advance(s, i, o), kind)
  {
    SealedThread(s, i);
  }

  lemma SealedAdvance(s: State, i: nat, o: Outcome, kind: Kind)
    requires Sealed(s) && CanStep(s, i)
    ensures Advance(s, i, o).life != Open && FlagHolds(s, Advance(s, i, o), kind)
  {
    if s.token == Held(i) { SealedTeardown(s, i, o, kind); } else { SealedBystander(s, i, o, kind); }
  }

  lemma SealedStep(s: State, e: Event, kind: Kind)
    requires Sealed(s) && Enabled(s, e)
    ensures Sealed(Apply(s, e)) && FlagHolds(s, Apply(s, e), kind)
  {
    StepKeepsInv(s, e);
    BuiltOnlyWhenOpen(s, e);
    if e.Step? {
      SealedAdvance(s, e.i, e.outcome, kind);
    } else {
      if s.token.Held? { SealedThread(s, s.token.owner); }
      if e.CloseExecutor? || e.Panic? || e.Drop? { SealedThread(s, e.i); }
    }
  }

  /**
   * Once a client with a binary executor has started to close: it never reopens and never builds another
   * executor, and an executor whose progress flag is set keeps it and is not closed again by any retry.
   */
  lemma {:induction false} MixedCloseIsFinal(s: State, run: seq<Event>, kind: Kind)
    requires Sealed(s) && ValidRun(s, run)
    ensures Exec(s, run).life != Open && Exec(s, run).closed
    ensures Exec(s, run).pounce.built == s.pounce.built && Exec(s, run).binary.built
    ensures Flag(s, kind) ==> Flag(Exec(s, run), kind) && Calls(Exec(s, run), kind) == Calls(s, kind)
    decreases |run|
  {
    if run != [] {
      SealedStep(s, run[0], kind);
      BuiltOnlyWhenOpen(s, run[0]);
      MixedCloseIsFinal(Apply(s, run[0]), run[1..], kind);
    }
  }

  /** The same for a client reached from the start by any run. */
  lemma MixedClientNeverReopens(s: State, run: seq<Event>, later: seq<Event>, kind: Kind)
    requires Initial(s) && ValidRun(s, run) && Exec(s, run).binary.built && Exec(s, run).life != Open
    requires ValidRun(Exec(s, run), later)
    ensures var t, u := Exec(s, run), Exec(Exec(s, run), later);
      && u.life != Open && u.closed && u.pounce.built == t.pounce.built && u.binary.built
      && (Flag(t, kind) ==> Flag(u, kind) && Calls(u, kind) == Calls(t, kind))
  {
    RunKeepsInv(s, run);
    MixedCloseIsFinal(Exec(s, run), later, kind);
  }

  // ---------------------------------------------------------------- closers that wait for another teardown

  predicate Unwoken(s: State, i: nat) { i < |s.threads| && s.threads[i].pc.Waiting? && !s.threads[i].woken }

  /** Steps a teardown still owes before it has notified. */
  function Rank(pc: Pc): nat {
    match pc
    case Launching(_, _) => 9
    case Attempting(_, _, p, b) => 6 + (if p then 0 else 1) + (if b then 0 else 1)
    case Reconciling(_, _) => 5
    case WantPublish(_, _) => 4
    case Publishing(_, _) => 3
    case Tearing => 6
    case WantSettle(_) => 5
    case Settling(_) => 4
    case Reopening => 3
    case Notifying => 2
    case _ => 0
  }

  function Owed(s: State): nat { if s.token.Held? && s.token.owner < |s.threads| then Rank(s.threads[s.token.owner].pc) else 0 }

  /** Every step of a teardown, whatever its outcome, either brings it closer to its notification or hands it on. */
  lemma TeardownAdvances(s: State, i: nat, o: Outcome)
    requires Inv(s) && CanStep(s, i) && s.token == Held(i)
    ensures var t := Advance(s, i, o); t.threads[i].pc.Notifying? || Owed(t) < Owed(s)
  {
    assert ThreadOk(s, i);
  }

  lemma TeardownAttempts(s: State, i: nat, kind: Kind, o: Outcome)
    requires Inv(s) && Enabled(s, CloseExecutor(i, kind, o))
    ensures Owed(CloseOne(s, i, kind, o)) < Owed(s)
  {
    assert ThreadOk(s, i);
  }

  /** The notification reaches every closer that registered before it, so also one that only then reads the state. */
  lemma NotifyWakesAll(s: State, j: nat, i: nat)
    requires CanStep(s, j) && s.threads[j].pc.Notifying? && i < |s.threads| && s.threads[i].registered && i != j
    ensures Notify(s, j).threads[i] == s.threads[i].(woken := true)
  {
    assert Notify(s, j).threads[i] == Wake(s.threads[i]);
  }

  /** While a teardown waits for the lock, the holder releases it in one step. */
  lemma HolderReleases(s: State, j: nat, k: nat)
    requires Inv(s) && s.token == Held(j) && j < |s.threads| && WantsLock(s.threads[j].pc) && s.lock == Held(k)
    ensures k < |s.threads| && k != j && CanStep(s, k) && !s.threads[k].pc.Waiting?
    ensures var t := Advance(s, k, Succeeds);
      |t.threads| == |s.threads| && t.token == s.token && t.stranded == s.stranded && t.lock == Free &&
      forall l :: 0 <= l < |s.threads| && l != k ==> t.threads[l] == s.threads[l]
  {
    assert ThreadOk(s, j) && ThreadOk(s, k);
  }

  predicate NeverDrops(run: seq<Event>, i: nat) { forall k :: 0 <= k < |run| ==> run[k] != Drop(i) }

  predicate WakesBy(s: State, run: seq<Event>, i: nat) {
    ValidRun(s, run) && NeverDrops(run, i) && i < |Exec(s, run).threads| && Exec(s, run).threads[i].woken
  }

  /** The next event on the way to a notification. */
  lemma NextTowardsWake(s: State, i: nat) returns (e: Event)
    requires Inv(s) && Unwoken(s, i) && !s.stranded && !Pending(s)
    ensures Enabled(s, e) && !e.Drop? && !Apply(s, e).stranded && i < |Apply(s, e).threads|
    ensures Apply(s, e).threads[i] == s.threads[i]
    ensures Pending(Apply(s, e)) || Owed(Apply(s, e)) < Owed(s) || (Owed(Apply(s, e)) == Owed(s) && s.lock.Held? && Apply(s, e).lock == Free)
  {
    assert ThreadOk(s, i) && s.token.Held?;
    var j := s.token.owner;
    assert ThreadOk(s, j) && i != j;
    var pc := s.threads[j].pc;
    if WantsLock(pc) && s.lock.Held? {
      HolderReleases(s, j, s.lock.owner);
      e := Step(s.lock.owner, Succeeds);
      assert Apply(s, e).threads[j] == s.threads[j];
    } else if pc.Attempting? && !(pc.pounceRan && pc.binaryRan) {
      var kind := if pc.pounceRan then Binary else Pounce;
      e := CloseExecutor(j, kind, Succeeds);
      TeardownAttempts(s, j, kind, Succeeds);
    } else {
      e := Step(j, Succeeds);
      TeardownAdvances(s, j, Succeeds);
      TeardownAlone(s, j, Succeeds);
      assert Apply(s, e).threads[j].pc.Notifying? ==> Pending(Apply(s, e));
    }
  }

  lemma TeardownAlone(s: State, j: nat, o: Outcome)
    requires Inv(s) && CanStep(s, j) && s.token == Held(j)
    ensures var t := Advance(s, j, o);
      t.stranded == s.stranded && |s.threads| <= |t.threads| &&
      forall l :: 0 <= l < |s.threads| && l != j ==> t.threads[l] == s.threads[l]
  {
    assert ThreadOk(s, j);
  }

  /** Unless a non-mixed close was dropped, a waiting closer can always still be woken, from every reachable state. */
  lemma {:induction false} WaiterCanBeWoken(s: State, i: nat) returns (run: seq<Event>)
    requires Inv(s) && Unwoken(s, i) && !s.stranded
    ensures WakesBy(s, run, i)
    decreases if Pending(s) then 0 else 1, Owed(s), s.lock.Held?
  {
    if Pending(s) {
      var j :| 0 <= j < |s.threads| && s.threads[j].pc.Notifying?;
      assert ThreadOk(s, i) && ThreadOk(s, j);
      NotifyWakesAll(s, j, i);
      run := [Step(j, Succeeds)];
      assert run[1..] == [];
    } else {
      var e := NextTowardsWake(s, i);
      StepKeepsInv(s, e);
      var rest := WaiterCanBeWoken(Apply(s, e), i);
      run := [e] + rest;
      assert run[1..] == rest;
    }
  }

  // ---------------------------------------------------------------- every run wakes a waiting closer

  /** Wake-up steps still owed: those of the teardown, or the one notification under way. */
  function Debt(s: State): nat { if Pending(s) then 1 else Owed(s) }

  predicate Acts(e: Event) { e.Step? || e.CloseExecutor? || e.Panic? }

  /** A step of the thread that runs the teardown, or of one that is about to notify. */
  predicate WakeStep(s: State, e: Event) {
    Acts(e) && e.i < |s.threads| && (s.threads[e.i].pc.Notifying? || (!Pending(s) && s.token == Held(e.i)))
  }

  predicate Woken(s: State, i: nat) { i < |s.threads| && s.threads[i].woken && (s.threads[i].pc.Waiting? || s.threads[i].pc.Returned?) }

  /** One step of anyone: the waiter is woken, or it waits on and the debt has not grown; a wake-up step lowers it. */
  predicate Closer(s: State, t: State, i: nat, paid: bool) {
    Woken(t, i) || (Unwoken(t, i) && Debt(t) + (if paid then 1 else 0) <= Debt(s))
  }

  /** A thread that neither tears down nor notifies changes no other thread, nor who tears down. */
  lemma BystanderFrame(s: State, i: nat, o: Outcome)
    requires Inv(s) && CanStep(s, i) && s.token != Held(i) && !s.threads[i].pc.Notifying?
    ensures var t := Advance(s, i, o);
      && |t.threads| == |s.threads| && !t.threads[i].pc.Notifying?
      && (forall l :: 0 <= l < |s.threads| && l != i ==> t.threads[l] == s.threads[l])
      && (s.token.Held? ==> t.token == s.token)
  {
    assert ThreadOk(s, i);
    if s.token.Held? { assert ThreadOk(s, s.token.owner); }
  }

  lemma BystanderKeepsDebt(s: State, i: nat, o: Outcome, w: nat)
    requires Inv(s) && CanStep(s, i) && s.token != Held(i) && !s.threads[i].pc.Notifying? && Unwoken(s, w)
    requires s.token.Held? || Pending(s)
    ensures Closer(s, Advance(s, i, o), w, false)
  {
    var t := Advance(s, i, o);
    BystanderFrame(s, i, o);
    SamePending(s, t);
  }

  lemma TeardownPays(s: State, i: nat, o: Outcome, w: nat)
    requires Inv(s) && CanStep(s, i) && s.token == Held(i) && Unwoken(s, w)
    ensures Closer(s, Advance(s, i, o), w, !Pending(s))
  {
    assert ThreadOk(s, i) && ThreadOk(s, w) && i != w;
    TeardownAdvances(s, i, o);
    TeardownAlone(s, i, o);
    var t := Advance(s, i, o);
    if Pending(s) {
      var j :| 0 <= j < |s.threads| && s.threads[j].pc.Notifying?;
      assert t.threads[j].pc.Notifying?;
    } else if t.threads[i].pc.Notifying? {
      assert Pending(t) && Owed(s) >= 3;
    } else {
      TeardownQuiet(s, i, o);
    }
  }

  lemma TeardownQuiet(s: State, i: nat, o: Outcome)
    requires Inv(s) && CanStep(s, i) && s.token == Held(i) && !Pending(s) && !Advance(s, i, o).threads[i].pc.Notifying?
    ensures !Pending(Advance(s, i, o))
  {
    assert ThreadOk(s, i);
    TeardownAlone(s, i, o);
    var t := Advance(s, i, o);
    forall l | 0 <= l < |t.threads| ensures !t.threads[l].pc.Notifying? {
      if l < |s.threads| && l != i { assert t.threads[l] == s.threads[l]; }
    }
  }

  /** Events of no thread, or of a thread that only then enters. */
  lemma EntryKeepsDebt(s: State, e: Event, w: nat)
    requires Inv(s) && Enabled(s, e) && (e.Close? || e.Admit? || e.Completes?) && Unwoken(s, w)
    ensures Closer(s, Apply(s, e), w, false)
  {
    var t := Apply(s, e);
    assert forall l :: 0 <= l < |s.threads| ==> t.threads[l] == s.threads[l];
    SamePending(s, t);
    if s.token.Held? && s.token.owner < |s.threads| { assert t.threads[s.token.owner] == s.threads[s.token.owner]; }
  }

  lemma SamePending(s: State, t: State)
    requires |s.threads| <= |t.threads| && (forall l :: 0 <= l < |s.threads| ==> (t.threads[l].pc.Notifying? <==> s.threads[l].pc.Notifying?))
    requires forall l :: |s.threads| <= l < |t.threads| ==> !t.threads[l].pc.Notifying?
    ensures Pending(t) <==> Pending(s)
  {
    if Pending(s) {
      var j :| 0 <= j < |s.threads| && s.threads[j].pc.Notifying?;
      assert t.threads[j].pc.Notifying?;
    }
    if Pending(t) {
      var j :| 0 <= j < |t.threads| && t.threads[j].pc.Notifying?;
      assert s.threads[j].pc.Notifying?;
    }
  }

  /** The supervisor's attempts, its panic, and the drop of another closer that waits. */
  lemma AttemptPays(s: State, e: Event, w: nat)
    requires Inv(s) && Enabled(s, e) && (e.CloseExecutor? || e.Panic? || e.Drop?) && Unwoken(s, w) && e != Drop(w)
    requires !Apply(s, e).stranded
    ensures Closer(s, Apply(s, e), w, WakeStep(s, e))
  {
    var t := Apply(s, e);
    assert ThreadOk(s, e.i) && ThreadOk(s, w) && e.i != w;
    if e.CloseExecutor? { TeardownAttempts(s, e.i, e.kind, e.outcome); }
    assert t.token == s.token && |t.threads| == |s.threads|;
    assert forall l :: 0 <= l < |s.threads| && l != e.i ==> t.threads[l] == s.threads[l];
    SamePending(s, t);
    if s.token.Held? { assert ThreadOk(s, s.token.owner); }
  }

  lemma StepBringsWakeCloser(s: State, e: Event, w: nat)
    requires Inv(s) && Enabled(s, e) && Unwoken(s, w) && e != Drop(w) && !s.stranded && !Apply(s, e).stranded
    ensures Closer(s, Apply(s, e), w, WakeStep(s, e))
  {
    assert ThreadOk(s, w);
    if e.Close? || e.Admit? || e.Completes? {
      EntryKeepsDebt(s, e, w);
    } else if !e.Step? {
      AttemptPays(s, e, w);
    } else if s.threads[e.i].pc.Notifying? {
      NotifyWakesAll(s, e.i, w);
    } else if s.token == Held(e.i) {
      TeardownPays(s, e.i, e.outcome, w);
    } else {
      BystanderKeepsDebt(s, e.i, e.outcome, w);
    }
  }

  lemma AdvanceKeepsWoken(s: State, i: nat, o: Outcome, w: nat)
    requires Inv(s) && CanStep(s, i) && Woken(s, w)
    ensures Woken(Advance(s, i, o), w)
  {
    if i == w {
      assert Advance(s, i, o) == Goto(s, i, Returned);
    } else if s.threads[i].pc.Notifying? {
      assert Notify(s, i).threads[w] == Wake(s.threads[w]);
    } else if s.token == Held(i) {
      TeardownAlone(s, i, o);
    } else {
      BystanderFrame(s, i, o);
    }
  }

  lemma WokenStays(s: State, e: Event, w: nat)
    requires Inv(s) && Enabled(s, e) && Woken(s, w)
    ensures Woken(Apply(s, e), w)
  {
    if e.Step? { AdvanceKeepsWoken(s, e.i, e.outcome, w); }
  }

  function WakeSteps(s: State, run: seq<Event>): nat
    requires ValidRun(s, run)
    decreases |run|
  {
    if run == [] then 0 else (if WakeStep(s, run[0]) then 1 else 0) + WakeSteps(Apply(s, run[0]), run[1..])
  }

  lemma {:induction false} StrandedStays(s: State, run: seq<Event>)
    requires ValidRun(s, run) && s.stranded
    ensures Exec(s, run).stranded
    decreases |run|
  {
    if run != [] {
      assert Apply(s, run[0]).stranded;
      StrandedStays(Apply(s, run[0]), run[1..]);
    }
  }

  lemma {:induction false} WokenForGood(s: State, run: seq<Event>, w: nat)
    requires Inv(s) && ValidRun(s, run) && Woken(s, w)
    ensures Woken(Exec(s, run), w)
    decreases |run|
  {
    if run != [] {
      WokenStays(s, run[0], w);
      StepKeepsInv(s, run[0]);
      WokenForGood(Apply(s, run[0]), run[1..], w);
    }
  }

  /**
   * In every run, whatever all the threads do and however the executors' closes end, a waiting closer that is not itself
   * dropped has been woken once the teardown and its notification have taken as many steps as they owed.
   */
  lemma {:induction false} WaiterIsWoken(s: State, run: seq<Event>, w: nat)
    requires Inv(s) && Unwoken(s, w) && ValidRun(s, run) && NeverDrops(run, w) && !Exec(s, run).stranded
    ensures Woken(Exec(s, run), w) || (Unwoken(Exec(s, run), w) && WakeSteps(s, run) + Debt(Exec(s, run)) <= Debt(s))
    ensures WakeSteps(s, run) >= Debt(s) ==> Woken(Exec(s, run), w)
    decreases |run|
  {
    if run == [] {
      DebtIsOwed(s, w);
    } else {
      var t := Apply(s, run[0]);
      if s.stranded { StrandedStays(s, run); }
      if t.stranded { StrandedStays(t, run[1..]); }
      StepBringsWakeCloser(s, run[0], w);
      StepKeepsInv(s, run[0]);
      if Woken(t, w) { WokenForGood(t, run[1..], w); } else { WaiterIsWoken(t, run[1..], w); }
    }
    if Unwoken(Exec(s, run), w) {
      RunKeepsInv(s, run);
      DebtIsOwed(Exec(s, run), w);
    }
  }

  /** At most nine steps are ever owed, and at least one while a closer waits. */
  lemma DebtIsOwed(s: State, w: nat)
    requires Inv(s) && Unwoken(s, w) && !s.stranded
    ensures 1 <= Debt(s) <= 9
  {
    assert ThreadOk(s, w);
    if s.token.Held? { assert ThreadOk(s, s.token.owner); }
  }

  /** In a client with a binary executor no drop can strand the teardown, so there the waiter is always woken. */
  lemma MixedWaiterIsWoken(s: State, run: seq<Event>, later: seq<Event>, w: nat)
    requires Initial(s) && ValidRun(s, run) && Exec(s, run).binary.built && Unwoken(Exec(s, run), w)
    requires ValidRun(Exec(s, run), later) && NeverDrops(later, w)
    ensures WakeSteps(Exec(s, run), later) >= Debt(Exec(s, run)) ==> Woken(Exec(Exec(s, run), later), w)
    ensures 1 <= Debt(Exec(s, run)) <= 9
  {
    RunKeepsInv(s, run);
    var t := Exec(s, run);
    RunKeepsInv(t, later);
    BuiltStays(t, later);
    DebtIsOwed(t, w);
    WaiterIsWoken(t, later, w);
  }

  lemma {:induction false} BuiltStays(s: State, run: seq<Event>)
    requires ValidRun(s, run) && s.binary.built
    ensures Exec(s, run).binary.built
    decreases |run|
  {
    if run != [] {
      assert Apply(s, run[0]).binary.built;
      BuiltStays(Apply(s, run[0]), run[1..]);
    }
  }

  // ---------------------------------------------------------------- a dropped close

  /** Nothing on the way to a notification is left. */
  predicate Dead(s: State) { Inv(s) && s.stranded && !Pending(s) }

  lemma DeadStep(s: State, e: Event, i: nat)
    requires Dead(s) && Enabled(s, e) && Unwoken(s, i) && e != Drop(i)
    ensures Dead(Apply(s, e)) && Unwoken(Apply(s, e), i)
  {
    StepKeepsInv(s, e);
    var t := Apply(s, e);
    if e.Step? || e.CloseExecutor? || e.Panic? || e.Drop? {
      assert ThreadOk(s, e.i);
      assert forall j :: 0 <= j < |s.threads| && j != e.i ==> t.threads[j] == s.threads[j];
    }
    forall j | 0 <= j < |t.threads| ensures !t.threads[j].pc.Notifying? {
      if j < |s.threads| { assert !s.threads[j].pc.Notifying?; }
    }
  }

  /** After such a drop the client stays in `Closing` and the waiting closer waits forever. */
  lemma {:induction false} StrandedForever(s: State, run: seq<Event>, i: nat)
    requires Dead(s) && Unwoken(s, i) && ValidRun(s, run) && NeverDrops(run, i)
    ensures Exec(s, run).life == Closing && Unwoken(Exec(s, run), i)
    decreases |run|
  {
    if run != [] {
      DeadStep(s, run[0], i);
      StrandedForever(Apply(s, run[0]), run[1..], i);
    }
  }

  /**
   * In every reachable state without a notification under way, a closer that waits for another teardown can still
   * be woken exactly when no non-mixed close was dropped while it awaited its executor.
   */
  lemma WakeableExactlyUnlessStranded(s: State, run: seq<Event>, i: nat)
    requires Initial(s) && ValidRun(s, run) && Unwoken(Exec(s, run), i) && !Pending(Exec(s, run))
    ensures (exists more :: WakesBy(Exec(s, run), more, i)) <==> !Exec(s, run).stranded
  {
    RunKeepsInv(s, run);
    var t := Exec(s, run);
    if t.stranded {
      forall more | ValidRun(t, more) && NeverDrops(more, i) ensures !WakesBy(t, more, i) { StrandedForever(t, more, i); }
    } else {
      var more := WaiterCanBeWoken(t, i);
    }
  }

  lemma Prepend(s: State, e: Event, run: seq<Event>)
    requires Enabled(s, e) && ValidRun(Apply(s, e), run)
    ensures ValidRun(s, [e] + run) && Exec(s, [e] + run) == Exec(Apply(s, e), run)
  {
    assert ([e] + run)[1..] == run;
  }

  function Go(i: nat): Event { Step(i, Succeeds) }

  /** The transfer executor has been built by a first admission. */
  function Admitted(s: State): State {
    s.(pounce := Executor(true, false, 0), threads := [Thread(Returned, false, false)])
  }

  lemma FirstAdmission(s: State, rest: seq<Event>)
    requires Initial(s) && ValidRun(Admitted(s), rest)
    ensures var run := [Admit(Pounce)] + ([Go(0)] + ([Go(0)] + ([Go(0)] + rest)));
      ValidRun(s, run) && Exec(s, run) == Exec(Admitted(s), rest)
  {
    var a := Apply(s, Admit(Pounce));
    var b := Apply(a, Go(0));
    var c := Apply(b, Go(0));
    assert c.threads == [Thread(Creating(Pounce), false, false)];
    assert Apply(c, Go(0)) == Admitted(s);
    Prepend(c, Go(0), rest);
    Prepend(b, Go(0), [Go(0)] + rest);
    Prepend(a, Go(0), [Go(0)] + ([Go(0)] + rest));
    Prepend(s, Admit(Pounce), [Go(0)] + ([Go(0)] + ([Go(0)] + rest)));
  }

  /** The first closer of that client awaits the close of the transfer executor. */
  function FirstTearing(s: State): State {
    Admitted(s).(life := Closing, closed := true, token := Held(1),
                 threads := [Thread(Returned, false, false), Thread(Tearing, true, false)])
  }

  lemma FirstCloser(s: State, rest: seq<Event>)
    requires Initial(s) && ValidRun(FirstTearing(s), rest)
    ensures var run := [Close] + ([Go(1)] + ([Go(1)] + ([Go(1)] + ([Go(1)] + rest))));
      ValidRun(Admitted(s), run) && Exec(Admitted(s), run) == Exec(FirstTearing(s), rest)
  {
    var a := Apply(Admitted(s), Close);
    var b := Apply(a, Go(1));
    var c := Apply(b, Go(1));
    var d := Apply(c, Go(1));
    assert d.threads == [Thread(Returned, false, false), Thread(Swapped, true, false)];
    assert Apply(d, Go(1)) == FirstTearing(s);
    Prepend(d, Go(1), rest);
    Prepend(c, Go(1), [Go(1)] + rest);
    Prepend(b, Go(1), [Go(1)] + ([Go(1)] + rest));
    Prepend(a, Go(1), [Go(1)] + ([Go(1)] + ([Go(1)] + rest)));
    Prepend(Admitted(s), Close, [Go(1)] + ([Go(1)] + ([Go(1)] + ([Go(1)] + rest))));
  }

  lemma SecondCloserThenDrop(s: State) returns (run: seq<Event>)
    requires Initial(s)
    ensures ValidRun(FirstTearing(s), run) && Exec(FirstTearing(s), run).stranded
    ensures Exec(FirstTearing(s), run).threads ==
      [Thread(Returned, false, false), Thread(Returned, true, false), Thread(Waiting, true, false)]
  {
    var a := Apply(FirstTearing(s), Close);
    var b := Apply(a, Go(2));
    var c := Apply(b, Go(2));
    var d := Apply(c, Go(2));
    assert d.threads == [Thread(Returned, false, false), Thread(Tearing, true, false), Thread(Waiting, true, false)];
    assert ValidRun(Apply(d, Drop(1)), []);
    Prepend(d, Drop(1), []);
    Prepend(c, Go(2), [Drop(1)] + []);
    Prepend(b, Go(2), [Go(2)] + ([Drop(1)] + []));
    Prepend(a, Go(2), [Go(2)] + ([Go(2)] + ([Drop(1)] + [])));
    run := [Close] + ([Go(2)] + ([Go(2)] + ([Go(2)] + ([Drop(1)] + []))));
    Prepend(FirstTearing(s), Close, run[1..]);
  }

  /** A concrete run into that state: the transfer executor is built, one closer awaits its close, a second waits for the
      first, and the first future is dropped. */
  lemma DroppedCloseStrandsWaiter(s: State) returns (run: seq<Event>)
    requires Initial(s)
    ensures ValidRun(s, run) && Dead(Exec(s, run)) && Unwoken(Exec(s, run), 2)
  {
    var rest := SecondCloserThenDrop(s);
    FirstCloser(s, rest);
    var closing := [Close] + ([Go(1)] + ([Go(1)] + ([Go(1)] + ([Go(1)] + rest))));
    FirstAdmission(s, closing);
    run := [Admit(Pounce)] + ([Go(0)] + ([Go(0)] + ([Go(0)] + closing)));
    RunKeepsInv(s, run);
  }
}
