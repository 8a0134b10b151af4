/** The client lifecycle: admissions and closers share one lock, one closed flag and two lazily built executors. */
module ClientLifecycle {

  datatype Life = Open | Closing | Closed | CloseFailed(pounce: bool, binary: bool)

  datatype Kind = Pounce | Binary

  /** How `close()` of an executor ends: `FailedComplete` reports an error although the executor is shut down. */
  datatype Outcome = Succeeds | FailedComplete | Fails

  /** `built`: the executor is published. `done`: it is shut down. `calls`: how often its `close()` was called. */
  datatype Executor = Executor(built: bool, done: bool, calls: nat)

  /** Where a thread is. `Want…` waits for the lifecycle lock; the next position holds it. */
  datatype Pc =
    | Fresh
    | WantDecide
    | Deciding
    | Swapped
    | Waiting
    | Tearing
    | WantSettle(ok: bool)
    | Settling(ok: bool)
    | Reopening
    | Launching(pounce: bool, binary: bool)
    | Attempting(pounce: bool, binary: bool, pounceRan: bool, binaryRan: bool)
    | Reconciling(pounce: bool, binary: bool)
    | WantPublish(pounce: bool, binary: bool)
    | Publishing(pounce: bool, binary: bool)
    | Notifying
    | WantAdmit(kind: Kind)
    | Checking(kind: Kind)
    | Creating(kind: Kind)
    | Returned

  /** `woken`: a notification arrived after the thread had registered for one. */
  datatype Thread = Thread(pc: Pc, registered: bool, woken: bool)

  datatype Lock = Free | Held(owner: nat)

  /**
   * `token` and `stranded` are history: who runs the teardown, and whether a non-mixed close was dropped
   * while it awaited the executor.
   */
  datatype State = State(
    life: Life, closed: bool, pounce: Executor, binary: Executor,
    lock: Lock, threads: seq<Thread>, token: Lock, stranded: bool)

  datatype Event =
    | Close
    | Admit(kind: Kind)
    | Step(i: nat, outcome: Outcome)
    | CloseExecutor(i: nat, kind: Kind, outcome: Outcome)
    | Panic(i: nat)
    | Drop(i: nat)
    | Completes(kind: Kind)

  predicate Initial(s: State) {
    && s.life == Open && !s.closed && s.lock == Free && s.threads == [] && s.token == Free && !s.stranded
    && s.pounce == Executor(false, false, 0) && s.binary == Executor(false, false, 0)
  }

  predicate HoldsLock(pc: Pc) {
    pc.Deciding? || pc.Swapped? || pc.Settling? || pc.Reopening? || pc.Publishing? || pc.Checking? || pc.Creating?
  }

  predicate WantsLock(pc: Pc) { pc.WantDecide? || pc.WantSettle? || pc.WantPublish? || pc.WantAdmit? }

  predicate NonMixed(pc: Pc) { pc.Tearing? || pc.WantSettle? || pc.Settling? || pc.Reopening? }

  predicate Mixed(pc: Pc) {
    pc.Launching? || pc.Attempting? || pc.Reconciling? || pc.WantPublish? || pc.Publishing?
  }

  predicate Teardown(pc: Pc) { NonMixed(pc) || Mixed(pc) }

  /** The executor needs no further close: it was never built or it is shut down. */
  predicate Settled(x: Executor) { !x.built || x.done }

  // ---------------------------------------------------------------- one step of one thread

  function Goto(s: State, i: nat, pc: Pc): State
    requires i < |s.threads|
  {
    s.(threads := s.threads[i := s.threads[i].(pc := pc)])
  }

  function Acquire(s: State, i: nat): State
    requires i < |s.threads| && WantsLock(s.threads[i].pc)
  {
    var next := match s.threads[i].pc
                case WantDecide => Deciding
                case WantSettle(ok) => Settling(ok)
                case WantPublish(p, b) => Publishing(p, b)
                case WantAdmit(k) => Checking(k);
    Goto(s, i, next).(lock := Held(i))
  }

  /** The match on the lifecycle at the start of `close`. */
  function Decide(s: State, i: nat): State
    requires i < |s.threads|
  {
    match s.life
    case Closing => Goto(s, i, Waiting).(lock := Free)
    case Closed => Goto(s, i, Returned).(lock := Free)
    case CloseFailed(p, b) => Goto(s, i, Launching(p, b)).(lock := Free, life := Closing, token := Held(i))
    case Open => if s.closed then Goto(s, i, Returned).(lock := Free) else Goto(s, i, Swapped).(closed := true)
  }

  function StartClosing(s: State, i: nat): State
    requires i < |s.threads|
  {
    Goto(s, i, if s.binary.built then Launching(false, false) else Tearing).(lock := Free, life := Closing, token := Held(i))
  }

  function Call(x: Executor, outcome: Outcome): Executor {
    Executor(x.built, x.done || !outcome.Fails?, x.calls + 1)
  }

  /** A client without a binary executor closes the transfer executor on the caller's own future. */
  function TearDown(s: State, i: nat, outcome: Outcome): State
    requires i < |s.threads|
  {
    if s.pounce.built then
      Goto(s, i, WantSettle(outcome.Succeeds?)).(pounce := Call(s.pounce, outcome))
    else Goto(s, i, WantSettle(true))
  }

  function Settle(s: State, i: nat, ok: bool): State
    requires i < |s.threads|
  {
    if ok then Goto(s, i, Notifying).(lock := Free, life := Closed, token := Free)
    else Goto(s, i, Reopening).(life := Open)
  }

  function Reopen(s: State, i: nat): State
    requires i < |s.threads|
  {
    Goto(s, i, Notifying).(lock := Free, closed := false, token := Free)
  }

  /** Spawning the supervisor hands the teardown over; if the spawn fails the caller publishes the failure. */
  function Launch(s: State, i: nat, outcome: Outcome): State
    requires i < |s.threads| && s.threads[i].pc.Launching?
  {
    var pc := s.threads[i].pc;
    if outcome.Succeeds? then
      var t := Goto(s, i, Returned);
      t.(threads := t.threads + [Thread(Attempting(pc.pounce, pc.binary, false, false), false, false)],
         token := Held(|s.threads|))
    else Goto(s, i, WantPublish(pc.pounce, pc.binary))
  }

  /** One branch of the concurrent attempt: skipped when its flag is already set. */
  function CloseOne(s: State, i: nat, kind: Kind, outcome: Outcome): (t: State)
    requires i < |s.threads| && s.threads[i].pc.Attempting?
    ensures |t.threads| == |s.threads| && t.threads[i].pc.Attempting?
  {
    var pc := s.threads[i].pc;
    match kind
    case Pounce =>
      if pc.pounce || !s.pounce.built then Goto(s, i, pc.(pounce := true, pounceRan := true))
      else
        var x := Call(s.pounce, outcome);
        Goto(s, i, pc.(pounce := outcome.Succeeds? || x.done, pounceRan := true)).(pounce := x)
    case Binary =>
      if pc.binary || !s.binary.built then Goto(s, i, pc.(binary := true, binaryRan := true))
      else
        var x := Call(s.binary, outcome);
        Goto(s, i, pc.(binary := outcome.Succeeds? || x.done, binaryRan := true)).(binary := x)
  }

  function Reconcile(s: State, i: nat): State
    requires i < |s.threads| && s.threads[i].pc.Reconciling?
  {
    var pc := s.threads[i].pc;
    Goto(s, i, WantPublish(pc.pounce || Settled(s.pounce), pc.binary || Settled(s.binary)))
  }

  function Publish(s: State, i: nat): State
    requires i < |s.threads| && s.threads[i].pc.Publishing?
  {
    var pc := s.threads[i].pc;
    var life := if pc.pounce && pc.binary then Closed else CloseFailed(pc.pounce, pc.binary);
    Goto(s, i, Notifying).(lock := Free, life := life, token := Free)
  }

  function Wake(t: Thread): Thread { if t.registered then t.(woken := true) else t }

  function Notify(s: State, i: nat): State
    requires i < |s.threads|
  {
    var t := Goto(s, i, Returned);
    t.(threads := seq(|t.threads|, j requires 0 <= j < |t.threads| => Wake(t.threads[j])))
  }

  function Check(s: State, i: nat, kind: Kind): State
    requires i < |s.threads|
  {
    if s.life != Open || s.closed then Goto(s, i, Returned).(lock := Free) else Goto(s, i, Creating(kind))
  }

  /** Publishes the executor unless it exists already or cannot be built. */
  function Create(s: State, i: nat, kind: Kind, outcome: Outcome): State
    requires i < |s.threads|
  {
    var t := Goto(s, i, Returned).(lock := Free);
    if outcome.Fails? then t
    else if kind.Pounce? then t.(pounce := s.pounce.(built := true))
    else t.(binary := s.binary.(built := true))
  }

  predicate CanStep(s: State, i: nat) {
    i < |s.threads| &&
    var pc := s.threads[i].pc;
    && !pc.Returned?
    && (WantsLock(pc) ==> s.lock == Free)
    && (pc.Waiting? ==> s.threads[i].woken)
    && (pc.Attempting? ==> pc.pounceRan && pc.binaryRan)
  }

  function Advance(s: State, i: nat, outcome: Outcome): State
    requires CanStep(s, i)
  {
    match s.threads[i].pc
    case Fresh => s.(threads := s.threads[i := Thread(WantDecide, true, false)])
    case WantDecide | WantSettle(_) | WantPublish(_, _) | WantAdmit(_) => Acquire(s, i)
    case Deciding => Decide(s, i)
    case Swapped => StartClosing(s, i)
    case Waiting => Goto(s, i, Returned)
    case Tearing => TearDown(s, i, outcome)
    case Settling(ok) => Settle(s, i, ok)
    case Reopening => Reopen(s, i)
    case Launching(_, _) => Launch(s, i, outcome)
    case Attempting(p, b, _, _) => Goto(s, i, Reconciling(p, b))
    case Reconciling(_, _) => Reconcile(s, i)
    case Publishing(_, _) => Publish(s, i)
    case Notifying => Notify(s, i)
    case Checking(k) => Check(s, i, k)
    case Creating(k) => Create(s, i, k, outcome)
  }

  // ---------------------------------------------------------------- runs

  predicate Enabled(s: State, e: Event) {
    match e
    case Close | Admit(_) => true
    case Step(i, _) => CanStep(s, i)
    case CloseExecutor(i, k, _) =>
      i < |s.threads| && s.threads[i].pc.Attempting? &&
      (if k.Pounce? then !s.threads[i].pc.pounceRan else !s.threads[i].pc.binaryRan)
    case Panic(i) => i < |s.threads| && s.threads[i].pc.Attempting?
    case Drop(i) => i < |s.threads| && (s.threads[i].pc.Waiting? || (s.threads[i].pc.Tearing? && s.pounce.built))
    case Completes(k) => if k.Pounce? then s.pounce.calls > 0 else s.binary.calls > 0
  }

  /** Dropping a `close` future at one of its await points; without a transfer executor the teardown has none. */
  function Abandon(s: State, i: nat): State
    requires i < |s.threads|
  {
    var t := Goto(s, i, Returned);
    if s.threads[i].pc.Tearing? then t.(token := Free, stranded := true) else t
  }

  function Apply(s: State, e: Event): State
    requires Enabled(s, e)
  {
    match e
    case Close => s.(threads := s.threads + [Thread(Fresh, false, false)])
    case Admit(k) => s.(threads := s.threads + [Thread(WantAdmit(k), false, false)])
    case Step(i, o) => Advance(s, i, o)
    case CloseExecutor(i, k, o) => CloseOne(s, i, k, o)
    case Panic(i) => Goto(s, i, Reconciling(s.threads[i].pc.pounce, s.threads[i].pc.binary))
    case Drop(i) => Abandon(s, i)
    case Completes(k) =>
      if k.Pounce? then s.(pounce := s.pounce.(done := true)) else s.(binary := s.binary.(done := true))
  }

  predicate ValidRun(s: State, run: seq<Event>)
    decreases |run|
  {
    run == [] || (Enabled(s, run[0]) && ValidRun(Apply(s, run[0]), run[1..]))
  }

  function Exec(s: State, run: seq<Event>): State
    requires ValidRun(s, run)
    decreases |run|
  {
    if run == [] then s else Exec(Apply(s, run[0]), run[1..])
  }

  // ---------------------------------------------------------------- what every step keeps

  /** The one exception to "Open iff not closed": the lock holder is between its two writes. */
  predicate Torn(s: State) {
    s.lock.Held? && s.lock.owner < |s.threads| && (s.threads[s.lock.owner].pc.Swapped? || s.threads[s.lock.owner].pc.Reopening?)
  }

  predicate Pending(s: State) { exists j :: 0 <= j < |s.threads| && s.threads[j].pc.Notifying? }

  predicate FlagsOk(s: State, p: bool, b: bool) {
    s.binary.built && (p ==> Settled(s.pounce)) && (b ==> Settled(s.binary))
  }

  predicate LifeOk(s: State) {
    && (if Torn(s) then s.life == Open && s.closed else s.life == Open <==> !s.closed)
    && (s.life == Closing ==> s.token.Held? || s.stranded)
    && (s.stranded ==> s.life == Closing && s.token == Free && !s.binary.built)
    && (s.life == Closed ==> Settled(s.pounce) && Settled(s.binary))
    && (s.life.CloseFailed? ==> FlagsOk(s, s.life.pounce, s.life.binary))
    && (s.token.Held? ==> s.token.owner < |s.threads|) && (s.lock.Held? ==> s.lock.owner < |s.threads|)
  }

  predicate PcOk(s: State, pc: Pc) {
    match pc
    case Swapped => s.life == Open && s.closed
    case Tearing => s.life == Closing && !s.binary.built
    case WantSettle(ok) => s.life == Closing && !s.binary.built && (ok ==> Settled(s.pounce))
    case Settling(ok) => s.life == Closing && !s.binary.built && (ok ==> Settled(s.pounce))
    case Reopening => s.life == Open && s.closed && !s.binary.built
    case Launching(p, b) => s.life == Closing && FlagsOk(s, p, b)
    case Attempting(p, b, _, _) => s.life == Closing && FlagsOk(s, p, b)
    case Reconciling(p, b) => s.life == Closing && FlagsOk(s, p, b)
    case WantPublish(p, b) => s.life == Closing && FlagsOk(s, p, b)
    case Publishing(p, b) => s.life == Closing && FlagsOk(s, p, b)
    case Creating(_) => s.life == Open && !s.closed
    case _ => true
  }

  predicate ThreadOk(s: State, i: nat)
    requires i < |s.threads|
  {
    var t := s.threads[i];
    && (s.lock == Held(i) <==> HoldsLock(t.pc))
    && (s.token == Held(i) <==> Teardown(t.pc))
    && PcOk(s, t.pc)
    && (t.pc.WantDecide? || t.pc.Deciding? || t.pc.Waiting? ==> t.registered)
    && (t.pc.Waiting? && !t.woken ==> s.token.Held? || Pending(s) || s.stranded)
  }

  predicate Inv(s: State) { LifeOk(s) && forall i :: 0 <= i < |s.threads| ==> ThreadOk(s, i) }
}
