/** `close` and the admission gate as one caller runs them while nobody else contends for the lock. Each piece of code is
    proved to be the steps of the lifecycle machine for a single thread. */
module ClientClose {
  import opened ClientLifecycle

  datatype Result = Ok | ClientClosed | ExecutorError

  /** What `close` decided under the lock. */
  datatype Plan = Wait | Refuse | Alone | Both(pounce: bool, binary: bool)

  /** Where the plan leaves the closer. */
  function PlanPc(plan: Plan): Pc {
    match plan
    case Wait => Waiting
    case Refuse => Returned
    case Alone => Tearing
    case Both(p, b) => Launching(p, b)
  }

  function PlanToken(plan: Plan): Lock { if plan.Wait? || plan.Refuse? then Free else Held(0) }

  /** The decision under the lock, with the second write of an open client. */
  function Decided(s: State): State
    requires |s.threads| == 1
  {
    var d := ClientLifecycle.Decide(s, 0);
    if d.threads[0].pc.Swapped? then StartClosing(d, 0) else d
  }

  function Admitted(s: State, kind: Kind, o: Outcome): State
    requires |s.threads| == 1
  {
    var c := Check(s, 0, kind);
    if c.threads[0].pc.Creating? then Create(c, 0, kind, o) else c
  }

  /** The teardown of a client without a binary executor, up to its notification. */
  function TornDown(s: State, o: Outcome): State
    requires |s.threads| == 1
  {
    var a := Acquire(TearDown(s, 0, o), 0);
    var b := Settle(a, 0, a.threads[0].pc.ok);
    if b.threads[0].pc.Reopening? then Reopen(b, 0) else b
  }

  /** Both branches of the attempt, then the reconciliation. */
  function Attempted(s: State, po: Outcome, bo: Outcome): State
    requires |s.threads| == 1 && s.threads[0].pc.Attempting?
  {
    var u := CloseOne(CloseOne(s, 0, Pounce, po), 0, Binary, bo);
    Reconcile(Goto(u, 0, Reconciling(u.threads[0].pc.pounce, u.threads[0].pc.binary)), 0)
  }

  class Client {
    var life: Life
    var closed: bool
    var pounce: Executor
    var binary: Executor

    /** The invariant of a free lock. */
    ghost predicate Valid()
      reads this
    {
      && (life == Open <==> !closed)
      && (life == Closed ==> Settled(pounce) && Settled(binary))
      && (life.CloseFailed? ==> binary.built && (life.pounce ==> Settled(pounce)) && (life.binary ==> Settled(binary)))
    }

    /** The machine's state with the caller as its only thread. */
    ghost function One(pc: Pc, lock: Lock, token: Lock): State
      reads this
    {
      State(life, closed, pounce, binary, lock, [Thread(pc, true, false)], token, false)
    }

    constructor ()
      ensures Valid() && life == Open && !pounce.built && !binary.built
    {
      life, closed := Open, false;
      pounce, binary := Executor(false, false, 0), Executor(false, false, 0);
    }

    /** `get_exec_locked` and `get_binary_exec_locked` behind the open-lifecycle check. */
    method Admit(kind: Kind, builds: bool) returns (ok: bool)
      requires Valid()
      modifies this
      ensures One(Returned, Free, Free) == Admitted(old(One(Checking(kind), Held(0), Free)), kind, if builds then Succeeds else Fails)
      ensures Valid() && life == old(life) && closed == old(closed)
      ensures old(life) != Open ==> !ok && pounce == old(pounce) && binary == old(binary)
      ensures old(life) == Open ==> (ok <==> builds || (if kind.Pounce? then old(pounce.built) else old(binary.built)))
      ensures pounce.built == (old(pounce.built) || (ok && kind.Pounce?)) && binary.built == (old(binary.built) || (ok && kind.Binary?))
    {
      if life != Open || closed { return false; }
      if kind.Pounce? {
        ok := pounce.built || builds;
        pounce := pounce.(built := ok);
      } else {
        ok := binary.built || builds;
        binary := binary.(built := ok);
      }
    }

    method Decide() returns (plan: Plan)
      requires Valid()
      modifies `life, `closed
      ensures plan == match old(life)
                      case Closing => Wait
                      case Closed => Refuse
                      case CloseFailed(p, b) => Both(p, b)
                      case Open => if binary.built then Both(false, false) else Alone
      ensures One(PlanPc(plan), Free, PlanToken(plan)) == Decided(old(One(Deciding, Held(0), Free)))
      ensures (plan.Wait? || plan.Refuse?) ==> life == old(life) && closed == old(closed)
      ensures plan.Alone? || plan.Both? ==> life == Closing && closed && Valid()
    {
      match life
      case Closing => plan := Wait;
      case Closed => plan := Refuse;
      case CloseFailed(p, b) =>
        life := Closing;
        plan := Both(p, b);
      case Open =>
        if closed { return Refuse; }
        closed := true;
        life := Closing;
        plan := if binary.built then Both(false, false) else Alone;
    }

    /** One branch of the attempt: skipped when the flag is set or there is no executor. */
    method ClosePounce(p0: bool, b0: bool, o: Outcome) returns (p: bool, ok: bool)
      requires p0 ==> Settled(pounce)
      modifies `pounce
      ensures One(Attempting(p, b0, true, false), Free, Held(0)) ==
        CloseOne(old(One(Attempting(p0, b0, false, false), Free, Held(0))), 0, Pounce, o)
      ensures pounce == (if p0 || !old(pounce.built) then old(pounce) else Call(old(pounce), o)) && (p ==> Settled(pounce))
      ensures ok <==> p0 || !old(pounce.built) || o.Succeeds?
    {
      if !p0 && pounce.built {
        pounce := Call(pounce, o);
        return o.Succeeds? || pounce.done, o.Succeeds?;
      }
      return true, true;
    }

    method CloseBinary(p: bool, b0: bool, o: Outcome) returns (b: bool, ok: bool)
      requires b0 ==> Settled(binary)
      modifies `binary
      ensures One(Attempting(p, b, true, true), Free, Held(0)) ==
        CloseOne(old(One(Attempting(p, b0, true, false), Free, Held(0))), 0, Binary, o)
      ensures binary == (if b0 || !old(binary.built) then old(binary) else Call(old(binary), o)) && (b ==> Settled(binary))
      ensures ok <==> b0 || !old(binary.built) || o.Succeeds?
    {
      if !b0 && binary.built {
        binary := Call(binary, o);
        return o.Succeeds? || binary.done, o.Succeeds?;
      }
      return true, true;
    }

    /** `run_mixed_close_attempt` followed by `reconcile_close_progress`. */
    method Attempt(p0: bool, b0: bool, po: Outcome, bo: Outcome) returns (p: bool, b: bool, ok: bool)
      requires (p0 ==> Settled(pounce)) && (b0 ==> Settled(binary))
      modifies `pounce, `binary
      ensures One(WantPublish(p, b), Free, Held(0)) == Attempted(old(One(Attempting(p0, b0, false, false), Free, Held(0))), po, bo)
      ensures p == Settled(pounce) && b == Settled(binary)
      ensures pounce == if p0 || !old(pounce.built) then old(pounce) else Call(old(pounce), po)
      ensures binary == if b0 || !old(binary.built) then old(binary) else Call(old(binary), bo)
      ensures ok <==> (p0 || !old(pounce.built) || po.Succeeds?) && (b0 || !old(binary.built) || bo.Succeeds?)
    {
      var pounceOk, binaryOk;
      p, pounceOk := ClosePounce(p0, b0, po);
      b, binaryOk := CloseBinary(p, b0, bo);
      if Settled(pounce) { p := true; }
      if Settled(binary) { b := true; }
      ok := pounceOk && binaryOk;
    }

    method TearAlone(po: Outcome) returns (ok: bool)
      requires life == Closing && closed
      modifies this
      ensures One(Notifying, Free, Free) == TornDown(old(One(Tearing, Free, Held(0))), po)
      ensures ok <==> !old(pounce.built) || po.Succeeds?
      ensures binary == old(binary) && life == (if ok then Closed else Open) && closed == ok && (ok ==> Settled(pounce))
    {
      ok := true;
      if pounce.built {
        pounce := Call(pounce, po);
        ok := po.Succeeds?;
      }
      if ok {
        life := Closed;
      } else {
        life := Open;
        closed := false;
      }
    }

    method PublishBoth(p: bool, b: bool)
      modifies `life
      ensures One(Notifying, Free, Free) == Publish(Acquire(old(One(WantPublish(p, b), Free, Held(0))), 0), 0)
      ensures life == if p && b then Closed else CloseFailed(p, b)
    {
      life := if p && b then Closed else CloseFailed(p, b);
    }

    /** A mixed teardown from the plan to the published result. */
    method CloseBoth(p0: bool, b0: bool, po: Outcome, bo: Outcome) returns (ok: bool)
      requires (p0 ==> Settled(pounce)) && (b0 ==> Settled(binary))
      modifies `pounce, `binary, `life
      ensures life == if Settled(pounce) && Settled(binary) then Closed else CloseFailed(Settled(pounce), Settled(binary))
      ensures pounce == if p0 || !old(pounce.built) then old(pounce) else Call(old(pounce), po)
      ensures binary == if b0 || !old(binary.built) then old(binary) else Call(old(binary), bo)
      ensures ok <==> (p0 || !old(pounce.built) || po.Succeeds?) && (b0 || !old(binary.built) || bo.Succeeds?)
    {
      var p, b;
      p, b, ok := Attempt(p0, b0, po, bo);
      PublishBoth(p, b);
    }

    /**
     * One uncontended `close`. A client without a binary executor ends `Closed` or reopens; one with a binary
     * executor ends `Closed` exactly when both executors are shut down and otherwise keeps refusing admissions.
     */
    method Close(po: Outcome, bo: Outcome) returns (r: Result)
      requires Valid() && life != Closing
      modifies this
      ensures Valid()
      ensures old(life) == Closed ==> r == ClientClosed && life == Closed && pounce == old(pounce) && binary == old(binary)
      ensures old(life) == Open && !old(binary.built) ==>
        life == (if !old(pounce.built) || po.Succeeds? then Closed else Open) && (r == Ok <==> life == Closed)
      ensures (old(life) == Open && old(binary.built)) || old(life).CloseFailed? ==>
        life == if Settled(pounce) && Settled(binary) then Closed else CloseFailed(Settled(pounce), Settled(binary))
      ensures old(life).CloseFailed? && old(life).pounce ==> pounce == old(pounce)
      ensures old(life).CloseFailed? && old(life).binary ==> binary == old(binary)
      ensures po.Succeeds? && bo.Succeeds? && old(life) != Closed ==> r == Ok && life == Closed
    {
      var plan := Decide();
      match plan
      case Wait | Refuse => return ClientClosed;
      case Alone =>
        var ok := TearAlone(po);
        return if ok then Ok else ExecutorError;
      case Both(p0, b0) =>
        var ok := CloseBoth(p0, b0, po, bo);
        return if ok then Ok else ExecutorError;
    }
  }
}
