/** Crash safety of the checkpoint barrier over every interleaving, and what a finished checkpoint means. */
module DownloadCheckpointSafety {
  import opened DownloadCheckpoint

  // ---------------------------------------------------------------- framing

  /** Cells only turn from anything into body bytes. */
  predicate Grows(c: Config, a: seq<int>, b: seq<int>) {
    |a| == |b| == |c.body| && forall k :: 0 <= k < |a| && a[k] == c.body[k] ==> b[k] == c.body[k]
  }

  lemma GoodGrows(c: Config, a: seq<int>, b: seq<int>, ps: set<nat>)
    requires Grows(c, a, b) && AllGood(c, a, ps)
    ensures AllGood(c, b, ps)
  {
    forall p | p in ps ensures Good(c, b, p) { assert Good(c, a, p); }
  }

  /** What an actor that does not move needs from the step of another one. */
  predicate Frames(c: Config, s: State, t: State) {
    && Grows(c, s.mem, t.mem) && Grows(c, s.disk, t.disk)
    && s.staged + s.published <= t.staged + t.published
    && (s.barrier.Held? && s.barrier == t.barrier ==> s.staged <= t.staged)
  }

  /** Holding the barrier across the step keeps what is being committed. */
  predicate CommitFrame(s: State, t: State) {
    t.staged == s.staged && t.published == s.published && t.surviving == s.surviving
  }

  lemma OthersKeep(c: Config, s: State, t: State, j: nat)
    requires WellFormed(c, s) && WellFormed(c, t) && Frames(c, s, t)
    requires j < |s.actors| && j < |t.actors| && t.actors[j] == s.actors[j] && ActorOk(c, s, j)
    requires s.barrier == Held(j) <==> t.barrier == Held(j)
    requires s.file == Held(j) <==> t.file == Held(j)
    requires s.barrier == Held(j) ==> CommitFrame(s, t)
    ensures ActorOk(c, t, j)
  {
    var a := s.actors[j];
    if IsWriter(a.kind) && Good(c, s.mem, a.kind.part) { GoodGrows(c, s.mem, t.mem, {a.kind.part}); assert a.kind.part in {a.kind.part}; }
    if a.pc.Committing? || a.pc.Installed? { GoodGrows(c, s.disk, t.disk, s.staged); }
  }

  /** `t` differs from `s` in what actor `i` did; `i` itself is shown separately. */
  lemma StepKeeps(c: Config, s: State, t: State, i: nat)
    requires Inv(c, s) && WellFormed(c, t) && Data(c, t) && Frames(c, s, t)
    requires i < |s.actors| == |t.actors| && t.actors == s.actors[i := t.actors[i]]
    requires ActorOk(c, t, i)
    requires t.barrier == s.barrier || (s.barrier == Free && t.barrier == Held(i)) || (s.barrier == Held(i) && t.barrier == Free)
    requires t.file == s.file || (s.file == Free && t.file == Held(i)) || (s.file == Held(i) && t.file == Free)
    requires CommitFrame(s, t) || s.barrier == Held(i)
    ensures Inv(c, t)
  {
    forall j | 0 <= j < |t.actors| ensures ActorOk(c, t, j) {
      if j != i { assert ActorOk(c, s, j); OthersKeep(c, s, t, j); }
    }
  }

  lemma DataFrame(c: Config, s: State, t: State)
    requires Data(c, s) && CommitFrame(s, t) && t.disk == s.disk && Grows(c, s.mem, t.mem)
    ensures Data(c, t)
  {
    GoodGrows(c, s.mem, t.mem, s.staged);
  }

  // ---------------------------------------------------------------- the steps

  lemma TakeBarrierKeeps(c: Config, s: State, i: nat)
    requires Inv(c, s) && i < |s.actors| && s.actors[i].pc.AwaitBarrier? && CanStep(s, i)
    ensures Inv(c, TakeBarrier(s, i))
  {
    var t := TakeBarrier(s, i);
    assert ActorOk(c, s, i);
    DataFrame(c, s, t);
    StepKeeps(c, s, t, i);
  }

  lemma TakeFileKeeps(c: Config, s: State, i: nat)
    requires Inv(c, s) && i < |s.actors| && (s.actors[i].pc.AwaitFile? || s.actors[i].pc.AwaitSync?) && CanStep(s, i)
    ensures Inv(c, Advance(c, s, i, false)) && Advance(c, s, i, true) == Advance(c, s, i, false)
  {
    var t := Advance(c, s, i, false);
    assert ActorOk(c, s, i);
    DataFrame(c, s, t);
    StepKeeps(c, s, t, i);
  }

  lemma WriteKeeps(c: Config, s: State, i: nat)
    requires Inv(c, s) && i < |s.actors| && s.actors[i].pc.Writing? && KindFits(c, s.actors[i])
    ensures Inv(c, WriteNext(c, s, i))
  {
    var t := WriteNext(c, s, i);
    var p := c.parts[s.actors[i].kind.part];
    assert ActorOk(c, s, i);
    assert Grows(c, s.mem, t.mem);
    DataFrame(c, s, t);
    if p.lo + s.actors[i].pc.done >= p.hi { assert Good(c, s.mem, s.actors[i].kind.part); }
    StepKeeps(c, s, t, i);
  }

  lemma SpawnKeeps(c: Config, s: State, a: Actor)
    requires Inv(c, s) && KindFits(c, a) && !InBarrier(a) && !InFile(a) && !a.pc.Returned? && !(a.kind.Serial? && a.pc.AwaitBarrier?)
    ensures Inv(c, s.(actors := s.actors + [a]))
  {
    var t := s.(actors := s.actors + [a]);
    forall j | 0 <= j < |t.actors| ensures KindFits(c, t.actors[j]) {
      if j < |s.actors| { assert KindFits(c, s.actors[j]); }
    }
    forall j | 0 <= j < |t.actors| ensures ActorOk(c, t, j) {
      if j < |s.actors| { assert ActorOk(c, s, j); OthersKeep(c, s, t, j); }
    }
  }

  /** Staging a written part: the same in the two branches that add it, up to where the actor goes on. */
  lemma StagedKeeps(c: Config, s: State, t: State, i: nat)
    requires Inv(c, s) && i < |s.actors| && s.actors[i].pc.Staging? && KindFits(c, s.actors[i])
    requires
      var staged := s.staged + {s.actors[i].kind.part};
      || (exists armed :: t == Return(s, i, true).(staged := staged, armed := armed))
      || t == Goto(s, i, Beginning).(staged := staged)
    ensures Inv(c, t)
  {
    assert ActorOk(c, s, i);
    StepKeeps(c, s, t, i);
  }

  lemma StageKeeps(c: Config, s: State, i: nat, due: bool)
    requires Inv(c, s) && i < |s.actors| && s.actors[i].pc.Staging? && KindFits(c, s.actors[i])
    ensures Inv(c, StagePart(c, s, i, due))
  {
    var p := s.actors[i].kind.part;
    if p in s.published {
      assert ActorOk(c, s, i);
      StepKeeps(c, s, Return(s, i, true), i);
    } else if p in s.staged || due {
      assert s.staged + {p} == s.staged || due;
      StagedKeeps(c, s, StagePart(c, s, i, due), i);
    } else {
      var t := Return(s, i, true).(staged := s.staged + {p}, armed := s.armed || c.timers);
      StagedKeeps(c, s, t, i);
      SpawnKeeps(c, t, Actor(Timed, AwaitBarrier));
    }
  }

  lemma BeginKeeps(c: Config, s: State, i: nat)
    requires Inv(c, s) && i < |s.actors| && s.actors[i].pc.Beginning?
    ensures Inv(c, Begin(s, i))
  {
    var t := Begin(s, i);
    assert ActorOk(c, s, i);
    DataFrame(c, s, t);
    StepKeeps(c, s, t, i);
  }

  lemma SyncKeeps(c: Config, s: State, i: nat)
    requires Inv(c, s) && i < |s.actors| && s.actors[i].pc.Syncing?
    ensures Inv(c, Sync(s, i))
  {
    var t := Sync(s, i);
    assert ActorOk(c, s, i);
    assert Grows(c, s.disk, t.disk);
    GoodGrows(c, s.disk, t.disk, s.published);
    forall snap | snap in s.surviving ensures AllGood(c, t.disk, snap) { GoodGrows(c, s.disk, t.disk, snap); }
    StepKeeps(c, s, t, i);
  }

  lemma InstallKeeps(c: Config, s: State, i: nat)
    requires Inv(c, s) && i < |s.actors| && s.actors[i].pc.Committing?
    ensures Inv(c, Install(s, i))
  {
    assert ActorOk(c, s, i);
    StepKeeps(c, s, Install(s, i), i);
  }

  lemma PublishKeeps(c: Config, s: State, i: nat)
    requires Inv(c, s) && i < |s.actors| && s.actors[i].pc.Installed?
    ensures Inv(c, Publish(s, i))
  {
    assert ActorOk(c, s, i);
    StepKeeps(c, s, Publish(s, i), i);
  }

  lemma AbortKeeps(c: Config, s: State, i: nat)
    requires Inv(c, s) && i < |s.actors|
    ensures Inv(c, Abort(s, i))
  {
    var t := Abort(s, i);
    assert ActorOk(c, s, i);
    DataFrame(c, s, t);
    StepKeeps(c, s, t, i);
  }

  lemma WriteBackKeeps(c: Config, s: State, at: nat)
    requires Inv(c, s) && at < |c.body|
    ensures Inv(c, s.(disk := s.disk[at := s.mem[at]]))
  {
    var t := s.(disk := s.disk[at := s.mem[at]]);
    assert Grows(c, s.disk, t.disk);
    GoodGrows(c, s.disk, t.disk, s.published);
    forall snap | snap in s.surviving ensures AllGood(c, t.disk, snap) { GoodGrows(c, s.disk, t.disk, snap); }
    forall j | 0 <= j < |t.actors| ensures ActorOk(c, t, j) { assert ActorOk(c, s, j); OthersKeep(c, s, t, j); }
  }

  lemma AdvanceKeeps(c: Config, s: State, i: nat, due: bool)
    requires Inv(c, s) && CanStep(s, i)
    ensures Inv(c, Advance(c, s, i, due))
  {
    assert KindFits(c, s.actors[i]);
    match s.actors[i].pc {
      case AwaitBarrier => TakeBarrierKeeps(c, s, i);
      case AwaitFile | AwaitSync => TakeFileKeeps(c, s, i);
      case Writing(_) => WriteKeeps(c, s, i);
      case Staging => StageKeeps(c, s, i, due);
      case Beginning => BeginKeeps(c, s, i);
      case Syncing => SyncKeeps(c, s, i);
      case Committing => InstallKeeps(c, s, i);
      case Installed => PublishKeeps(c, s, i);
    }
  }

  lemma StepKeepsInv(c: Config, s: State, e: Event)
    requires Inv(c, s) && Enabled(c, s, e)
    ensures Inv(c, Apply(c, s, e))
  {
    match e {
      case Spawn(k) => SpawnKeeps(c, s, Start(k));
      case Step(i, due) => AdvanceKeeps(c, s, i, due);
      case Fail(i) => AbortKeeps(c, s, i);
      case WriteBack(at) => WriteBackKeeps(c, s, at);
      case Crash(found) =>
        assert AllGood(c, s.disk, found);
    }
  }

  // ---------------------------------------------------------------- whole runs

  lemma {:induction false} RunKeepsInv(c: Config, s: State, run: seq<Event>)
    requires Inv(c, s) && ValidRun(c, s, run)
    ensures Inv(c, Exec(c, s, run))
    decreases |run|
  {
    if run != [] {
      StepKeepsInv(c, s, run[0]);
      RunKeepsInv(c, Apply(c, s, run[0]), run[1..]);
    }
  }

  /**
   * Whatever interleaving of writers, stagers, timers, forced checkpoints, I/O errors, write-backs and
   * earlier crashes led here: every part of every snapshot a crash could leave is on the disk in full.
   */
  lemma CrashNeverExposesMissingBytes(c: Config, s: State, run: seq<Event>, found: set<nat>, p: nat)
    requires Initial(c, s) && ValidRun(c, s, run)
    requires found in Exec(c, s, run).surviving && p in found
    ensures p < |c.parts| && ValidConfig(c) && |Exec(c, s, run).disk| == |c.body|
    ensures Exec(c, s, run).disk[c.parts[p].lo..c.parts[p].hi] == c.body[c.parts[p].lo..c.parts[p].hi]
  {
    RunKeepsInv(c, s, run);
    var t := Exec(c, s, run);
    assert AllGood(c, t.disk, found);
    assert Good(c, t.disk, p);
  }

  /** The writer of part `p` has returned success and the process has not crashed since. */
  predicate Received(s: State, p: nat) { exists j :: 0 <= j < |s.actors| && ReceivedBy(s.actors[j], p) }

  predicate ReceivedBy(a: Actor, p: nat) { IsWriter(a.kind) && a.kind.part == p && a.pc == Returned(true) }

  /** A forced checkpoint that returns success has put every received part into every surviving snapshot. */
  lemma ForcedCheckpointIsComplete(c: Config, s: State, run: seq<Event>, i: nat, due: bool, p: nat)
    requires Initial(c, s) && ValidRun(c, s, run) && CanStep(Exec(c, s, run), i)
    requires
      var t := Exec(c, s, run);
      var u := Advance(c, t, i, due);
      t.actors[i].kind.Forced? && u.actors[i].pc == Returned(true) && Received(u, p)
    ensures forall snap :: snap in Advance(c, Exec(c, s, run), i, due).surviving ==> p in snap
  {
    RunKeepsInv(c, s, run);
    var t := Exec(c, s, run);
    var u := Advance(c, t, i, due);
    AdvanceKeeps(c, t, i, due);
    assert KindFits(c, t.actors[i]);
    assert u.staged == {};
    var j :| 0 <= j < |u.actors| && ReceivedBy(u.actors[j], p);
    assert ActorOk(c, u, j);
  }

  /** The lock order barrier, then file, leaves no deadlock: someone who has not returned can always step. */
  lemma NoDeadlock(c: Config, s: State, run: seq<Event>, i: nat) returns (j: nat)
    requires Initial(c, s) && ValidRun(c, s, run)
    requires i < |Exec(c, s, run).actors| && !Exec(c, s, run).actors[i].pc.Returned?
    ensures CanStep(Exec(c, s, run), j)
  {
    RunKeepsInv(c, s, run);
    var t := Exec(c, s, run);
    j := if t.file.Held? then t.file.owner else if t.barrier.Held? then t.barrier.owner else i;
    assert ActorOk(c, t, j);
  }

  /** At most one actor is between taking the barrier and returning, and at most one touches the file. */
  lemma BarrierExcludes(c: Config, s: State, run: seq<Event>, i: nat, j: nat)
    requires Initial(c, s) && ValidRun(c, s, run)
    requires i < |Exec(c, s, run).actors| && j < |Exec(c, s, run).actors| && i != j
    ensures !(InBarrier(Exec(c, s, run).actors[i]) && InBarrier(Exec(c, s, run).actors[j]))
    ensures !(InFile(Exec(c, s, run).actors[i]) && InFile(Exec(c, s, run).actors[j]))
  {
    RunKeepsInv(c, s, run);
    assert ActorOk(c, Exec(c, s, run), i) && ActorOk(c, Exec(c, s, run), j);
  }
}
