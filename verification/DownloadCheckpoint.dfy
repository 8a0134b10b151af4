/**
 * The checkpoint barrier of a download: part writers, serial stagers, timers and forced checkpoints
 * share one target file and one `.rcdl` snapshot, and the process may crash between any two steps.
 */
module DownloadCheckpoint {

  /** A part is the half-open range of cells `[lo, hi)`. */
  datatype Part = Part(lo: nat, hi: nat)

  /** `body` is the remote content. `timers` is off when there are too many parts for a timer. */
  datatype Config = Config(body: seq<int>, parts: seq<Part>, timers: bool)

  predicate ValidConfig(c: Config) {
    forall p :: 0 <= p < |c.parts| ==> c.parts[p].lo <= c.parts[p].hi <= |c.body|
  }

  datatype Kind = Parallel(part: nat) | Serial(part: nat) | Forced | Timed

  datatype Pc =
    | AwaitBarrier
    | AwaitFile
    | Writing(done: nat)
    | Staging
    | Beginning
    | AwaitSync
    | Syncing
    | Committing
    | Installed
    | Returned(ok: bool)

  datatype Actor = Actor(kind: Kind, pc: Pc)

  datatype Lock = Free | Held(owner: nat)

  /**
   * `mem` is the file as the process sees it and `disk` what would survive a crash; a cell that was
   * never written holds anything. `staged` and `published` are the pending and the done bits in memory.
   * `surviving` holds every snapshot that a crash now could leave behind as the sidecar.
   */
  datatype State = State(
    mem: seq<int>, disk: seq<int>,
    staged: set<nat>, published: set<nat>, surviving: set<set<nat>>,
    armed: bool, barrier: Lock, file: Lock, actors: seq<Actor>)

  /** `Step` runs the next step of an actor; `due` is used only when that step stages a part. */
  datatype Event =
    | Spawn(kind: Kind)
    | Step(i: nat, due: bool)
    | Fail(i: nat)
    | WriteBack(at: nat)
    | Crash(found: set<nat>)

  predicate IsWriter(k: Kind) { k.Parallel? || k.Serial? }

  predicate InBarrier(a: Actor) {
    match a.pc
    case AwaitBarrier | Returned(_) => false
    case AwaitFile | Writing(_) => a.kind.Parallel?
    case _ => true
  }

  predicate InFile(a: Actor) { a.pc.Writing? || a.pc.Syncing? }

  predicate Initial(c: Config, s: State) {
    && |s.mem| == |c.body| && s.disk == s.mem
    && s.staged == {} && s.published == {} && s.surviving == {{}}
    && !s.armed && s.barrier == Free && s.file == Free && s.actors == []
  }

  // ---------------------------------------------------------------- one step of one actor

  function Goto(s: State, i: nat, pc: Pc): State
    requires i < |s.actors|
  {
    s.(actors := s.actors[i := s.actors[i].(pc := pc)])
  }

  /** Returning drops the barrier guard. */
  function Return(s: State, i: nat, ok: bool): State
    requires i < |s.actors|
  {
    Goto(s, i, Returned(ok)).(barrier := Free)
  }

  predicate CanStep(s: State, i: nat) {
    i < |s.actors| &&
    match s.actors[i].pc
    case AwaitBarrier => s.barrier == Free
    case AwaitFile | AwaitSync => s.file == Free
    case Returned(_) => false
    case _ => true
  }

  function TakeBarrier(s: State, i: nat): State
    requires i < |s.actors|
  {
    var next := match s.actors[i].kind
                case Parallel(_) => AwaitFile
                case Serial(_) => Staging
                case _ => Beginning;
    Goto(s, i, next).(barrier := Held(i))
  }

  function WriteNext(c: Config, s: State, i: nat): State
    requires i < |s.actors| && s.actors[i].pc.Writing? && IsWriter(s.actors[i].kind)
    requires s.actors[i].kind.part < |c.parts| && ValidConfig(c) && |s.mem| == |c.body|
  {
    var a := s.actors[i];
    var p := c.parts[a.kind.part];
    var at := p.lo + a.pc.done;
    if at < p.hi then
      Goto(s, i, Writing(a.pc.done + 1)).(mem := s.mem[at := c.body[at]])
    else
      Goto(s, i, if a.kind.Parallel? then Staging else AwaitBarrier).(file := Free)
  }

  function StagePart(c: Config, s: State, i: nat, due: bool): State
    requires i < |s.actors| && IsWriter(s.actors[i].kind)
  {
    var p := s.actors[i].kind.part;
    if p in s.published then Return(s, i, true)
    else if p in s.staged then Goto(s, i, Beginning)
    else if due then Goto(s, i, Beginning).(staged := s.staged + {p})
    else
      var t := Return(s, i, true).(staged := s.staged + {p}, armed := s.armed || c.timers);
      if c.timers && !s.armed then t.(actors := t.actors + [Actor(Timed, AwaitBarrier)]) else t
  }

  function Begin(s: State, i: nat): State
    requires i < |s.actors|
  {
    if s.actors[i].kind.Timed? && !s.armed then Return(s, i, true)
    else if s.staged == {} then Return(s, i, true).(armed := false)
    else Goto(s, i, AwaitSync).(armed := false)
  }

  function Sync(s: State, i: nat): State
    requires i < |s.actors|
  {
    Goto(s, i, Committing).(disk := s.mem, file := Free)
  }

  /** The rename: until the directory is synced a crash may still show an earlier snapshot. */
  function Install(s: State, i: nat): State
    requires i < |s.actors|
  {
    Goto(s, i, Installed).(surviving := s.surviving + {s.published + s.staged})
  }

  /** The directory sync, after which the bits in memory follow the snapshot. */
  function Publish(s: State, i: nat): State
    requires i < |s.actors|
  {
    var bits := s.published + s.staged;
    Return(s, i, true).(surviving := {bits}, published := bits, staged := {})
  }

  predicate KindFits(c: Config, a: Actor) {
    && (IsWriter(a.kind) ==> a.kind.part < |c.parts|)
    && (a.pc.AwaitFile? || a.pc.Writing? || a.pc.Staging? ==> IsWriter(a.kind))
  }

  predicate WellFormed(c: Config, s: State) {
    && ValidConfig(c) && |s.mem| == |c.body| && |s.disk| == |c.body|
    && forall i :: 0 <= i < |s.actors| ==> KindFits(c, s.actors[i])
  }

  function Advance(c: Config, s: State, i: nat, due: bool): State
    requires WellFormed(c, s) && i < |s.actors| && CanStep(s, i)
  {
    assert KindFits(c, s.actors[i]);
    match s.actors[i].pc
    case AwaitBarrier => TakeBarrier(s, i)
    case AwaitFile => Goto(s, i, Writing(0)).(file := Held(i))
    case Writing(_) => WriteNext(c, s, i)
    case Staging => StagePart(c, s, i, due)
    case Beginning => Begin(s, i)
    case AwaitSync => Goto(s, i, Syncing).(file := Held(i))
    case Syncing => Sync(s, i)
    case Committing => Install(s, i)
    case Installed => Publish(s, i)
  }

  // ---------------------------------------------------------------- runs

  predicate Enabled(c: Config, s: State, e: Event) {
    match e
    case Spawn(k) => IsWriter(k) ==> k.part < |c.parts|
    case Step(i, _) => CanStep(s, i)
    case Fail(i) => i < |s.actors| && (InBarrier(s.actors[i]) || InFile(s.actors[i]))
    case WriteBack(at) => at < |c.body|
    case Crash(found) => found in s.surviving
  }

  /** An I/O error drops every guard the actor holds. */
  function Abort(s: State, i: nat): State
    requires i < |s.actors|
  {
    var t := Goto(s, i, Returned(false));
    t.(barrier := if InBarrier(s.actors[i]) then Free else s.barrier,
       file := if InFile(s.actors[i]) then Free else s.file)
  }

  function Start(k: Kind): Actor { Actor(k, if k.Serial? then AwaitFile else AwaitBarrier) }

  function Apply(c: Config, s: State, e: Event): State
    requires WellFormed(c, s) && Enabled(c, s, e)
  {
    match e
    case Spawn(k) => s.(actors := s.actors + [Start(k)])
    case Step(i, due) => Advance(c, s, i, due)
    case Fail(i) => Abort(s, i)
    case WriteBack(at) => s.(disk := s.disk[at := s.mem[at]])
    case Crash(found) => State(s.disk, s.disk, {}, found, {found}, false, Free, Free, [])
  }

  /** Applying the events in order never leaves the enabled, well-formed part of the state space. */
  predicate ValidRun(c: Config, s: State, run: seq<Event>)
    decreases |run|
  {
    WellFormed(c, s) && (run == [] || (Enabled(c, s, run[0]) && ValidRun(c, Apply(c, s, run[0]), run[1..])))
  }

  function Exec(c: Config, s: State, run: seq<Event>): State
    requires ValidRun(c, s, run)
    ensures WellFormed(c, Exec(c, s, run))
    decreases |run|
  {
    if run == [] then s else Exec(c, Apply(c, s, run[0]), run[1..])
  }

  // ---------------------------------------------------------------- what every step keeps

  predicate Good(c: Config, cells: seq<int>, p: nat) {
    p < |c.parts| && ValidConfig(c) && |cells| == |c.body| &&
    forall k :: c.parts[p].lo <= k < c.parts[p].hi ==> cells[k] == c.body[k]
  }

  predicate AllGood(c: Config, cells: seq<int>, ps: set<nat>) { forall p :: p in ps ==> Good(c, cells, p) }

  predicate SnapshotsDurable(c: Config, s: State) {
    forall snap :: snap in s.surviving ==> AllGood(c, s.disk, snap) && s.published <= snap
  }

  predicate Data(c: Config, s: State) {
    && |s.mem| == |c.body| && |s.disk| == |c.body|
    && AllGood(c, s.disk, s.published) && AllGood(c, s.mem, s.staged)
    && SnapshotsDurable(c, s)
    && forall k :: 0 <= k < |c.body| && s.disk[k] == c.body[k] ==> s.mem[k] == c.body[k]
  }

  predicate WriterOk(c: Config, s: State, a: Actor)
    requires WellFormed(c, s) && KindFits(c, a)
  {
    IsWriter(a.kind) ==>
      var p := c.parts[a.kind.part];
      match a.pc
      case Writing(o) => p.lo + o <= p.hi && forall k :: p.lo <= k < p.lo + o ==> s.mem[k] == c.body[k]
      case Staging => Good(c, s.mem, a.kind.part)
      case AwaitBarrier => a.kind.Serial? ==> Good(c, s.mem, a.kind.part)
      case Returned(ok) => ok ==> a.kind.part in s.staged + s.published
      case Beginning | AwaitSync | Syncing | Committing | Installed => a.kind.part in s.staged
      case _ => true
  }

  /** Between the sync and the end of the commit nothing staged is missing from the disk. */
  predicate CommitOk(c: Config, s: State, a: Actor) {
    && (a.pc.Committing? || a.pc.Installed? ==> AllGood(c, s.disk, s.staged))
    && (a.pc.Installed? ==> s.published + s.staged in s.surviving)
  }

  predicate ActorOk(c: Config, s: State, i: nat)
    requires WellFormed(c, s) && i < |s.actors|
  {
    assert KindFits(c, s.actors[i]);
    && (s.barrier == Held(i) <==> InBarrier(s.actors[i]))
    && (s.file == Held(i) <==> InFile(s.actors[i]))
    && WriterOk(c, s, s.actors[i]) && CommitOk(c, s, s.actors[i])
  }

  predicate Inv(c: Config, s: State) {
    && WellFormed(c, s) && Data(c, s)
    && (s.barrier.Held? ==> s.barrier.owner < |s.actors|) && (s.file.Held? ==> s.file.owner < |s.actors|)
    && forall i :: 0 <= i < |s.actors| ==> ActorOk(c, s, i)
  }
}
