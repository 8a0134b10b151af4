/** Lease acquisitions racing each other, one try-lock or unlock at a time. */
module TargetLeaseRace {
  import opened Sorting
  import opened ByteStrings
  import opened TargetLease

  /** `Failing` gives back what it took, one handle at a time, until it has `Failed`. */
  datatype Phase = Acquiring | Held | Failing | Failed | Dropping | Gone

  /** A contender holds `keys[freed..taken]`. `blame` is the key another owner held, if it failed on one. */
  datatype Contender = Contender(keys: seq<Key>, taken: nat, freed: nat, phase: Phase, blame: seq<Key>)

  datatype State = State(owner: map<Key, nat>, contenders: seq<Contender>)

  datatype Event = TryLock(i: nat) | Finish(i: nat) | IoError(i: nat) | Free(i: nat) | Drop(i: nat)

  predicate Starting(c: Contender) {
    Ascending(c.keys) && c.taken == 0 && c.freed == 0 && c.phase == Acquiring && c.blame == []
  }

  predicate Initial(s: State) { s.owner == map[] && forall i :: 0 <= i < |s.contenders| ==> Starting(s.contenders[i]) }

  predicate Enabled(s: State, e: Event) {
    e.i < |s.contenders| &&
    var c := s.contenders[e.i];
    match e
    case TryLock(_) => c.phase == Acquiring && c.taken < |c.keys|
    case Finish(_) => c.phase == Acquiring && c.taken == |c.keys|
    case IoError(_) => c.phase == Acquiring
    case Free(_) => c.phase == Failing || c.phase == Dropping
    case Drop(_) => c.phase == Held
  }

  function Next(s: State, e: Event): State
    requires Enabled(s, e) && Shapes(s)
  {
    var c := s.contenders[e.i];
    match e
    case TryLock(i) =>
      if c.keys[c.taken] in s.owner then
        s.(contenders := s.contenders[i := c.(phase := Failing, blame := [c.keys[c.taken]])])
      else
        State(s.owner[c.keys[c.taken] := i], s.contenders[i := c.(taken := c.taken + 1)])
    case Finish(i) => s.(contenders := s.contenders[i := c.(phase := Held)])
    case IoError(i) => s.(contenders := s.contenders[i := c.(phase := Failing)])
    case Free(i) =>
      if c.freed < c.taken then
        State(s.owner - {c.keys[c.freed]}, s.contenders[i := c.(freed := c.freed + 1)])
      else
        s.(contenders := s.contenders[i := c.(phase := if c.phase == Failing then Failed else Gone)])
    case Drop(i) => s.(contenders := s.contenders[i := c.(phase := Dropping)])
  }

  // ---------------------------------------------------------------- who holds what

  predicate Holds(c: Contender, k: Key) { exists j :: c.freed <= j < c.taken && j < |c.keys| && c.keys[j] == k }

  predicate Shape(c: Contender) {
    && Ascending(c.keys) && c.freed <= c.taken <= |c.keys|
    && (c.phase == Acquiring || c.phase == Held ==> c.freed == 0)
    && (c.phase == Held ==> c.taken == |c.keys|)
    && (c.phase == Failed || c.phase == Gone ==> c.freed == c.taken)
    && (c.blame != [] ==> c.taken < |c.keys| && c.blame == [c.keys[c.taken]] && (c.phase == Failing || c.phase == Failed))
  }

  predicate Shapes(s: State) { forall i :: 0 <= i < |s.contenders| ==> Shape(s.contenders[i]) }

  /** The lock table says exactly who holds the key. */
  predicate KeyOk(s: State, k: Key) {
    && (k in s.owner ==> s.owner[k] < |s.contenders|)
    && (forall i :: 0 <= i < |s.contenders| ==> (Holds(s.contenders[i], k) <==> k in s.owner && s.owner[k] == i))
  }

  ghost predicate Consistent(s: State) { Shapes(s) && forall k :: KeyOk(s, k) }

  lemma StepKeepsKey(s: State, e: Event, k: Key)
    requires Shapes(s) && Enabled(s, e) && KeyOk(s, k)
    ensures KeyOk(Next(s, e), k)
  {
    var c, t := s.contenders[e.i], Next(s, e);
    var d := t.contenders[e.i];
    assert Shape(c) && (Holds(c, k) <==> k in s.owner && s.owner[k] == e.i);
    assert forall i :: 0 <= i < |s.contenders| && i != e.i ==> t.contenders[i] == s.contenders[i];
    if e.TryLock? && c.keys[c.taken] !in s.owner {
      HoldsNext(c, k);
      assert d == c.(taken := c.taken + 1);
    } else if e.Free? && c.freed < c.taken {
      HoldsFreed(c, k);
      assert d == c.(freed := c.freed + 1);
      if k == c.keys[c.freed] { assert Holds(c, k); }
    } else {
      assert Holds(d, k) <==> Holds(c, k);
    }
  }

  lemma StepKeepsShape(s: State, e: Event)
    requires Shapes(s) && Enabled(s, e)
    ensures Shapes(Next(s, e))
  {
    assert Shape(s.contenders[e.i]);
  }

  lemma StepKeepsConsistent(s: State, e: Event)
    requires Consistent(s) && Enabled(s, e)
    ensures Consistent(Next(s, e))
  {
    StepKeepsShape(s, e);
    forall k ensures KeyOk(Next(s, e), k) { assert KeyOk(s, k); StepKeepsKey(s, e, k); }
  }

  lemma HoldsNext(c: Contender, k: Key)
    requires Shape(c) && c.taken < |c.keys|
    ensures Holds(c.(taken := c.taken + 1), k) <==> Holds(c, k) || k == c.keys[c.taken]
  {
    var d := c.(taken := c.taken + 1);
    if k == c.keys[c.taken] { assert d.freed <= c.taken < d.taken && d.keys[c.taken] == k; }
    if Holds(c, k) { var j :| c.freed <= j < c.taken && j < |c.keys| && c.keys[j] == k; assert d.keys[j] == k; }
    if Holds(d, k) { var j :| d.freed <= j < d.taken && j < |d.keys| && d.keys[j] == k; assert j < c.taken || j == c.taken; }
  }

  lemma HoldsFreed(c: Contender, k: Key)
    requires Shape(c) && c.freed < c.taken
    ensures Holds(c.(freed := c.freed + 1), k) <==> Holds(c, k) && k != c.keys[c.freed]
  {
    var d := c.(freed := c.freed + 1);
    if Holds(d, k) {
      var j :| d.freed <= j < d.taken && j < |d.keys| && d.keys[j] == k;
      assert LexLess(c.keys[c.freed], c.keys[j]);
    }
    if Holds(c, k) && k != c.keys[c.freed] {
      var j :| c.freed <= j < c.taken && j < |c.keys| && c.keys[j] == k;
      assert d.freed <= j < d.taken && d.keys[j] == k;
    }
  }

  // ---------------------------------------------------------------- whole runs

  predicate ValidRun(s: State, run: seq<Event>)
    decreases |run|
  {
    run == [] || (Shapes(s) && Enabled(s, run[0]) && ValidRun(Next(s, run[0]), run[1..]))
  }

  function Exec(s: State, run: seq<Event>): State
    requires ValidRun(s, run)
    decreases |run|
  {
    if run == [] then s else Exec(Next(s, run[0]), run[1..])
  }

  lemma {:induction false} RunKeepsConsistent(s: State, run: seq<Event>)
    requires Consistent(s) && ValidRun(s, run)
    ensures Consistent(Exec(s, run))
    decreases |run|
  {
    if run != [] {
      StepKeepsConsistent(s, run[0]);
      RunKeepsConsistent(Next(s, run[0]), run[1..]);
    }
  }

  lemma InitialConsistent(s: State)
    requires Initial(s)
    ensures Consistent(s)
  {
    forall k ensures KeyOk(s, k) {
      forall i | 0 <= i < |s.contenders| ensures !Holds(s.contenders[i], k) { assert Starting(s.contenders[i]); }
    }
    forall i | 0 <= i < |s.contenders| ensures Shape(s.contenders[i]) { assert Starting(s.contenders[i]); }
  }

  /** Two live leases share no key, whatever the interleaving. */
  lemma LiveLeasesAreDisjoint(s: State, run: seq<Event>, i: nat, j: nat, k: Key)
    requires Initial(s) && ValidRun(s, run)
    requires i < |Exec(s, run).contenders| && j < |Exec(s, run).contenders| && i != j
    requires Exec(s, run).contenders[i].phase == Held && Exec(s, run).contenders[j].phase == Held
    requires k in Exec(s, run).contenders[i].keys
    ensures k !in Exec(s, run).contenders[j].keys
  {
    var t := Exec(s, run);
    InitialConsistent(s);
    RunKeepsConsistent(s, run);
    assert KeyOk(t, k) && Shape(t.contenders[i]) && Shape(t.contenders[j]);
    HeldHoldsAll(t.contenders[i], k);
    HeldHoldsAll(t.contenders[j], k);
  }

  lemma HeldHoldsAll(c: Contender, k: Key)
    requires Shape(c) && c.phase == Held
    ensures Holds(c, k) <==> k in c.keys
  {
    if k in c.keys { var j :| 0 <= j < |c.keys| && c.keys[j] == k; assert c.freed <= j < c.taken; }
  }

  /** A failed or dropped acquisition holds nothing. */
  lemma FailedHoldsNothing(s: State, run: seq<Event>, i: nat, k: Key)
    requires Initial(s) && ValidRun(s, run) && i < |Exec(s, run).contenders|
    requires Exec(s, run).contenders[i].phase == Failed || Exec(s, run).contenders[i].phase == Gone
    ensures k in Exec(s, run).owner ==> Exec(s, run).owner[k] != i
  {
    InitialConsistent(s);
    RunKeepsConsistent(s, run);
    assert KeyOk(Exec(s, run), k) && Shape(Exec(s, run).contenders[i]);
  }

  // ---------------------------------------------------------------- somebody wins

  predicate Won(c: Contender) { c.phase == Held || c.phase == Dropping || c.phase == Gone }

  predicate Lost(c: Contender) { c.phase == Failing || c.phase == Failed }

  /** `c` got past the key `k`: it has locked it, or it failed later, on a larger key. */
  predicate Past(c: Contender, k: Key) {
    (c.phase == Acquiring && k in c.keys[..if c.taken <= |c.keys| then c.taken else 0]) ||
    (Lost(c) && |c.blame| == 1 && LexLess(k, c.blame[0]))
  }

  predicate SomeoneWon(s: State) { exists i :: 0 <= i < |s.contenders| && Won(s.contenders[i]) }

  predicate SomeonePast(s: State, k: Key) { exists j :: 0 <= j < |s.contenders| && Past(s.contenders[j], k) }

  /** Whoever failed can blame a contender that got further in the common order of keys. */
  predicate BlamedAt(s: State, i: nat)
    requires i < |s.contenders|
  {
    Lost(s.contenders[i]) ==> |s.contenders[i].blame| == 1 && SomeonePast(s, s.contenders[i].blame[0])
  }

  predicate Blamed(s: State) { SomeoneWon(s) || forall i :: 0 <= i < |s.contenders| ==> BlamedAt(s, i) }

  lemma StepKeepsWon(s: State, e: Event)
    requires Shapes(s) && Enabled(s, e) && SomeoneWon(s)
    ensures SomeoneWon(Next(s, e))
  {
    var i :| 0 <= i < |s.contenders| && Won(s.contenders[i]);
    assert Won(Next(s, e).contenders[i]);
  }

  /** Getting past a key is never undone. */
  lemma StepKeepsPast(s: State, e: Event, k: Key)
    requires Shapes(s) && Enabled(s, e) && !e.IoError? && SomeonePast(s, k)
    ensures SomeonePast(Next(s, e), k) || SomeoneWon(Next(s, e))
  {
    var j :| 0 <= j < |s.contenders| && Past(s.contenders[j], k);
    var c, t := s.contenders[j], Next(s, e);
    assert Shape(c);
    if Won(t.contenders[j]) {
    } else {
      if j == e.i && e.TryLock? && c.keys[c.taken] in s.owner {
        assert k in c.keys[..c.taken];
        var x :| 0 <= x < c.taken && c.keys[x] == k;
        assert LexLess(c.keys[x], c.keys[c.taken]);
      } else if j == e.i && e.TryLock? {
        assert c.keys[..c.taken + 1] == c.keys[..c.taken] + [c.keys[c.taken]];
      }
      assert Past(t.contenders[j], k);
    }
  }

  /** The contender that fails now blames the present holder of the key. */
  lemma FailureHasCulprit(s: State, e: Event)
    requires Consistent(s) && Enabled(s, e) && e.TryLock? && s.contenders[e.i].keys[s.contenders[e.i].taken] in s.owner
    requires Blamed(s) && !SomeoneWon(s)
    ensures SomeonePast(Next(s, e), s.contenders[e.i].keys[s.contenders[e.i].taken])
  {
    var c, t := s.contenders[e.i], Next(s, e);
    var k := c.keys[c.taken];
    assert KeyOk(s, k);
    var j := s.owner[k];
    var d := s.contenders[j];
    assert Holds(d, k) && Shape(d) && Shape(c);
    var x :| d.freed <= x < d.taken && x < |d.keys| && d.keys[x] == k;
    FreshKey(c.keys, c.taken);
    assert t.contenders[j] == d;
    assert !Won(d);
    if d.phase == Acquiring {
      assert k in d.keys[..d.taken];
    } else {
      assert BlamedAt(s, j);
      LostBeyond(d, x);
    }
    assert Past(t.contenders[j], k);
  }

  lemma LostBeyond(c: Contender, x: nat)
    requires Shape(c) && |c.blame| == 1 && x < c.taken
    ensures LexLess(c.keys[x], c.blame[0])
  {}

  lemma StepKeepsBlamed(s: State, e: Event)
    requires Consistent(s) && Enabled(s, e) && !e.IoError? && Blamed(s)
    ensures Blamed(Next(s, e))
  {
    var t := Next(s, e);
    if SomeoneWon(s) {
      StepKeepsWon(s, e);
    } else if !SomeoneWon(t) {
      forall i | 0 <= i < |t.contenders| ensures BlamedAt(t, i) {
        assert BlamedAt(s, i);
        if Lost(s.contenders[i]) {
          StepKeepsPast(s, e, s.contenders[i].blame[0]);
        } else if Lost(t.contenders[i]) {
          FailureHasCulprit(s, e);
        }
      }
    }
  }

  predicate NoIoErrors(run: seq<Event>) { forall e :: e in run ==> !e.IoError? }

  lemma {:induction false} RunKeepsBlamed(s: State, run: seq<Event>)
    requires Consistent(s) && ValidRun(s, run) && NoIoErrors(run) && Blamed(s)
    ensures Blamed(Exec(s, run))
    decreases |run|
  {
    if run != [] {
      assert run[0] in run;
      StepKeepsConsistent(s, run[0]);
      StepKeepsBlamed(s, run[0]);
      RunKeepsBlamed(Next(s, run[0]), run[1..]);
    }
  }

  lemma {:induction false} RunKeepsCount(s: State, run: seq<Event>)
    requires ValidRun(s, run)
    ensures |Exec(s, run).contenders| == |s.contenders|
    decreases |run|
  {
    if run != [] { RunKeepsCount(Next(s, run[0]), run[1..]); }
  }

  /** The contenders that failed on a key larger than `k`. */
  function Beyond(s: State, k: Key): set<nat> {
    set i: nat | i < |s.contenders| && |s.contenders[i].blame| == 1 && LexLess(k, s.contenders[i].blame[0])
  }

  lemma BeyondShrinks(s: State, j: nat, k: Key)
    requires j < |s.contenders| && |s.contenders[j].blame| == 1 && LexLess(k, s.contenders[j].blame[0])
    ensures |Beyond(s, s.contenders[j].blame[0])| < |Beyond(s, k)|
  {
    var m := s.contenders[j].blame[0];
    forall x | x in Beyond(s, m) ensures x in Beyond(s, k) {
      var b := s.contenders[x].blame[0];
      LexTransitive(k, m, b);
      if k == b { LexAntisymmetric(k, m); }
    }
    SmallerSubset(Beyond(s, m), Beyond(s, k), j);
  }

  predicate AllLost(s: State) { forall j :: 0 <= j < |s.contenders| ==> Lost(s.contenders[j]) }

  /** Somebody who got past the key on which contender `i` failed. */
  ghost function Culprit(s: State, i: nat): (j: nat)
    requires Blamed(s) && !SomeoneWon(s) && AllLost(s) && i < |s.contenders|
    ensures j < |s.contenders| && |s.contenders[i].blame| == 1 == |s.contenders[j].blame|
    ensures LexLess(s.contenders[i].blame[0], s.contenders[j].blame[0])
  {
    assert BlamedAt(s, i) && Lost(s.contenders[i]);
    var j :| 0 <= j < |s.contenders| && Past(s.contenders[j], s.contenders[i].blame[0]);
    assert Lost(s.contenders[j]);
    j
  }

  /** Each contender with a larger key to blame: such a chain cannot go on for ever. */
  ghost predicate Ascends(s: State, culprit: seq<nat>) {
    |culprit| == |s.contenders| &&
    forall i {:trigger culprit[i]} :: 0 <= i < |culprit| ==>
      culprit[i] < |s.contenders| && |s.contenders[i].blame| == 1 == |s.contenders[culprit[i]].blame| &&
      LexLess(s.contenders[i].blame[0], s.contenders[culprit[i]].blame[0])
  }

  ghost function Culprits(s: State): (culprit: seq<nat>)
    requires Blamed(s) && !SomeoneWon(s) && AllLost(s)
    ensures Ascends(s, culprit)
  {
    seq(|s.contenders|, i requires 0 <= i < |s.contenders| => Culprit(s, i))
  }

  lemma {:induction false} BlameAscends(s: State, culprit: seq<nat>, i: nat)
    requires i < |s.contenders| && |s.contenders[i].blame| == 1
    ensures !Ascends(s, culprit)
    decreases |Beyond(s, s.contenders[i].blame[0])|
  {
    if Ascends(s, culprit) {
      var j := culprit[i];
      BeyondShrinks(s, j, s.contenders[i].blame[0]);
      BlameAscends(s, culprit, j);
    }
  }

  lemma SmallerSubset(a: set<nat>, b: set<nat>, x: nat)
    requires a <= b && x in b && x !in a
    ensures |a| < |b|
  {
    assert a <= b - {x};
    SubsetSize(a, b - {x});
  }

  lemma {:induction false} SubsetSize(a: set<nat>, b: set<nat>)
    requires a <= b
    ensures |a| <= |b|
  {
    if a != {} {
      var x :| x in a;
      SubsetSize(a - {x}, b - {x});
    }
  }

  /** Contenders that race from a free table without I/O errors cannot all fail: once each of them has
      finished, at least one has won. */
  lemma SomeContenderWins(s: State, run: seq<Event>)
    requires Initial(s) && s.contenders != [] && ValidRun(s, run) && NoIoErrors(run)
    requires forall i :: 0 <= i < |Exec(s, run).contenders| ==> Exec(s, run).contenders[i].phase != Acquiring
    ensures SomeoneWon(Exec(s, run))
  {
    var t := Exec(s, run);
    InitialConsistent(s);
    forall i | 0 <= i < |s.contenders| ensures BlamedAt(s, i) { assert Starting(s.contenders[i]); }
    RunKeepsBlamed(s, run);
    RunKeepsCount(s, run);
    if !SomeoneWon(t) {
      forall j | 0 <= j < |t.contenders| ensures Lost(t.contenders[j]) { assert !Won(t.contenders[j]); }
      var culprit := Culprits(t);
      assert BlamedAt(t, 0);
      BlameAscends(t, culprit, 0);
    }
  }
}
