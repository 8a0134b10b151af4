/** The canonical query string of an OSS v4 signature. */
module OssCanonicalQuery {
  import opened Sorting
  import opened ByteStrings

  const AMP: byte := 38
  const EQ: byte := 61

  /** An encoded name and its value; the value is empty when there is no '='. */
  type Component = (Bytes, Bytes)

  // ---------------------------------------------------------------- reading

  /** Every raw '+' becomes "%20". */
  function Normalised(raw: Bytes): Bytes {
    if raw == [] then [] else (if raw[0] == 43 then [37, 50, 48] else [raw[0]]) + Normalised(raw[1..])
  }

  function Split(s: Bytes, separator: byte): (r: seq<Bytes>)
    ensures r != []
  {
    if s == [] then [[]]
    else if s[0] == separator then [[]] + Split(s[1..], separator)
    else [[s[0]] + Split(s[1..], separator)[0]] + Split(s[1..], separator)[1..]
  }

  /** `split_once('=')`. */
  function SplitOnce(s: Bytes): Component {
    if s == [] then ([], [])
    else if s[0] == EQ then ([], s[1..])
    else ([s[0]] + SplitOnce(s[1..]).0, SplitOnce(s[1..]).1)
  }

  function Read(parts: seq<Bytes>): seq<Component> {
    if parts == [] then []
    else
      var front := Read(parts[..|parts| - 1]);
      if parts[|parts| - 1] == [] then front else front + [SplitOnce(parts[|parts| - 1])]
  }

  function Components(raw: Bytes): seq<Component> { Read(Split(Normalised(raw), AMP)) }

  // ---------------------------------------------------------------- writing

  function Names(comps: seq<Component>): (r: seq<Bytes>)
    ensures |r| == |comps|
  {
    seq(|comps|, i requires 0 <= i < |comps| => comps[i].0)
  }

  function LastValue(comps: seq<Component>, name: Bytes): Bytes {
    if comps == [] then []
    else if comps[|comps| - 1].0 == name then comps[|comps| - 1].1
    else LastValue(comps[..|comps| - 1], name)
  }

  function Written(c: Component): Bytes { if c.1 == [] then c.0 else c.0 + [EQ] + c.1 }

  function Join(parts: seq<Bytes>): Bytes {
    if parts == [] then [] else if |parts| == 1 then parts[0] else parts[0] + [AMP] + Join(parts[1..])
  }

  /** Every occurrence of a name, in order, with the last value given for it. */
  function Resolved(comps: seq<Component>): (r: seq<Component>)
    ensures |r| == |Sort(Names(comps), LexLe)|
  {
    var sorted := Sort(Names(comps), LexLe);
    seq(|sorted|, i requires 0 <= i < |sorted| => (sorted[i], LastValue(comps, sorted[i])))
  }

  function WrittenAll(comps: seq<Component>): (r: seq<Bytes>)
    ensures |r| == |comps|
  {
    seq(|comps|, i requires 0 <= i < |comps| => Written(comps[i]))
  }

  function Canonical(comps: seq<Component>): Bytes { Join(WrittenAll(Resolved(comps))) }

  // ---------------------------------------------------------------- what it depends on

  predicate SameMeaning(a: seq<Component>, b: seq<Component>) {
    multiset(Names(a)) == multiset(Names(b)) && forall i :: 0 <= i < |a| ==> LastValue(a, a[i].0) == LastValue(b, a[i].0)
  }

  lemma ResolvedNames(comps: seq<Component>)
    ensures Names(Resolved(comps)) == Sort(Names(comps), LexLe)
  {}

  lemma NameOccurs(comps: seq<Component>, name: Bytes)
    requires name in Sort(Names(comps), LexLe)
    ensures exists i :: 0 <= i < |comps| && comps[i].0 == name
  {
    SortContents(Names(comps), LexLe);
    MemberByContents(Sort(Names(comps), LexLe), Names(comps), name);
  }

  /** Two queries resolve alike exactly when they repeat the same names as often and agree on each last value. */
  lemma ResolvedExact(a: seq<Component>, b: seq<Component>)
    ensures Resolved(a) == Resolved(b) <==> SameMeaning(a, b)
  {
    LexOrder();
    SortByContents(Names(a), Names(b), LexLe);
    ResolvedNames(a);
    ResolvedNames(b);
    var sorted := Sort(Names(a), LexLe);
    if SameMeaning(a, b) {
      forall i | 0 <= i < |sorted| ensures LastValue(a, sorted[i]) == LastValue(b, sorted[i]) {
        NameOccurs(a, sorted[i]);
        var k :| 0 <= k < |a| && a[k].0 == sorted[i];
      }
    }
    if Resolved(a) == Resolved(b) {
      forall i | 0 <= i < |a| ensures LastValue(a, a[i].0) == LastValue(b, a[i].0) {
        SortContents(Names(a), LexLe);
        assert Names(a)[i] == a[i].0;
        MemberByContents(sorted, Names(a), a[i].0);
        var k :| 0 <= k < |sorted| && sorted[k] == a[i].0;
        assert Resolved(a)[k] == (sorted[k], LastValue(a, sorted[k])) && Resolved(b)[k] == (sorted[k], LastValue(b, sorted[k]));
      }
    }
  }

  /** The values of one name in order. */
  function ValuesOf(comps: seq<Component>, name: Bytes): seq<Bytes> {
    if comps == [] then []
    else
      var front := ValuesOf(comps[..|comps| - 1], name);
      if comps[|comps| - 1].0 == name then front + [comps[|comps| - 1].1] else front
  }

  lemma {:induction false} ValuesTell(comps: seq<Component>, name: Bytes)
    ensures multiset(Names(comps))[name] == |ValuesOf(comps, name)|
    ensures LastValue(comps, name) == if ValuesOf(comps, name) == [] then [] else ValuesOf(comps, name)[|ValuesOf(comps, name)| - 1]
  {
    if comps != [] {
      var n := |comps| - 1;
      ValuesTell(comps[..n], name);
      assert Names(comps) == Names(comps[..n]) + [comps[n].0];
    }
  }

  /** Any reordering that keeps equal names in order is signed alike. */
  lemma ReorderingKeepsCanonical(a: seq<Component>, b: seq<Component>)
    requires forall name :: ValuesOf(a, name) == ValuesOf(b, name)
    ensures Canonical(a) == Canonical(b)
  {
    forall name ensures multiset(Names(a))[name] == multiset(Names(b))[name] && LastValue(a, name) == LastValue(b, name) {
      ValuesTell(a, name);
      ValuesTell(b, name);
      assert ValuesOf(a, name) == ValuesOf(b, name);
    }
    ResolvedExact(a, b);
  }

  // ---------------------------------------------------------------- reading it back

  predicate Lacks(s: Bytes, c: byte) { s == [] || (s[0] != c && Lacks(s[1..], c)) }

  lemma {:induction false} LacksConcat(a: Bytes, b: Bytes, c: byte)
    ensures Lacks(a + b, c) <==> Lacks(a, c) && Lacks(b, c)
  {
    if a == [] { assert a + b == b; } else { LacksConcat(a[1..], b, c); assert (a + b)[1..] == a[1..] + b; }
  }

  lemma {:induction false} SplitFirst(p: Bytes, rest: Bytes)
    requires Lacks(p, AMP)
    ensures Split(p, AMP) == [p] && Split(p + [AMP] + rest, AMP) == [p] + Split(rest, AMP)
  {
    if p == [] {
      assert p + [AMP] + rest == [AMP] + rest;
    } else {
      SplitFirst(p[1..], rest);
      assert (p + [AMP] + rest)[1..] == p[1..] + [AMP] + rest;
      assert p == [p[0]] + p[1..];
    }
  }

  predicate AllLack(parts: seq<Bytes>, c: byte) { forall i :: 0 <= i < |parts| ==> Lacks(parts[i], c) }

  /** Splitting undoes joining. */
  lemma {:induction false} SplitJoin(parts: seq<Bytes>)
    requires parts != [] && AllLack(parts, AMP)
    ensures Split(Join(parts), AMP) == parts
  {
    if |parts| == 1 {
      SplitFirst(parts[0], []);
    } else {
      SplitJoin(parts[1..]);
      SplitFirst(parts[0], Join(parts[1..]));
      assert parts == [parts[0]] + parts[1..];
    }
  }

  lemma {:induction false} SplitOnceWritten(name: Bytes, value: Bytes)
    requires Lacks(name, EQ)
    ensures SplitOnce(Written((name, value))) == (name, value)
  {
    if name != [] {
      SplitOnceWritten(name[1..], value);
      var s := Written((name, value));
      assert s[1..] == Written((name[1..], value));
      assert name == [name[0]] + name[1..];
    } else if value != [] {
      assert Written((name, value))[1..] == value;
    }
  }

  /** No name holds '&' or '=' and no value holds '&', as for everything that was split at them. */
  predicate Clean(comps: seq<Component>) {
    forall i :: 0 <= i < |comps| ==> Lacks(comps[i].0, AMP) && Lacks(comps[i].0, EQ) && Lacks(comps[i].1, AMP)
  }

  lemma {:induction false} LastValueClean(comps: seq<Component>, name: Bytes)
    requires Clean(comps)
    ensures Lacks(LastValue(comps, name), AMP)
  {
    if comps != [] { LastValueClean(comps[..|comps| - 1], name); }
  }

  lemma ResolvedClean(comps: seq<Component>)
    requires Clean(comps)
    ensures Clean(Resolved(comps)) && AllLack(WrittenAll(Resolved(comps)), AMP)
  {
    var r := Resolved(comps);
    forall i | 0 <= i < |r| ensures Lacks(r[i].0, AMP) && Lacks(r[i].0, EQ) && Lacks(r[i].1, AMP) && Lacks(Written(r[i]), AMP) {
      NameOccurs(comps, r[i].0);
      LastValueClean(comps, r[i].0);
      LacksConcat(r[i].0, [EQ], AMP);
      LacksConcat(r[i].0 + [EQ], r[i].1, AMP);
      assert [EQ][1..] == [];
    }
  }

  lemma WrittenInjective(a: seq<Component>, b: seq<Component>)
    requires Clean(a) && Clean(b) && WrittenAll(a) == WrittenAll(b)
    ensures a == b
  {
    forall i | 0 <= i < |a| ensures a[i] == b[i] {
      assert WrittenAll(a)[i] == WrittenAll(b)[i];
      SplitOnceWritten(a[i].0, a[i].1);
      SplitOnceWritten(b[i].0, b[i].1);
    }
  }

  /** Nothing at all, or a single nameless component without a value: both are written as the empty string. */
  predicate Blank(comps: seq<Component>) { Resolved(comps) == [] || Resolved(comps) == [([], [])] }

  lemma {:induction false} JoinEmpty(parts: seq<Bytes>)
    ensures Join(parts) == [] <==> parts == [] || parts == [[]]
  {}

  /**
   * The canonical string is exact: two queries are signed alike only if they repeat the same names as often and agree on
   * the last value of each, the one exception being the blank queries.
   */
  lemma CanonicalExact(a: seq<Component>, b: seq<Component>)
    requires Clean(a) && Clean(b)
    ensures Canonical(a) == Canonical(b) <==> SameMeaning(a, b) || (Blank(a) && Blank(b))
  {
    ResolvedExact(a, b);
    ResolvedClean(a);
    ResolvedClean(b);
    var x, y := WrittenAll(Resolved(a)), WrittenAll(Resolved(b));
    JoinEmpty(x);
    JoinEmpty(y);
    BlankIs(a);
    BlankIs(b);
    if Canonical(a) == Canonical(b) && x != [] && y != [] {
      SplitJoin(x);
      SplitJoin(y);
      WrittenInjective(Resolved(a), Resolved(b));
    }
  }

  /** The exception at its input: a lone `=` is signed like no query at all. */
  lemma BlankQueriesCollide()
    ensures Canonical(Components([EQ])) == Canonical(Components([]))
    ensures !SameMeaning(Components([EQ]), Components([]))
  {
    var none: Bytes := [];
    assert [EQ][1..] == none;
    assert Normalised([EQ]) == [EQ] && Split([EQ], AMP) == [[EQ]];
    assert SplitOnce([EQ]) == (none, none);
    ReadOne([EQ]);
    ReadOne(none);
    var comps := [(none, none)];
    assert Components([EQ]) == comps && Components([]) == [];
    assert Names(comps) == [none] && Names([]) == [];
    assert Sort([none], LexLe) == [none];
    assert LastValue(comps, none) == none;
    assert Resolved(comps) == comps && Resolved([]) == [];
    assert WrittenAll(comps) == [none] && WrittenAll([]) == [];
    assert none in multiset(Names(comps)) && none !in multiset(Names([]));
  }

  lemma ReadOne(part: Bytes)
    ensures Read([part]) == if part == [] then [] else [SplitOnce(part)]
  {
    assert [part][..0] == [] && Read([part][..0]) == [];
  }

  lemma BlankIs(comps: seq<Component>)
    ensures Blank(comps) <==> WrittenAll(Resolved(comps)) == [] || WrittenAll(Resolved(comps)) == [[]]
  {
    var r := Resolved(comps);
    if |r| == 1 {
      assert WrittenAll(r)[0] == Written(r[0]);
      assert r == [r[0]];
    }
  }

  lemma {:induction false} SplitClean(s: Bytes)
    ensures AllLack(Split(s, AMP), AMP)
  {
    if s != [] {
      SplitClean(s[1..]);
      var r := Split(s[1..], AMP);
      assert Lacks(r[0], AMP);
      assert ([s[0]] + r[0])[1..] == r[0];
    }
  }

  lemma {:induction false} SplitOnceClean(s: Bytes)
    requires Lacks(s, AMP)
    ensures Lacks(SplitOnce(s).0, AMP) && Lacks(SplitOnce(s).0, EQ) && Lacks(SplitOnce(s).1, AMP)
  {
    if s != [] && s[0] != EQ {
      SplitOnceClean(s[1..]);
      assert SplitOnce(s).0[1..] == SplitOnce(s[1..]).0;
    }
  }

  /** What the exactness asks of the components holds for every raw query. */
  lemma ComponentsClean(raw: Bytes)
    ensures Clean(Components(raw))
  {
    SplitClean(Normalised(raw));
    ReadClean(Split(Normalised(raw), AMP));
  }

  lemma {:induction false} ReadClean(parts: seq<Bytes>)
    requires AllLack(parts, AMP)
    ensures Clean(Read(parts))
  {
    if parts != [] {
      ReadClean(parts[..|parts| - 1]);
      SplitOnceClean(parts[|parts| - 1]);
    }
  }

  /** The first pass of `canonical_query`: keep every name, and the last value of each. */
  method ReadQuery(raw: Bytes) returns (values: map<Bytes, Bytes>, names: seq<Bytes>)
    ensures names == Names(Components(raw))
    ensures forall n :: LastValue(Components(raw), n) == if n in values then values[n] else []
  {
    var parts, i := Split(Normalised(raw), AMP), 0;
    values, names := map[], [];
    while i < |parts|
      invariant 0 <= i <= |parts| && names == Names(Read(parts[..i]))
      invariant forall n :: LastValue(Read(parts[..i]), n) == if n in values then values[n] else []
    {
      assert parts[..i + 1][..i] == parts[..i];
      if parts[i] != [] {
        var c := SplitOnce(parts[i]);
        ghost var front := Read(parts[..i]);
        assert (front + [c])[..|front|] == front;
        values, names := values[c.0 := c.1], names + [c.0];
      }
      i := i + 1;
    }
    assert parts[..i] == parts;
  }

  /** Then sort the names, write each with its value, and join. */
  method CanonicalQuery(raw: Bytes) returns (r: Bytes)
    ensures r == Canonical(Components(raw))
  {
    var values, names := ReadQuery(raw);
    names := Sort(names, LexLe);
    var written: seq<Bytes>, i := [], 0;
    ghost var all := WrittenAll(Resolved(Components(raw)));
    while i < |names|
      invariant 0 <= i <= |names| && written == all[..i]
    {
      var value := if names[i] in values then values[names[i]] else [];
      assert all[i] == Written((names[i], value));
      written := written + [if value == [] then names[i] else names[i] + [EQ] + value];
      i := i + 1;
    }
    assert written == all;
    r := Join(written);
  }
}
