/** Length-prefixed framing and the canonical header bytes that a resume identity is built from. */
module IdentityFraming {
  import opened Results
  import opened Sorting
  import opened ByteStrings

  // ---------------------------------------------------------------- big-endian lengths and frames

  /** The low `width` bytes of `n`, most significant first. */
  function BigEndian(n: nat, width: nat): (r: Bytes)
    ensures |r| == width
  {
    if width == 0 then [] else BigEndian(n / 256, width - 1) + [n % 256]
  }

  function Power256(width: nat): nat { if width == 0 then 1 else 256 * Power256(width - 1) }

  lemma {:induction false} BigEndianInjective(n: nat, m: nat, width: nat)
    requires n < Power256(width) && m < Power256(width) && BigEndian(n, width) == BigEndian(m, width)
    ensures n == m
  {
    if width > 0 {
      var a, b := BigEndian(n, width), BigEndian(m, width);
      assert a[..width - 1] == BigEndian(n / 256, width - 1) && b[..width - 1] == BigEndian(m / 256, width - 1);
      assert a[width - 1] == n % 256 && b[width - 1] == m % 256;
      BigEndianInjective(n / 256, m / 256, width - 1);
    }
  }

  lemma Power256Is()
    ensures Power256(8) == U64_MAX + 1
  {
    assert Power256(4) == 0x1_0000_0000;
    assert Power256(6) == 0x1_0000_0000_0000;
  }

  /** Every length and count is written as a `u64`. */
  function LengthWidth(n: nat): nat { 8 }

  function Be64(n: nat): (r: Bytes)
    ensures |r| == 8
  {
    BigEndian(n, LengthWidth(n))
  }

  /** No slice is longer than a 64-bit length can say. */
  predicate Sized(s: Bytes) { |s| <= U64_MAX }

  function Frame(s: Bytes): Bytes { Be64(|s|) + s }

  lemma Be64Cancels(n: nat, m: nat, x: Bytes, y: Bytes)
    requires n <= U64_MAX && m <= U64_MAX && Be64(n) + x == Be64(m) + y
    ensures n == m && x == y
  {
    assert (Be64(n) + x)[..8] == Be64(n) && (Be64(m) + y)[..8] == Be64(m);
    assert (Be64(n) + x)[8..] == x && (Be64(m) + y)[8..] == y;
    Power256Is();
    BigEndianInjective(n, m, LengthWidth(n));
  }

  /** A frame at the front of equal bytes is the same frame, and so is what follows. */
  lemma FrameCancels(a: Bytes, b: Bytes, x: Bytes, y: Bytes)
    requires Sized(a) && Sized(b) && Frame(a) + x == Frame(b) + y
    ensures a == b && x == y
  {
    assert Frame(a) + x == Be64(|a|) + (a + x) && Frame(b) + y == Be64(|b|) + (b + y);
    Be64Cancels(|a|, |b|, a + x, b + y);
    assert (a + x)[..|a|] == a && (b + y)[..|a|] == b;
    assert (a + x)[|a|..] == x && (b + y)[|a|..] == y;
  }

  lemma Regroup(a: Bytes, b: Bytes, c: Bytes)
    ensures (a + b) + c == a + (b + c)
  {}

  function Frames(values: seq<Bytes>): Bytes { if values == [] then [] else Frame(values[0]) + Frames(values[1..]) }

  predicate AllSized(values: seq<Bytes>) { forall i :: 0 <= i < |values| ==> Sized(values[i]) }

  lemma {:induction false} FramesCancel(a: seq<Bytes>, b: seq<Bytes>, x: Bytes, y: Bytes)
    requires AllSized(a) && AllSized(b) && |a| == |b| && Frames(a) + x == Frames(b) + y
    ensures a == b && x == y
  {
    if a == [] {
      assert Frames(a) + x == x && Frames(b) + y == y;
    } else {
      Regroup(Frame(a[0]), Frames(a[1..]), x);
      Regroup(Frame(b[0]), Frames(b[1..]), y);
      FrameCancels(a[0], b[0], Frames(a[1..]) + x, Frames(b[1..]) + y);
      FramesCancel(a[1..], b[1..], x, y);
      assert a == [a[0]] + a[1..] && b == [b[0]] + b[1..];
    }
  }

  lemma {:induction false} FramesConcat(a: seq<Bytes>, b: seq<Bytes>)
    ensures Frames(a + b) == Frames(a) + Frames(b)
  {
    if a == [] {
      assert a + b == b;
    } else {
      FramesConcat(a[1..], b);
      assert (a + b)[1..] == a[1..] + b;
      Regroup(Frame(a[0]), Frames(a[1..]), Frames(b));
    }
  }

  // ---------------------------------------------------------------- grouped headers

  type Header = (Bytes, Bytes)

  function LowerByte(b: byte): byte { if 65 <= b <= 90 then b + 32 else b }

  function Lower(s: Bytes): (r: Bytes)
    ensures |r| == |s|
  {
    seq(|s|, i requires 0 <= i < |s| => LowerByte(s[i]))
  }

  function Ascii(s: string): Bytes { seq(|s|, i requires 0 <= i < |s| => s[i] as int % 256) }

  /** The per-part headers that the executor supplies itself. */
  predicate PerPart(name: Bytes) { name in [Ascii("range"), Ascii("if-match"), Ascii("if-range")] }

  /** One entry of the ordered map: a name and its values in arrival order. */
  datatype Group = Group(name: Bytes, values: seq<Bytes>)

  function Add(groups: seq<Group>, name: Bytes, value: Bytes): seq<Group> {
    if groups == [] then [Group(name, [value])]
    else if groups[0].name == name then [Group(name, groups[0].values + [value])] + groups[1..]
    else if LexLess(name, groups[0].name) then [Group(name, [value])] + groups
    else [groups[0]] + Add(groups[1..], name, value)
  }

  /** The ordered map of lower-case names, filled pair by pair. */
  function GroupAll(pairs: seq<Header>): seq<Group> {
    if pairs == [] then []
    else Add(GroupAll(pairs[..|pairs| - 1]), Lower(pairs[|pairs| - 1].0), pairs[|pairs| - 1].1)
  }

  /** The values of one lower-case name in arrival order. */
  function ValuesFor(pairs: seq<Header>, name: Bytes): seq<Bytes> {
    if pairs == [] then []
    else
      var front := ValuesFor(pairs[..|pairs| - 1], name);
      if Lower(pairs[|pairs| - 1].0) == name then front + [pairs[|pairs| - 1].1] else front
  }

  function Kept(headers: seq<Header>): seq<Header> {
    if headers == [] then []
    else
      var front := Kept(headers[..|headers| - 1]);
      if PerPart(Lower(headers[|headers| - 1].0)) then front else front + [headers[|headers| - 1]]
  }

  function Grouped(headers: seq<Header>): seq<Group> { GroupAll(Kept(headers)) }

  /** What the identity is meant to depend on. */
  function ValuesOf(headers: seq<Header>, name: Bytes): seq<Bytes> { ValuesFor(Kept(headers), name) }

  ghost predicate SameValues(a: seq<Header>, b: seq<Header>) { forall name :: ValuesOf(a, name) == ValuesOf(b, name) }

  function Lookup(groups: seq<Group>, name: Bytes): seq<Bytes> {
    if groups == [] then [] else if groups[0].name == name then groups[0].values else Lookup(groups[1..], name)
  }

  /** Names strictly ascend and no entry is empty, as in an ordered map filled by pushes. */
  predicate MapLike(groups: seq<Group>) {
    groups == [] || (groups[0].values != [] && MapLike(groups[1..]) && Above(groups[0].name, groups[1..]))
  }

  predicate Above(name: Bytes, groups: seq<Group>) { groups == [] || (LexLess(name, groups[0].name) && Above(name, groups[1..])) }

  lemma LessTransitive(a: Bytes, b: Bytes, c: Bytes)
    requires LexLess(a, b) && LexLess(b, c)
    ensures LexLess(a, c)
  {
    LexTransitive(a, b, c);
    if a == c { LexAntisymmetric(a, b); }
  }

  lemma NotLess(a: Bytes, b: Bytes)
    requires a != b && !LexLess(a, b)
    ensures LexLess(b, a)
  {
    LexTotal(a, b);
  }

  lemma {:induction false} AboveLower(a: Bytes, b: Bytes, groups: seq<Group>)
    requires LexLess(a, b) && Above(b, groups)
    ensures Above(a, groups)
  {
    if groups != [] {
      LessTransitive(a, b, groups[0].name);
      AboveLower(a, b, groups[1..]);
    }
  }

  lemma {:induction false} AboveAdd(below: Bytes, groups: seq<Group>, name: Bytes, value: Bytes)
    requires Above(below, groups) && LexLess(below, name)
    ensures Above(below, Add(groups, name, value))
  {
    var added := Add(groups, name, value);
    if groups == [] {
      assert added[1..] == [];
    } else if groups[0].name == name {
      assert added[1..] == groups[1..];
    } else if LexLess(name, groups[0].name) {
      assert added[1..] == groups;
    } else {
      AboveAdd(below, groups[1..], name, value);
      assert added[1..] == Add(groups[1..], name, value);
    }
  }

  lemma {:induction false} AddIs(groups: seq<Group>, name: Bytes, value: Bytes)
    requires MapLike(groups)
    ensures MapLike(Add(groups, name, value))
  {
    var added := Add(groups, name, value);
    if groups == [] {
      assert added[1..] == [];
    } else if groups[0].name == name {
      assert added[1..] == groups[1..];
    } else if LexLess(name, groups[0].name) {
      AboveLower(name, groups[0].name, groups[1..]);
      assert added[1..] == groups;
    } else {
      NotLess(name, groups[0].name);
      AddIs(groups[1..], name, value);
      AboveAdd(groups[0].name, groups[1..], name, value);
      assert added[1..] == Add(groups[1..], name, value);
    }
  }

  lemma {:induction false} AboveAbsent(groups: seq<Group>, name: Bytes)
    requires Above(name, groups)
    ensures Lookup(groups, name) == []
  {
    if groups != [] { AboveAbsent(groups[1..], name); }
  }

  lemma {:induction false} LookupAdd(groups: seq<Group>, name: Bytes, value: Bytes, wanted: Bytes)
    requires MapLike(groups)
    ensures Lookup(Add(groups, name, value), wanted) == if wanted == name then Lookup(groups, wanted) + [value] else Lookup(groups, wanted)
  {
    var added := Add(groups, name, value);
    if groups == [] {
      assert added[1..] == [];
    } else if groups[0].name == name {
      assert added[1..] == groups[1..];
    } else if LexLess(name, groups[0].name) {
      assert added[1..] == groups;
      AboveLower(name, groups[0].name, groups[1..]);
      AboveAbsent(groups, name);
    } else {
      LookupAdd(groups[1..], name, value, wanted);
      assert added[1..] == Add(groups[1..], name, value);
    }
  }

  lemma {:induction false} GroupAllIs(pairs: seq<Header>, name: Bytes)
    ensures MapLike(GroupAll(pairs)) && Lookup(GroupAll(pairs), name) == ValuesFor(pairs, name)
  {
    if pairs != [] {
      var n := |pairs| - 1;
      GroupAllIs(pairs[..n], name);
      AddIs(GroupAll(pairs[..n]), Lower(pairs[n].0), pairs[n].1);
      LookupAdd(GroupAll(pairs[..n]), Lower(pairs[n].0), pairs[n].1, name);
    }
  }

  ghost predicate SameLookups(a: seq<Group>, b: seq<Group>) { forall name :: Lookup(a, name) == Lookup(b, name) }

  /** The first entry of a map is missing from any map whose entries all come later. */
  lemma FirstIsFound(a: seq<Group>, b: seq<Group>)
    requires MapLike(a) && MapLike(b) && a != [] && SameLookups(a, b)
    ensures b != [] && !LexLess(a[0].name, b[0].name)
  {
    assert Lookup(b, a[0].name) == Lookup(a, a[0].name) != [];
    if b != [] && LexLess(a[0].name, b[0].name) {
      AboveLower(a[0].name, b[0].name, b[1..]);
      AboveAbsent(b, a[0].name);
    }
  }

  /** An ordered map is determined by its lookups. */
  lemma {:induction false} MapExtensional(a: seq<Group>, b: seq<Group>)
    requires MapLike(a) && MapLike(b) && SameLookups(a, b)
    ensures a == b
  {
    if a != [] { FirstIsFound(a, b); }
    if b != [] { FirstIsFound(b, a); }
    if a != [] {
      if a[0].name != b[0].name { NotLess(a[0].name, b[0].name); }
      assert Lookup(a, a[0].name) == Lookup(b, a[0].name);
      assert a[0] == b[0];
      forall name ensures Lookup(a[1..], name) == Lookup(b[1..], name) {
        assert Lookup(a, name) == Lookup(b, name);
        if name == a[0].name { AboveAbsent(a[1..], name); AboveAbsent(b[1..], name); }
      }
      MapExtensional(a[1..], b[1..]);
      assert a == [a[0]] + a[1..] && b == [b[0]] + b[1..];
    }
  }

  // ---------------------------------------------------------------- the canonical bytes

  function HeaderTag(): Bytes { Ascii("rusty-cat/range-headers/v1") + [0] }

  function RenderValues(values: seq<Bytes>): Bytes { Be64(|values|) + Frames(values) }

  function RenderGroup(g: Group): Bytes { Frame(g.name) + RenderValues(g.values) }

  function RenderGroups(groups: seq<Group>): Bytes {
    if groups == [] then [] else RenderGroup(groups[0]) + RenderGroups(groups[1..])
  }

  function CanonicalHeaders(headers: seq<Header>): Bytes { HeaderTag() + RenderGroups(Grouped(headers)) }

  predicate SizedGroup(g: Group) { Sized(g.name) && |g.values| <= U64_MAX && AllSized(g.values) }

  predicate SizedGroups(groups: seq<Group>) { forall i :: 0 <= i < |groups| ==> SizedGroup(groups[i]) }

  lemma ValuesCancel(a: seq<Bytes>, b: seq<Bytes>, x: Bytes, y: Bytes)
    requires |a| <= U64_MAX && |b| <= U64_MAX && AllSized(a) && AllSized(b) && RenderValues(a) + x == RenderValues(b) + y
    ensures a == b && x == y
  {
    Regroup(Be64(|a|), Frames(a), x);
    Regroup(Be64(|b|), Frames(b), y);
    Be64Cancels(|a|, |b|, Frames(a) + x, Frames(b) + y);
    FramesCancel(a, b, x, y);
  }

  lemma GroupCancels(a: Group, b: Group, x: Bytes, y: Bytes)
    requires SizedGroup(a) && SizedGroup(b) && RenderGroup(a) + x == RenderGroup(b) + y
    ensures a == b && x == y
  {
    Regroup(Frame(a.name), RenderValues(a.values), x);
    Regroup(Frame(b.name), RenderValues(b.values), y);
    FrameCancels(a.name, b.name, RenderValues(a.values) + x, RenderValues(b.values) + y);
    ValuesCancel(a.values, b.values, x, y);
  }

  lemma {:induction false} RenderInjective(a: seq<Group>, b: seq<Group>)
    requires SizedGroups(a) && SizedGroups(b) && RenderGroups(a) == RenderGroups(b)
    ensures a == b
  {
    if a != [] && b != [] {
      GroupCancels(a[0], b[0], RenderGroups(a[1..]), RenderGroups(b[1..]));
      RenderInjective(a[1..], b[1..]);
      assert a == [a[0]] + a[1..] && b == [b[0]] + b[1..];
    }
  }

  /**
   * The header bytes agree exactly when every header name outside the per-part ones has the same values in the same
   * order: reordering different names or changing the case of a name is invisible, anything else shows.
   */
  lemma HeaderBytesExact(a: seq<Header>, b: seq<Header>)
    requires SizedGroups(Grouped(a)) && SizedGroups(Grouped(b))
    ensures CanonicalHeaders(a) == CanonicalHeaders(b) <==> SameValues(a, b)
  {
    GroupedExact(a, b);
    if CanonicalHeaders(a) == CanonicalHeaders(b) {
      var n := |HeaderTag()|;
      assert CanonicalHeaders(a)[n..] == RenderGroups(Grouped(a)) && CanonicalHeaders(b)[n..] == RenderGroups(Grouped(b));
      RenderInjective(Grouped(a), Grouped(b));
    }
  }

  /** Equal grouped maps are equal value lists for every name. */
  lemma GroupedExact(a: seq<Header>, b: seq<Header>)
    ensures Grouped(a) == Grouped(b) <==> SameValues(a, b)
  {
    forall name ensures Lookup(Grouped(a), name) == ValuesOf(a, name) && Lookup(Grouped(b), name) == ValuesOf(b, name) {
      GroupAllIs(Kept(a), name);
      GroupAllIs(Kept(b), name);
    }
    GroupAllIs(Kept(a), []);
    GroupAllIs(Kept(b), []);
    if Grouped(a) == Grouped(b) {
      forall name ensures ValuesOf(a, name) == ValuesOf(b, name) { GroupAllIs(Kept(a), name); GroupAllIs(Kept(b), name); }
    }
    if SameValues(a, b) {
      forall name ensures Lookup(Grouped(a), name) == Lookup(Grouped(b), name) { assert ValuesOf(a, name) == ValuesOf(b, name); }
      MapExtensional(Grouped(a), Grouped(b));
    }
  }

  method GroupHeaders(headers: seq<Header>) returns (groups: seq<Group>)
    ensures groups == Grouped(headers)
  {
    groups := [];
    var i := 0;
    while i < |headers|
      invariant 0 <= i <= |headers| && groups == Grouped(headers[..i])
    {
      assert headers[..i + 1][..i] == headers[..i];
      ghost var kept := Kept(headers[..i]);
      assert (kept + [headers[i]])[..|kept|] == kept;
      if !PerPart(Lower(headers[i].0)) { groups := Add(groups, Lower(headers[i].0), headers[i].1); }
      i := i + 1;
    }
    assert headers[..i] == headers;
  }

  method AppendGroup(output: Bytes, g: Group) returns (r: Bytes)
    ensures r == output + RenderGroup(g)
  {
    r := output + Frame(g.name);
    r := r + Be64(|g.values|);
    var k := 0;
    while k < |g.values|
      invariant 0 <= k <= |g.values| && r + Frames(g.values[k..]) == output + RenderGroup(g)
    {
      assert g.values[k..][1..] == g.values[k + 1..];
      Regroup(r, Frame(g.values[k]), Frames(g.values[k + 1..]));
      r := r + Frame(g.values[k]);
      k := k + 1;
    }
  }

  /** `canonical_resume_headers`: fill the map, then append frame by frame. */
  method CanonicalResumeHeaders(headers: seq<Header>) returns (output: Bytes)
    ensures output == CanonicalHeaders(headers)
  {
    var groups := GroupHeaders(headers);
    output := HeaderTag();
    var i := 0;
    while i < |groups|
      invariant 0 <= i <= |groups| && output + RenderGroups(groups[i..]) == HeaderTag() + RenderGroups(groups)
    {
      assert groups[i..][1..] == groups[i + 1..];
      Regroup(output, RenderGroup(groups[i]), RenderGroups(groups[i + 1..]));
      output := AppendGroup(output, groups[i]);
      i := i + 1;
    }
  }
}
