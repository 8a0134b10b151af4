/** Azure block ids: the eight-digit decimal index in base64 (section 4 of RFC 4648), and the strict inverse. */
module AzureBlockId {
  import opened Results
  import opened ByteStrings

  // ---------------------------------------------------------------- base64

  /** The symbol of a six-bit value: A-Z, a-z, 0-9, '+', '/'. */
  function Symbol(v: nat): byte
    requires v < 64
  {
    if v < 26 then 65 + v else if v < 52 then 71 + v else if v < 62 then v - 4 else if v == 62 then 43 else 47
  }

  /** The value of a symbol, or 64 for any other byte. */
  function Value(c: byte): (v: nat)
    ensures v <= 64
  {
    if 65 <= c <= 90 then c - 65 else if 97 <= c <= 122 then c - 71 else if 48 <= c <= 57 then c + 4
    else if c == 43 then 62 else if c == 47 then 63 else 64
  }

  const PAD: byte := 61

  lemma SymbolRoundTrip(v: nat, c: byte)
    ensures v < 64 ==> Value(Symbol(v)) == v && Symbol(v) != PAD
    ensures Value(c) < 64 ==> Symbol(Value(c)) == c
    ensures Value(PAD) == 64
  {}

  datatype Sextets = Sextets(a: nat, b: nat, c: nat, d: nat)

  predicate Fits(g: Sextets) { g.a < 64 && g.b < 64 && g.c < 64 && g.d < 64 }

  function Split(x: byte, y: byte, z: byte): (g: Sextets)
    ensures Fits(g)
  {
    Sextets(x / 4, x % 4 * 16 + y / 16, y % 16 * 4 + z / 64, z % 64)
  }

  function Joined(g: Sextets): (r: (byte, byte, byte))
    requires Fits(g)
  {
    (g.a * 4 + g.b / 16, g.b % 16 * 16 + g.c / 4, g.c % 4 * 64 + g.d)
  }

  lemma Halves(h: nat, l: nat)
    ensures l < 16 ==> (h * 16 + l) / 16 == h && (h * 16 + l) % 16 == l
    ensures l < 4 ==> (h * 4 + l) / 4 == h && (h * 4 + l) % 4 == l
  {}

  lemma SplitJoined(x: byte, y: byte, z: byte)
    ensures Joined(Split(x, y, z)) == (x, y, z)
  {
    Halves(x % 4, y / 16);
    Halves(y % 16, z / 64);
  }

  lemma SplitShort(x: byte, y: byte)
    ensures Split(x, 0, 0).b % 16 == 0 && Split(x, 0, 0).c == 0 && Split(x, 0, 0).d == 0
    ensures Split(x, y, 0).c % 4 == 0 && Split(x, y, 0).d == 0
  {
    Halves(x % 4, 0);
    Halves(y % 16, 0);
  }

  lemma JoinedSplit(g: Sextets)
    requires Fits(g)
    ensures var r := Joined(g); Split(r.0, r.1, r.2) == g
    ensures g.b % 16 == 0 && g.c == 0 && g.d == 0 ==> Joined(g).1 == 0 && Joined(g).2 == 0
    ensures g.c % 4 == 0 && g.d == 0 ==> Joined(g).2 == 0
  {}

  function Symbols(g: Sextets): (s: Bytes)
    requires Fits(g)
    ensures |s| == 4
  {
    [Symbol(g.a), Symbol(g.b), Symbol(g.c), Symbol(g.d)]
  }

  /** Three bytes become four symbols; one or two left over are padded. */
  function Encode(b: Bytes): Bytes {
    if b == [] then []
    else if |b| == 1 then Symbols(Split(b[0], 0, 0))[..2] + [PAD, PAD]
    else if |b| == 2 then Symbols(Split(b[0], b[1], 0))[..3] + [PAD]
    else Symbols(Split(b[0], b[1], b[2])) + Encode(b[3..])
  }

  /** The last group, when it is padded: no stray bits may hide under the padding. */
  function DecodePadded(s: Bytes): Result<Bytes>
    requires |s| == 4 && s[3] == PAD
  {
    var g := Sextets(Value(s[0]), Value(s[1]), if s[2] == PAD then 0 else Value(s[2]), 0);
    if !Fits(g) then Err
    else if s[2] == PAD then (if g.b % 16 == 0 then Ok([Joined(g).0]) else Err)
    else if g.c % 4 == 0 then Ok([Joined(g).0, Joined(g).1]) else Err
  }

  /** Strict decoding: whole groups, padding only in the last one. */
  function Decode(s: Bytes): Result<Bytes> {
    if s == [] then Ok([])
    else if |s| < 4 then Err
    else if |s| == 4 && s[3] == PAD then DecodePadded(s)
    else
      var g := Sextets(Value(s[0]), Value(s[1]), Value(s[2]), Value(s[3]));
      var rest := Decode(s[4..]);
      if !Fits(g) || rest.Err? then Err else Ok([Joined(g).0, Joined(g).1, Joined(g).2] + rest.value)
  }

  lemma GroupRoundTrip(g: Sextets)
    requires Fits(g)
    ensures var s := Symbols(g);
      Sextets(Value(s[0]), Value(s[1]), Value(s[2]), Value(s[3])) == g && s[0] != PAD && s[1] != PAD && s[2] != PAD && s[3] != PAD
  {
    SymbolRoundTrip(g.a, 0);
    SymbolRoundTrip(g.b, 0);
    SymbolRoundTrip(g.c, 0);
    SymbolRoundTrip(g.d, 0);
  }

  lemma DecodeEncodeOne(x: byte)
    ensures Decode(Encode([x])) == Ok([x])
  {
    var g := Split(x, 0, 0);
    GroupRoundTrip(g);
    SplitJoined(x, 0, 0);
    SplitShort(x, 0);
    assert Encode([x]) == [Symbol(g.a), Symbol(g.b), PAD, PAD];
  }

  lemma DecodeEncodeTwo(x: byte, y: byte)
    ensures Decode(Encode([x, y])) == Ok([x, y])
  {
    var g := Split(x, y, 0);
    GroupRoundTrip(g);
    SplitJoined(x, y, 0);
    SplitShort(x, y);
    assert Encode([x, y]) == [Symbol(g.a), Symbol(g.b), Symbol(g.c), PAD];
  }

  lemma {:induction false} DecodeEncode(b: Bytes)
    ensures Decode(Encode(b)) == Ok(b)
  {
    if |b| == 1 {
      DecodeEncodeOne(b[0]);
      assert b == [b[0]];
    } else if |b| == 2 {
      DecodeEncodeTwo(b[0], b[1]);
      assert b == [b[0], b[1]];
    } else if |b| >= 3 {
      DecodeEncode(b[3..]);
      GroupRoundTrip(Split(b[0], b[1], b[2]));
      SplitJoined(b[0], b[1], b[2]);
      assert Encode(b)[4..] == Encode(b[3..]);
      assert b == [b[0], b[1], b[2]] + b[3..];
    }
  }

  lemma EncodeDecodePadded(s: Bytes)
    requires |s| == 4 && s[3] == PAD && DecodePadded(s).Ok?
    ensures Encode(DecodePadded(s).value) == s
  {
    var g := Sextets(Value(s[0]), Value(s[1]), if s[2] == PAD then 0 else Value(s[2]), 0);
    JoinedSplit(g);
    SymbolRoundTrip(0, s[0]);
    SymbolRoundTrip(0, s[1]);
    SymbolRoundTrip(0, s[2]);
  }

  /** Whatever decodes was the canonical encoding already. */
  lemma {:induction false} EncodeDecode(s: Bytes)
    requires Decode(s).Ok?
    ensures Encode(Decode(s).value) == s
  {
    if |s| == 4 && s[3] == PAD {
      EncodeDecodePadded(s);
    } else if s != [] {
      EncodeDecode(s[4..]);
      var g := Sextets(Value(s[0]), Value(s[1]), Value(s[2]), Value(s[3]));
      var b := Decode(s).value;
      JoinedSplit(g);
      SymbolRoundTrip(0, s[0]);
      SymbolRoundTrip(0, s[1]);
      SymbolRoundTrip(0, s[2]);
      SymbolRoundTrip(0, s[3]);
      assert b[3..] == Decode(s[4..]).value;
      assert s == [s[0], s[1], s[2], s[3]] + s[4..];
    }
  }

  // ---------------------------------------------------------------- decimal

  function Pow10(w: nat): nat { if w == 0 then 1 else 10 * Pow10(w - 1) }

  function Decimal(i: nat): (s: Bytes)
    ensures |s| >= 1
  {
    if i < 10 then [48 + i] else Decimal(i / 10) + [48 + i % 10]
  }

  function Zeros(n: nat): (s: Bytes)
    ensures |s| == n
  {
    if n == 0 then [] else Zeros(n - 1) + [48]
  }

  /** The format `{i:08}`: at least eight digits, padded with zeros. */
  function Padded(i: nat): Bytes {
    var s := Decimal(i);
    if |s| >= 8 then s else Zeros(8 - |s|) + s
  }

  predicate AllDigits(s: Bytes) { forall k :: 0 <= k < |s| ==> 48 <= s[k] <= 57 }

  function Number(s: Bytes): nat
    requires AllDigits(s)
  {
    if s == [] then 0 else 10 * Number(s[..|s| - 1]) + (s[|s| - 1] - 48)
  }

  lemma {:induction false} DecimalIs(i: nat, w: nat)
    ensures AllDigits(Decimal(i)) && Number(Decimal(i)) == i
    ensures w >= 1 ==> (|Decimal(i)| <= w <==> i < Pow10(w))
  {
    if i >= 10 {
      DecimalIs(i / 10, if w >= 1 then w - 1 else 0);
      assert Decimal(i)[..|Decimal(i)| - 1] == Decimal(i / 10);
    }
    if w == 1 { assert Pow10(1) == 10 * Pow10(0); }
    if w >= 1 { PowPositive(w - 1); }
  }

  lemma {:induction false} PowPositive(w: nat)
    ensures Pow10(w) >= 1
  {
    if w > 0 { PowPositive(w - 1); }
  }

  lemma {:induction false} LeadingZeros(n: nat, s: Bytes)
    requires AllDigits(s)
    ensures AllDigits(Zeros(n) + s) && Number(Zeros(n) + s) == Number(s)
  {
    if s != [] {
      LeadingZeros(n, s[..|s| - 1]);
      assert (Zeros(n) + s)[..|Zeros(n) + s| - 1] == Zeros(n) + s[..|s| - 1];
    } else if n > 0 {
      LeadingZeros(n - 1, []);
      assert Zeros(n)[..n - 1] == Zeros(n - 1);
      assert Zeros(n) + [] == Zeros(n) && Zeros(n - 1) + [] == Zeros(n - 1);
    }
  }

  lemma PaddedIs(i: nat)
    ensures AllDigits(Padded(i)) && Number(Padded(i)) == i
    ensures |Padded(i)| == 8 <==> i < Pow10(8)
  {
    DecimalIs(i, 8);
    if |Decimal(i)| < 8 { LeadingZeros(8 - |Decimal(i)|, Decimal(i)); }
  }

  lemma {:induction false} NumberBounded(s: Bytes)
    requires AllDigits(s)
    ensures Number(s) < Pow10(|s|)
  {
    if s != [] { NumberBounded(s[..|s| - 1]); }
  }

  /** Digit strings of one length are told apart by their value. */
  lemma {:induction false} NumberInjective(a: Bytes, b: Bytes)
    requires AllDigits(a) && AllDigits(b) && |a| == |b| && Number(a) == Number(b)
    ensures a == b
  {
    if a != [] {
      var n := |a| - 1;
      NumberInjective(a[..n], b[..n]);
      assert a == a[..n] + [a[n]] && b == b[..n] + [b[n]];
    }
  }

  // ---------------------------------------------------------------- block ids

  function BlockId(i: nat): Bytes { Encode(Padded(i)) }

  /** `parse_canonical_block_index`, check by check. */
  function ParseBlockIndex(encoded: Bytes): Result<nat> {
    var raw := Decode(encoded);
    if raw.Err? then Err
    else if Encode(raw.value) != encoded then Err
    else if |raw.value| != 8 || !AllDigits(raw.value) then Err
    else
      var i := Number(raw.value);
      if i > U64_MAX then Err else if Padded(i) != raw.value then Err else Ok(i)
  }

  const INDEX_LIMIT: nat := 100_000_000

  lemma PowIsLimit()
    ensures Pow10(8) == INDEX_LIMIT
  {
    assert Pow10(4) == 10_000;
    assert Pow10(6) == 1_000_000;
  }

  /** The index comes back exactly while it fits eight digits. */
  lemma BlockIdRoundTrip(i: nat)
    ensures ParseBlockIndex(BlockId(i)) == if i < INDEX_LIMIT then Ok(i) else Err
  {
    PowIsLimit();
    PaddedIs(i);
    DecodeEncode(Padded(i));
  }

  /** A name is accepted exactly when it is the id of some index, and it is the id of the returned one. */
  lemma ParseAcceptsExactlyIds(s: Bytes)
    ensures ParseBlockIndex(s).Ok? ==> ParseBlockIndex(s).value < INDEX_LIMIT && s == BlockId(ParseBlockIndex(s).value)
    ensures ParseBlockIndex(s).Ok? <==> exists i: nat :: i < INDEX_LIMIT && BlockId(i) == s
  {
    PowIsLimit();
    if ParseBlockIndex(s).Ok? {
      NumberBounded(Decode(s).value);
      assert BlockId(ParseBlockIndex(s).value) == s;
    }
    forall i: nat | i < INDEX_LIMIT && BlockId(i) == s ensures ParseBlockIndex(s) == Ok(i) { BlockIdRoundTrip(i); }
  }

  /** The canonical-form checks after the decode reject nothing more: eight decoded digits are enough. */
  lemma EightDigitsAreEnough(s: Bytes)
    ensures ParseBlockIndex(s).Ok? <==> Decode(s).Ok? && |Decode(s).value| == 8 && AllDigits(Decode(s).value)
  {
    PowIsLimit();
    if Decode(s).Ok? && |Decode(s).value| == 8 && AllDigits(Decode(s).value) {
      var raw := Decode(s).value;
      EncodeDecode(s);
      NumberBounded(raw);
      PaddedIs(Number(raw));
      NumberInjective(Padded(Number(raw)), raw);
    }
  }

  lemma BlockIdInjective(i: nat, j: nat)
    requires i < INDEX_LIMIT && j < INDEX_LIMIT && BlockId(i) == BlockId(j)
    ensures i == j
  {
    BlockIdRoundTrip(i);
    BlockIdRoundTrip(j);
  }
}
