/** The identity under which a partial download may be resumed, and which URL changes it ignores. */
module DownloadIdentity {
  import opened Sorting
  import opened ByteStrings
  import opened IdentityFraming

  type Pair = (Bytes, Bytes)

  /** The pre-image of the identity digest. */
  function IdentityTag(): Bytes { Ascii("rusty-cat/download-identity/v2") + [0] }

  function PairFrames(pairs: seq<Pair>): Bytes {
    if pairs == [] then [] else Frame(pairs[0].0) + (Frame(pairs[0].1) + PairFrames(pairs[1..]))
  }

  function Preimage(resource: Bytes, validator: Bytes, context: Bytes, auth: seq<Pair>): Bytes {
    IdentityTag() + (Frame(resource) + (Frame(validator) + (Frame(context) + PairFrames(Sort(auth, PairLe)))))
  }

  predicate SizedPairs(pairs: seq<Pair>) { forall i :: 0 <= i < |pairs| ==> Sized(pairs[i].0) && Sized(pairs[i].1) }

  lemma {:induction false} PairFramesInjective(a: seq<Pair>, b: seq<Pair>)
    requires SizedPairs(a) && SizedPairs(b) && PairFrames(a) == PairFrames(b)
    ensures a == b
  {
    if a != [] && b != [] {
      FrameCancels(a[0].0, b[0].0, Frame(a[0].1) + PairFrames(a[1..]), Frame(b[0].1) + PairFrames(b[1..]));
      FrameCancels(a[0].1, b[0].1, PairFrames(a[1..]), PairFrames(b[1..]));
      PairFramesInjective(a[1..], b[1..]);
      assert a == [a[0]] + a[1..] && b == [b[0]] + b[1..];
    }
  }

  lemma SortedPairsSized(pairs: seq<Pair>)
    requires SizedPairs(pairs)
    ensures SizedPairs(Sort(pairs, PairLe))
  {
    var sorted := Sort(pairs, PairLe);
    SortContents(pairs, PairLe);
    forall i | 0 <= i < |sorted| ensures Sized(sorted[i].0) && Sized(sorted[i].1) { MemberByContents(sorted, pairs, sorted[i]); }
  }

  /** Equal pre-images mean equal inputs, up to the order in which the authorisation context was collected. */
  lemma PreimageExact(r1: Bytes, v1: Bytes, c1: Bytes, a1: seq<Pair>, r2: Bytes, v2: Bytes, c2: Bytes, a2: seq<Pair>)
    requires Sized(r1) && Sized(v1) && Sized(c1) && SizedPairs(a1) && Sized(r2) && Sized(v2) && Sized(c2) && SizedPairs(a2)
    ensures Preimage(r1, v1, c1, a1) == Preimage(r2, v2, c2, a2) <==>
      r1 == r2 && v1 == v2 && c1 == c2 && multiset(a1) == multiset(a2)
  {
    PairOrder();
    SortByContents(a1, a2, PairLe);
    var x3, y3 := PairFrames(Sort(a1, PairLe)), PairFrames(Sort(a2, PairLe));
    var x2, y2 := Frame(c1) + x3, Frame(c2) + y3;
    var x1, y1 := Frame(v1) + x2, Frame(v2) + y2;
    if Preimage(r1, v1, c1, a1) == Preimage(r2, v2, c2, a2) {
      SameTail(IdentityTag(), Frame(r1) + x1, Frame(r2) + y1);
      FrameCancels(r1, r2, x1, y1);
      FrameCancels(v1, v2, x2, y2);
      FrameCancels(c1, c2, x3, y3);
      SortedPairsSized(a1);
      SortedPairsSized(a2);
      PairFramesInjective(Sort(a1, PairLe), Sort(a2, PairLe));
    }
  }

  lemma SameTail(tag: Bytes, x: Bytes, y: Bytes)
    requires tag + x == tag + y
    ensures x == y
  {
    assert (tag + x)[|tag|..] == x && (tag + y)[|tag|..] == y;
  }

  /** The hasher updates at the end of `download_identity`. */
  method FeedIdentity(resource: Bytes, validator: Bytes, context: Bytes, auth: seq<Pair>) returns (fed: Bytes)
    ensures fed == Preimage(resource, validator, context, auth)
  {
    var sorted := Sort(auth, PairLe);
    fed := IdentityTag();
    var fields, i := [resource, validator, context], 0;
    ghost var head := IdentityTag();
    while i < |fields|
      invariant 0 <= i <= 3 && fed == head + Frames(fields[..i])
    {
      assert fields[..i + 1] == fields[..i] + [fields[i]];
      FramesConcat(fields[..i], [fields[i]]);
      Regroup(head, Frames(fields[..i]), Frame(fields[i]));
      fed := fed + Frame(fields[i]);
      i := i + 1;
    }
    assert fields[..i] == fields;
    ghost var front := fed;
    i := 0;
    while i < |sorted|
      invariant 0 <= i <= |sorted| && fed + PairFrames(sorted[i..]) == front + PairFrames(sorted)
    {
      assert sorted[i..][1..] == sorted[i + 1..];
      PairStep(fed, sorted[i], PairFrames(sorted[i + 1..]));
      fed := fed + Frame(sorted[i].0);
      fed := fed + Frame(sorted[i].1);
      i := i + 1;
    }
    FieldsInOrder(head, resource, validator, context, PairFrames(sorted));
  }

  lemma PairStep(fed: Bytes, p: Pair, rest: Bytes)
    ensures fed + (Frame(p.0) + (Frame(p.1) + rest)) == fed + Frame(p.0) + Frame(p.1) + rest
  {}

  lemma FieldsInOrder(head: Bytes, r: Bytes, v: Bytes, c: Bytes, rest: Bytes)
    ensures head + Frames([r, v, c]) + rest == head + (Frame(r) + (Frame(v) + (Frame(c) + rest)))
  {
    var x, y, z := Frame(r), Frame(v), Frame(c);
    FramesConcat([r], [v, c]);
    FramesConcat([v], [c]);
    assert [r] + [v, c] == [r, v, c] && [v] + [c] == [v, c];
    assert Frames([r]) == x && Frames([v]) == y && Frames([c]) == z;
    assert head + (x + (y + z)) + rest == head + (x + (y + (z + rest)));
  }
}
