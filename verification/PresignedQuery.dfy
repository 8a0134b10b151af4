/** How `download_identity` reads a presigned URL: signatures and dates fall out, the resource and the principal stay. */
module PresignedQuery {
  import opened Results
  import opened Sorting
  import opened ByteStrings
  import opened IdentityFraming
  import opened DownloadIdentity

  /**
   * The URL library's form decoding of one non-empty segment and its rendering of a URL from decoded pairs, and which
   * lower-case keys belong to the signature (given all keys that occur) or name the principal.
   */
  datatype Policy = Policy(
    decode: Bytes -> Pair, render: (Bytes, seq<Pair>) -> Bytes,
    isAuth: (set<Bytes>, Bytes) -> bool, isPrincipal: Bytes -> bool)

  datatype Password = Absent | Present(text: Bytes)

  /** `base` is the URL without userinfo, query and fragment; `segments` is the raw query split at '&'. */
  datatype Url = Url(user: Bytes, password: Password, base: Bytes, segments: seq<Bytes>)

  // ---------------------------------------------------------------- reading the query

  function KeyOf(c: Policy, segment: Bytes): Bytes { Lower(c.decode(segment).0) }

  function FlatMap<T>(f: Bytes -> seq<T>, segments: seq<Bytes>): seq<T> {
    if segments == [] then [] else f(segments[0]) + FlatMap(f, segments[1..])
  }

  /** The URL library decodes no pair from an empty segment. */
  function KeyPick(c: Policy): Bytes -> seq<Bytes> { x => if x == [] then [] else [KeyOf(c, x)] }

  function PrincipalPick(c: Policy): Bytes -> seq<Pair> {
    x => if x != [] && c.isPrincipal(KeyOf(c, x)) then [(Ascii("query:") + KeyOf(c, x), c.decode(x).1)] else []
  }

  function SemanticPick(c: Policy, keys: set<Bytes>): Bytes -> seq<Bytes> { x => if c.isAuth(keys, KeyOf(c, x)) then [] else [x] }

  function Keys(c: Policy, segments: seq<Bytes>): set<Bytes> { set k | k in FlatMap(KeyPick(c), segments) }

  function Principals(c: Policy, segments: seq<Bytes>): seq<Pair> { FlatMap(PrincipalPick(c), segments) }

  /** The raw segments that describe the resource. */
  function Semantic(c: Policy, keys: set<Bytes>, segments: seq<Bytes>): seq<Bytes> { FlatMap(SemanticPick(c, keys), segments) }

  function Decoded(c: Policy, segments: seq<Bytes>): (r: seq<Pair>)
    ensures |r| == |segments|
  {
    seq(|segments|, i requires 0 <= i < |segments| => c.decode(segments[i]))
  }

  predicate HasEmpty(segments: seq<Bytes>) { exists i :: 0 <= i < |segments| && segments[i] == [] }

  function Joined(segments: seq<Bytes>): Bytes {
    if segments == [] then [] else if |segments| == 1 then segments[0] else segments[0] + [38] + Joined(segments[1..])
  }

  /** A spelling that form decoding would not keep: no '=', or a '+' or '%'. */
  predicate Ambiguous(segment: Bytes) { 61 !in segment || 43 in segment || 37 in segment }

  predicate AnyAmbiguous(segments: seq<Bytes>) { exists i :: 0 <= i < |segments| && Ambiguous(segments[i]) }

  function RawTag(): Bytes { Ascii("rusty-cat/raw-semantic-query/v1") + [0] }

  function RawResource(base: Bytes, segments: seq<Bytes>): Bytes { RawTag() + (Frame(base) + RenderValues(segments)) }

  function Resource(c: Policy, url: Url): Bytes {
    if HasEmpty(url.segments) then RawResource(url.base, [Joined(url.segments)])
    else
      var semantic := Semantic(c, Keys(c, url.segments), url.segments);
      if AnyAmbiguous(semantic) then RawResource(url.base, semantic) else c.render(url.base, Decoded(c, semantic))
  }

  function UserContext(url: Url): seq<Pair> {
    if url.user != [] then [(Ascii("url-username"), url.user)]
    else if url.password.Present? then [(Ascii("url-password-without-username"), url.password.text)]
    else []
  }

  function UrlIdentity(c: Policy, url: Url, validator: Bytes, context: Bytes): Bytes {
    Preimage(Resource(c, url), validator, context, UserContext(url) + Principals(c, url.segments))
  }

  // ---------------------------------------------------------------- renewing a signature

  /** Exchanging two neighbours, or giving a pair another value while keeping its key up to case. */
  datatype Edit = Swap(at: nat) | Renew(at: nat, segment: Bytes)

  predicate AuthAt(c: Policy, segments: seq<Bytes>, i: nat) {
    i < |segments| && c.isAuth(Keys(c, segments), KeyOf(c, segments[i]))
  }

  /** Only pairs of a recognised signing scheme move, and only non-principal ones change. */
  predicate EditOk(c: Policy, segments: seq<Bytes>, e: Edit) {
    match e
    case Swap(i) => i + 1 < |segments| && (AuthAt(c, segments, i) || AuthAt(c, segments, i + 1))
    case Renew(i, segment) =>
      AuthAt(c, segments, i) && !c.isPrincipal(KeyOf(c, segments[i])) && segment != [] && KeyOf(c, segment) == KeyOf(c, segments[i])
  }

  function Edited(c: Policy, segments: seq<Bytes>, e: Edit): seq<Bytes>
    requires EditOk(c, segments, e)
  {
    match e
    case Swap(i) => segments[..i] + [segments[i + 1], segments[i]] + segments[i + 2..]
    case Renew(i, segment) => segments[..i] + [segment] + segments[i + 1..]
  }

  predicate ValidEdits(c: Policy, segments: seq<Bytes>, edits: seq<Edit>)
    decreases |edits|
  {
    edits == [] || (EditOk(c, segments, edits[0]) && ValidEdits(c, Edited(c, segments, edits[0]), edits[1..]))
  }

  function EditAll(c: Policy, segments: seq<Bytes>, edits: seq<Edit>): seq<Bytes>
    requires ValidEdits(c, segments, edits)
    decreases |edits|
  {
    if edits == [] then segments else EditAll(c, Edited(c, segments, edits[0]), edits[1..])
  }

  lemma {:induction false} FlatMapConcat<T>(f: Bytes -> seq<T>, a: seq<Bytes>, b: seq<Bytes>)
    ensures FlatMap(f, a + b) == FlatMap(f, a) + FlatMap(f, b)
  {
    if a == [] {
      assert a + b == b;
    } else {
      FlatMapConcat(f, a[1..], b);
      assert (a + b)[0] == a[0] && (a + b)[1..] == a[1..] + b;
      assert f(a[0]) + (FlatMap(f, a[1..]) + FlatMap(f, b)) == (f(a[0]) + FlatMap(f, a[1..])) + FlatMap(f, b);
    }
  }

  lemma FlatMapPair<T>(f: Bytes -> seq<T>, x: Bytes, y: Bytes)
    ensures FlatMap(f, [x]) == f(x) && FlatMap(f, [x, y]) == f(x) + f(y)
  {
    assert [x][1..] == [] && [x, y][1..] == [y] && [y][1..] == [];
  }

  lemma FlatMapAround<T>(f: Bytes -> seq<T>, a: seq<Bytes>, m: seq<Bytes>, b: seq<Bytes>)
    ensures FlatMap(f, a + m + b) == FlatMap(f, a) + FlatMap(f, m) + FlatMap(f, b)
  {
    FlatMapConcat(f, a + m, b);
    FlatMapConcat(f, a, m);
  }

  lemma SwapContents<T>(a: seq<T>, p: seq<T>, q: seq<T>, b: seq<T>)
    ensures multiset(a + (p + q) + b) == multiset(a + (q + p) + b)
    ensures p == [] || q == [] ==> p + q == q + p
  {}

  /** Exchanging neighbours keeps the picked contents, and also their order if one of them picks nothing. */
  lemma FlatMapSwap<T>(f: Bytes -> seq<T>, a: seq<Bytes>, x: Bytes, y: Bytes, b: seq<Bytes>)
    ensures multiset(FlatMap(f, a + [x, y] + b)) == multiset(FlatMap(f, a + [y, x] + b))
    ensures f(x) == [] || f(y) == [] ==> FlatMap(f, a + [x, y] + b) == FlatMap(f, a + [y, x] + b)
  {
    FlatMapAround(f, a, [x, y], b);
    FlatMapAround(f, a, [y, x], b);
    FlatMapPair(f, x, y);
    FlatMapPair(f, y, x);
    SwapContents(FlatMap(f, a), f(x), f(y), FlatMap(f, b));
  }

  lemma FlatMapRenew<T>(f: Bytes -> seq<T>, a: seq<Bytes>, x: Bytes, y: Bytes, b: seq<Bytes>)
    requires f(x) == f(y)
    ensures FlatMap(f, a + [x] + b) == FlatMap(f, a + [y] + b)
  {
    FlatMapAround(f, a, [x], b);
    FlatMapAround(f, a, [y], b);
    FlatMapPair(f, x, y);
    FlatMapPair(f, y, x);
  }

  lemma SameKeys(c: Policy, a: seq<Bytes>, b: seq<Bytes>)
    requires multiset(FlatMap(KeyPick(c), a)) == multiset(FlatMap(KeyPick(c), b))
    ensures Keys(c, a) == Keys(c, b)
  {
    forall k ensures k in FlatMap(KeyPick(c), a) <==> k in FlatMap(KeyPick(c), b) {
      MemberByContents(FlatMap(KeyPick(c), a), FlatMap(KeyPick(c), b), k);
    }
  }

  /** What the identity reads from two queries is the same. */
  predicate ReadsAlike(c: Policy, a: seq<Bytes>, b: seq<Bytes>) {
    && HasEmpty(a) == HasEmpty(b) && Keys(c, a) == Keys(c, b)
    && Semantic(c, Keys(c, a), a) == Semantic(c, Keys(c, a), b)
    && multiset(Principals(c, a)) == multiset(Principals(c, b))
  }

  lemma SwapReadsAlike(c: Policy, a: seq<Bytes>, x: Bytes, y: Bytes, b: seq<Bytes>)
    requires !HasEmpty(a + [x, y] + b)
    requires var keys := Keys(c, a + [x, y] + b); SemanticPick(c, keys)(x) == [] || SemanticPick(c, keys)(y) == []
    ensures ReadsAlike(c, a + [x, y] + b, a + [y, x] + b) && !HasEmpty(a + [y, x] + b)
  {
    FlatMapSwap(KeyPick(c), a, x, y, b);
    SameKeys(c, a + [x, y] + b, a + [y, x] + b);
    FlatMapSwap(SemanticPick(c, Keys(c, a + [x, y] + b)), a, x, y, b);
    FlatMapSwap(PrincipalPick(c), a, x, y, b);
    NonEmptyParts(a, [x, y], [y, x], b);
  }

  lemma RenewReadsAlike(c: Policy, a: seq<Bytes>, x: Bytes, y: Bytes, b: seq<Bytes>)
    requires !HasEmpty(a + [x] + b) && y != []
    requires KeyPick(c)(x) == KeyPick(c)(y) && PrincipalPick(c)(x) == PrincipalPick(c)(y)
    requires var keys := Keys(c, a + [x] + b); SemanticPick(c, keys)(x) == SemanticPick(c, keys)(y)
    ensures ReadsAlike(c, a + [x] + b, a + [y] + b) && !HasEmpty(a + [y] + b)
  {
    FlatMapRenew(KeyPick(c), a, x, y, b);
    SameKeys(c, a + [x] + b, a + [y] + b);
    FlatMapRenew(SemanticPick(c, Keys(c, a + [x] + b)), a, x, y, b);
    FlatMapRenew(PrincipalPick(c), a, x, y, b);
    NonEmptyParts(a, [x], [y], b);
  }

  lemma NonEmptyParts(a: seq<Bytes>, x: seq<Bytes>, y: seq<Bytes>, b: seq<Bytes>)
    requires !HasEmpty(a + x + b) && forall i :: 0 <= i < |y| ==> y[i] != [] || y[i] in x
    ensures !HasEmpty(a + y + b)
  {
    var whole := a + x + b;
    assert forall i :: 0 <= i < |a| ==> whole[i] == a[i];
    assert forall i :: 0 <= i < |x| ==> whole[|a| + i] == x[i];
    assert forall i :: 0 <= i < |b| ==> whole[|a| + |x| + i] == b[i];
  }

  lemma EditReadsAlike(c: Policy, segments: seq<Bytes>, e: Edit)
    requires EditOk(c, segments, e) && !HasEmpty(segments)
    ensures ReadsAlike(c, segments, Edited(c, segments, e)) && !HasEmpty(Edited(c, segments, e))
  {
    var i := e.at;
    match e {
      case Swap(_) =>
        assert segments == segments[..i] + [segments[i], segments[i + 1]] + segments[i + 2..];
        SwapReadsAlike(c, segments[..i], segments[i], segments[i + 1], segments[i + 2..]);
      case Renew(_, y) =>
        assert segments == segments[..i] + [segments[i]] + segments[i + 1..];
        RenewReadsAlike(c, segments[..i], segments[i], y, segments[i + 1..]);
    }
  }

  lemma PreimageByContents(r: Bytes, v: Bytes, x: Bytes, a: seq<Pair>, b: seq<Pair>)
    requires multiset(a) == multiset(b)
    ensures Preimage(r, v, x, a) == Preimage(r, v, x, b)
  {
    PairOrder();
    SortByContents(a, b, PairLe);
  }

  lemma AlikeSameIdentity(c: Policy, u: Url, w: Url, validator: Bytes, context: Bytes)
    requires ReadsAlike(c, u.segments, w.segments) && !HasEmpty(u.segments)
    requires w == u.(segments := w.segments)
    ensures UrlIdentity(c, w, validator, context) == UrlIdentity(c, u, validator, context)
  {
    var a, b := UserContext(u) + Principals(c, u.segments), UserContext(w) + Principals(c, w.segments);
    assert multiset(a) == multiset(b);
    PreimageByContents(Resource(c, u), validator, context, a, b);
  }

  /**
   * A renewed presigned URL keeps its identity: any number of value changes of non-principal signing pairs and any
   * moves of signing pairs, in a query without empty segments.
   */
  lemma {:induction false} RenewalKeepsIdentity(c: Policy, url: Url, edits: seq<Edit>, validator: Bytes, context: Bytes)
    requires !HasEmpty(url.segments) && ValidEdits(c, url.segments, edits)
    ensures UrlIdentity(c, url.(segments := EditAll(c, url.segments, edits)), validator, context) == UrlIdentity(c, url, validator, context)
    decreases |edits|
  {
    if edits != [] {
      EditReadsAlike(c, url.segments, edits[0]);
      AlikeSameIdentity(c, url, url.(segments := Edited(c, url.segments, edits[0])), validator, context);
      RenewalKeepsIdentity(c, url.(segments := Edited(c, url.segments, edits[0])), edits[1..], validator, context);
    }
  }

  // ---------------------------------------------------------------- what the identity keeps apart

  predicate SizedRaw(base: Bytes, segments: seq<Bytes>) { Sized(base) && |segments| <= U64_MAX && AllSized(segments) }

  lemma RawResourceInjective(b1: Bytes, s1: seq<Bytes>, b2: Bytes, s2: seq<Bytes>)
    requires SizedRaw(b1, s1) && SizedRaw(b2, s2) && RawResource(b1, s1) == RawResource(b2, s2)
    ensures b1 == b2 && s1 == s2
  {
    SameTail(RawTag(), Frame(b1) + RenderValues(s1), Frame(b2) + RenderValues(s2));
    FrameCancels(b1, b2, RenderValues(s1), RenderValues(s2));
    assert RenderValues(s1) + [] == RenderValues(s1) && RenderValues(s2) + [] == RenderValues(s2);
    ValuesCancel(s1, s2, [], []);
  }

  /** What the kind of an authorisation pair begins with tells a user ('u') from a principal key ('q'). */
  predicate FirstIs(pairs: seq<Pair>, b: byte) { forall i :: 0 <= i < |pairs| ==> pairs[i].0 != [] && pairs[i].0[0] == b }

  lemma UserKinds(url: Url)
    ensures FirstIs(UserContext(url), 117)
  {
    assert Ascii("url-username")[0] == 117 && Ascii("url-password-without-username")[0] == 117;
  }

  lemma {:induction false} PrincipalKinds(c: Policy, segments: seq<Bytes>)
    ensures FirstIs(Principals(c, segments), 113)
  {
    if segments != [] {
      PrincipalKinds(c, segments[1..]);
      assert Ascii("query:")[0] == 113;
      var first := PrincipalPick(c)(segments[0]);
      assert FirstIs(first, 113);
      assert Principals(c, segments) == first + Principals(c, segments[1..]);
    }
  }

  lemma SplitByKind(a: seq<Pair>, p: seq<Pair>, b: seq<Pair>, q: seq<Pair>)
    requires FirstIs(a, 117) && FirstIs(b, 117) && FirstIs(p, 113) && FirstIs(q, 113) && multiset(a + p) == multiset(b + q)
    ensures multiset(a) == multiset(b) && multiset(p) == multiset(q)
  {
    forall x ensures multiset(a)[x] == multiset(b)[x] && multiset(p)[x] == multiset(q)[x] {
      Occurs(a, p, x);
      Occurs(b, q, x);
      assert multiset(a + p)[x] == multiset(b + q)[x];
    }
  }

  lemma Occurs(a: seq<Pair>, p: seq<Pair>, x: Pair)
    requires FirstIs(a, 117) && FirstIs(p, 113)
    ensures multiset(a)[x] == if x.0 != [] && x.0[0] == 113 then 0 else multiset(a + p)[x]
    ensures multiset(p)[x] == if x.0 != [] && x.0[0] == 113 then multiset(a + p)[x] else 0
  {
    assert multiset(a + p)[x] == multiset(a)[x] + multiset(p)[x];
    if x.0 != [] && x.0[0] == 113 {
      assert x !in a;
      assert x !in multiset(a);
    } else {
      assert x !in p;
      assert x !in multiset(p);
    }
  }

  lemma SameFew(a: seq<Pair>, b: seq<Pair>)
    requires |a| <= 1 && |b| <= 1 && multiset(a) == multiset(b)
    ensures a == b
  {
    assert |multiset(a)| == |a| && |multiset(b)| == |b|;
    if a != [] { assert a[0] in multiset(b); }
  }

  /** Whatever else two URLs share, equal identities mean the same resource, the same user context and the same principal
      pairs, each on its own. */
  lemma PrincipalsSeparate(c: Policy, u: Url, w: Url, validator: Bytes, context: Bytes)
    requires Sized(Resource(c, u)) && Sized(Resource(c, w)) && Sized(validator) && Sized(context)
    requires SizedPairs(UserContext(u) + Principals(c, u.segments)) && SizedPairs(UserContext(w) + Principals(c, w.segments))
    requires UrlIdentity(c, u, validator, context) == UrlIdentity(c, w, validator, context)
    ensures Resource(c, u) == Resource(c, w) && UserContext(u) == UserContext(w)
    ensures multiset(Principals(c, u.segments)) == multiset(Principals(c, w.segments))
  {
    PreimageExact(Resource(c, u), validator, context, UserContext(u) + Principals(c, u.segments),
                  Resource(c, w), validator, context, UserContext(w) + Principals(c, w.segments));
    UserKinds(u);
    UserKinds(w);
    PrincipalKinds(c, u.segments);
    PrincipalKinds(c, w.segments);
    SplitByKind(UserContext(u), Principals(c, u.segments), UserContext(w), Principals(c, w.segments));
    SameFew(UserContext(u), UserContext(w));
  }

  /** With an empty segment the whole raw query counts: two such URLs share an identity only if it is the same. */
  lemma EmptySegmentBindsWholeQuery(c: Policy, u: Url, w: Url, validator: Bytes, context: Bytes)
    requires HasEmpty(u.segments) && HasEmpty(w.segments)
    requires SizedRaw(u.base, [Joined(u.segments)]) && SizedRaw(w.base, [Joined(w.segments)])
    requires Sized(Resource(c, u)) && Sized(Resource(c, w)) && Sized(validator) && Sized(context)
    requires SizedPairs(UserContext(u) + Principals(c, u.segments)) && SizedPairs(UserContext(w) + Principals(c, w.segments))
    requires UrlIdentity(c, u, validator, context) == UrlIdentity(c, w, validator, context)
    ensures u.base == w.base && Joined(u.segments) == Joined(w.segments)
  {
    PrincipalsSeparate(c, u, w, validator, context);
    RawResourceInjective(u.base, [Joined(u.segments)], w.base, [Joined(w.segments)]);
  }

  // ---------------------------------------------------------------- signing schemes

  datatype Schemes = Schemes(aws: bool, google: bool, oss: bool, legacy: bool, azure: bool)

  /** Which schemes are recognised depends only on the lower-case keys that occur. */
  function SchemesOf(keys: set<Bytes>): Schemes {
    Schemes(
      Ascii("x-amz-signature") in keys,
      Ascii("x-goog-signature") in keys,
      Ascii("x-oss-signature") in keys,
      Ascii("signature") in keys &&
        (Ascii("awsaccesskeyid") in keys || Ascii("ossaccesskeyid") in keys || Ascii("googleaccessid") in keys),
      Ascii("sig") in keys && (Ascii("sv") in keys || Ascii("se") in keys || Ascii("sp") in keys || Ascii("sr") in keys))
  }

  predicate Among(key: Bytes, names: seq<string>) { exists i :: 0 <= i < |names| && Ascii(names[i]) == key }

  function AwsKeys(): seq<string> {
    ["x-amz-algorithm", "x-amz-credential", "x-amz-date", "x-amz-expires", "x-amz-signedheaders", "x-amz-signature",
     "x-amz-security-token", "x-amz-region-set"]
  }

  function GoogleKeys(): seq<string> {
    ["x-goog-algorithm", "x-goog-credential", "x-goog-date", "x-goog-expires", "x-goog-signedheaders", "x-goog-signature"]
  }

  function OssKeys(): seq<string> {
    ["x-oss-signature-version", "x-oss-credential", "x-oss-date", "x-oss-expires", "x-oss-additional-headers",
     "x-oss-signature", "x-oss-security-token"]
  }

  function LegacyKeys(): seq<string> { ["signature", "awsaccesskeyid", "ossaccesskeyid", "googleaccessid", "expires"] }

  function AzureKeys(): seq<string> {
    ["sig", "sv", "ss", "srt", "sp", "se", "st", "spr", "sip", "si", "skoid", "sktid", "skt", "ske", "sks", "skv", "sr"]
  }

  function PrincipalKeys(): seq<string> {
    ["x-amz-credential", "x-goog-credential", "x-oss-credential", "awsaccesskeyid", "ossaccesskeyid", "googleaccessid",
     "skoid", "sktid", "si"]
  }

  /** `key` is in lower case. */
  predicate IsAuth(s: Schemes, key: Bytes) {
    || (s.aws && Among(key, AwsKeys()))
    || (s.google && Among(key, GoogleKeys()))
    || (s.oss && Among(key, OssKeys()))
    || (s.legacy && Among(key, LegacyKeys()))
    || (s.azure && Among(key, AzureKeys()))
  }

  predicate IsPrincipal(key: Bytes) { Among(key, PrincipalKeys()) }

  /** Every principal key belongs to a signing scheme, so under its scheme it is bound as the principal only. */
  lemma PrincipalsAreSigned(key: Bytes)
    requires IsPrincipal(key)
    ensures IsAuth(Schemes(true, true, true, true, true), key)
  {
    var i :| 0 <= i < |PrincipalKeys()| && Ascii(PrincipalKeys()[i]) == key;
    assert PrincipalKeys()[0] == AwsKeys()[1] && PrincipalKeys()[1] == GoogleKeys()[1] && PrincipalKeys()[2] == OssKeys()[1];
    assert PrincipalKeys()[3] == LegacyKeys()[1] && PrincipalKeys()[4] == LegacyKeys()[2] && PrincipalKeys()[5] == LegacyKeys()[3];
    assert PrincipalKeys()[6] == AzureKeys()[10] && PrincipalKeys()[7] == AzureKeys()[11] && PrincipalKeys()[8] == AzureKeys()[9];
  }

  /** The policy of `download_identity`. */
  function Presigned(decode: Bytes -> Pair, render: (Bytes, seq<Pair>) -> Bytes): Policy {
    Policy(decode, render, (keys, key) => IsAuth(SchemesOf(keys), key), key => IsPrincipal(key))
  }

  /** The renewal theorem for the recognised signing schemes. */
  lemma PresignedRenewalKeepsIdentity(decode: Bytes -> Pair, render: (Bytes, seq<Pair>) -> Bytes, url: Url, edits: seq<Edit>,
                                      validator: Bytes, context: Bytes)
    requires !HasEmpty(url.segments) && ValidEdits(Presigned(decode, render), url.segments, edits)
    ensures
      var c := Presigned(decode, render);
      UrlIdentity(c, url.(segments := EditAll(c, url.segments, edits)), validator, context) == UrlIdentity(c, url, validator, context)
  {
    RenewalKeepsIdentity(Presigned(decode, render), url, edits, validator, context);
  }
}
