/** Hashed upload snapshots: the block digest scan and the positioned reads that are checked against it. */
module UploadSnapshot {
  import opened Results
  import opened ByteStrings

  const HASH_BUFFER_BYTES: nat := 1024 * 1024
  const MAX_UPLOAD_DIGEST_BLOCKS: nat := 1_000_000

  // ---------------------------------------------------------------- positioned reads

  /**
   * What successive `read_at` calls meet. `Reads(limit, seen)` returns at most `limit + 1` bytes of the content
   * `seen` that the file has at that moment. Once the script is used up, reads are full reads of the file.
   */
  datatype ReadEvent = Reads(limit: nat, seen: Bytes) | Interrupted | Failed

  predicate Honest(script: seq<ReadEvent>, content: Bytes) {
    forall i :: 0 <= i < |script| && script[i].Reads? ==> script[i].seen == content
  }

  predicate Faultless(script: seq<ReadEvent>) { forall i :: 0 <= i < |script| ==> !script[i].Failed? }

  predicate Suffix(rest: seq<ReadEvent>, script: seq<ReadEvent>) {
    |rest| <= |script| && rest == script[|script| - |rest|..]
  }

  /** Byte `b` stood at `pos` in the file, or in what some read of the script met. */
  predicate Seen(script: seq<ReadEvent>, file: Bytes, pos: nat, b: byte) {
    || (pos < |file| && file[pos] == b)
    || exists i :: 0 <= i < |script| && script[i].Reads? && pos < |script[i].seen| && script[i].seen[pos] == b
  }

  /** Every byte was seen at its own position. */
  predicate AllSeen(script: seq<ReadEvent>, file: Bytes, offset: nat, bytes: Bytes) {
    forall k :: 0 <= k < |bytes| ==> Seen(script, file, offset + k, bytes[k])
  }

  lemma SeenInSuffix(rest: seq<ReadEvent>, script: seq<ReadEvent>, file: Bytes, offset: nat, bytes: Bytes)
    requires Suffix(rest, script) && AllSeen(rest, file, offset, bytes)
    ensures AllSeen(script, file, offset, bytes)
  {
    forall k | 0 <= k < |bytes| ensures Seen(script, file, offset + k, bytes[k]) {
      var pos := offset + k;
      assert Seen(rest, file, pos, bytes[k]);
      if !(pos < |file| && file[pos] == bytes[k]) {
        var i :| 0 <= i < |rest| && rest[i].Reads? && pos < |rest[i].seen| && rest[i].seen[pos] == bytes[k];
        assert script[|script| - |rest| + i] == rest[i];
      }
    }
  }

  lemma SeenConcat(script: seq<ReadEvent>, file: Bytes, offset: nat, a: Bytes, b: Bytes)
    requires AllSeen(script, file, offset, a) && AllSeen(script, file, offset + |a|, b)
    ensures AllSeen(script, file, offset, a + b)
  {
    forall k | 0 <= k < |a + b| ensures Seen(script, file, offset + k, (a + b)[k]) {
      if k >= |a| { assert Seen(script, file, offset + |a| + (k - |a|), b[k - |a|]); }
    }
  }

  lemma SuffixKeeps(rest: seq<ReadEvent>, script: seq<ReadEvent>, content: Bytes)
    requires Suffix(rest, script)
    ensures Honest(script, content) ==> Honest(rest, content)
    ensures Faultless(script) ==> Faultless(rest)
    ensures rest != [] ==> Suffix(rest[1..], script)
  {
    assert forall i :: 0 <= i < |rest| ==> rest[i] == script[|script| - |rest| + i];
  }

  function ReadAt(seen: Bytes, offset: nat, want: nat): (r: Bytes)
    ensures |r| <= want
    ensures r == [] <==> want == 0 || |seen| <= offset
    ensures r != [] ==> offset + |r| <= |seen| && r == seen[offset..offset + |r|]
  {
    if |seen| <= offset then [] else if offset + want <= |seen| then seen[offset..offset + want] else seen[offset..]
  }

  /** One `read_at`: `Ok([])` is the end of the file, `again` asks for a retry. */
  method ReadOnce(file: Bytes, script: seq<ReadEvent>, at: nat, want: nat) returns (r: Result<Bytes>, again: bool, rest: seq<ReadEvent>)
    requires want > 0
    ensures rest == if script == [] then [] else script[1..]
    ensures again ==> script != []
    ensures !again && r.Ok? ==> |r.value| <= want
    ensures !again && r.Ok? && Honest(script, file) ==>
      (r.value == [] <==> |file| <= at) && (r.value != [] ==> at + |r.value| <= |file| && r.value == file[at..at + |r.value|])
    ensures !again && r.Ok? ==> AllSeen(script, file, at, r.value)
    ensures !again && r.Err? ==> !Faultless(script)
  {
    again, rest := false, [];
    if script == [] { return Ok(ReadAt(file, at, want)), false, []; }
    rest := script[1..];
    match script[0]
    case Interrupted => return Err, true, rest;
    case Failed => return Err, false, rest;
    case Reads(limit, seen) => return Ok(ReadAt(seen, at, if limit + 1 < want then limit + 1 else want)), false, rest;
  }

  /** The buffer holds what the file holds from `offset` on. */
  predicate Filled(file: Bytes, offset: nat, buffer: Bytes) {
    buffer == [] || (offset + |buffer| <= |file| && buffer == file[offset..offset + |buffer|])
  }

  lemma FillMore(file: Bytes, offset: nat, buffer: Bytes, got: Bytes)
    requires Filled(file, offset, buffer) && Filled(file, offset + |buffer|, got)
    ensures Filled(file, offset, buffer + got)
  {
    if got == [] { assert buffer + got == buffer; }
  }

  method ReadExactAt(file: Bytes, script: seq<ReadEvent>, offset: nat, len: nat)
    returns (r: Result<Bytes>, rest: seq<ReadEvent>)
    requires |file| <= U64_MAX
    ensures Suffix(rest, script)
    ensures r.Ok? ==> |r.value| == len && AllSeen(script, file, offset, r.value)
    ensures Honest(script, file) && r.Ok? ==> Filled(file, offset, r.value)
    ensures Honest(script, file) && Faultless(script) ==> (r.Ok? <==> len == 0 || offset + len <= |file|)
  {
    var buffer: Bytes := [];
    rest := script;
    while |buffer| < len
      invariant |buffer| <= len && Suffix(rest, script) && AllSeen(script, file, offset, buffer)
      invariant Honest(script, file) ==> Filled(file, offset, buffer)
      decreases |rest|, len - |buffer|
    {
      if offset + |buffer| > U64_MAX { return Err, rest; }
      SuffixKeeps(rest, script, file);
      ghost var before := rest;
      var got, again;
      got, again, rest := ReadOnce(file, rest, offset + |buffer|, len - |buffer|);
      if again { continue; }
      if got.Err? || got.value == [] { return Err, rest; }
      SeenInSuffix(before, script, file, offset + |buffer|, got.value);
      SeenConcat(script, file, offset, buffer, got.value);
      if Honest(script, file) { FillMore(file, offset, buffer, got.value); }
      buffer := buffer + got.value;
    }
    r := Ok(buffer);
  }

  // ---------------------------------------------------------------- the digest scan

  function BlockStart(block: nat, i: nat): nat { i * block }

  function BlockEnd(len: nat, block: nat, i: nat): (e: nat)
    ensures e <= len
  {
    if (i + 1) * block <= len then (i + 1) * block else len
  }

  function BlockCount(len: nat, block: nat): nat
    requires block > 0
  {
    (len + block - 1) / block
  }

  /** The simple form: cut the content into blocks and digest each. */
  datatype Scan<D> = Scan(md5: D, sha: D, blocks: seq<D>)

  predicate BlockIs<D(==)>(sha: Bytes -> D, content: Bytes, block: nat, i: nat, d: D) {
    BlockStart(block, i) <= BlockEnd(|content|, block, i) && d == sha(content[BlockStart(block, i)..BlockEnd(|content|, block, i)])
  }

  predicate IsScan<D(==)>(scan: Scan<D>, md5: Bytes -> D, sha: Bytes -> D, content: Bytes, block: nat)
    requires block > 0
  {
    && scan.md5 == md5(content) && scan.sha == sha(content)
    && |scan.blocks| == BlockCount(|content|, block)
    && forall i :: 0 <= i < |scan.blocks| ==> BlockIs(sha, content, block, i, scan.blocks[i])
  }

  lemma CountIs(len: nat, block: nat, n: nat, filled: nat)
    requires block > 0 && filled < block && n * block + filled == len
    ensures BlockCount(len, block) == if filled == 0 then n else n + 1
  {
    var q := (len + block - 1) / block;
    var r := (len + block - 1) % block;
    assert q * block + r == n * block + filled + block - 1;
    if filled == 0 {
      Quotient(q, r, n, block - 1, block);
    } else {
      assert (n + 1) * block == n * block + block;
      Quotient(q, r, n + 1, filled - 1, block);
    }
  }

  lemma Quotient(q: nat, r: nat, n: nat, m: nat, block: nat)
    requires r < block && m < block && q * block + r == n * block + m
    ensures q == n
  {
    assert q < n ==> (q + 1) * block <= n * block;
    assert n < q ==> (n + 1) * block <= q * block;
  }

  /** Feeds one buffer to the block hasher: the inner loop. `hashed` is what the running block has consumed. */
  method FeedBlocks<D(==)>(sha: Bytes -> D, ghost content: Bytes, block: nat, buffer: Bytes, offset: nat, digests0: seq<D>, hashed0: Bytes)
    returns (digests: seq<D>, hashed: Bytes)
    requires 0 < block && offset + |buffer| <= |content| && buffer == content[offset..offset + |buffer|]
    requires InBlock(sha, content, block, offset, digests0, hashed0)
    ensures InBlock(sha, content, block, offset + |buffer|, digests, hashed)
  {
    digests, hashed := digests0, hashed0;
    var cursor := 0;
    while cursor < |buffer|
      invariant 0 <= cursor <= |buffer|
      invariant InBlock(sha, content, block, offset + cursor, digests, hashed)
    {
      var room := block - |hashed|;
      var take := if room < |buffer| - cursor then room else |buffer| - cursor;
      var bytes := buffer[cursor..cursor + take];
      SubSlice(content, buffer, offset, cursor, take);
      if |hashed| + take == block {
        FillsBlock(sha, content, block, offset + cursor, digests, hashed, bytes);
        digests := digests + [sha(hashed + bytes)];
        hashed := [];
      } else {
        StaysInBlock(sha, content, block, offset + cursor, digests, hashed, bytes);
        hashed := hashed + bytes;
      }
      cursor := cursor + take;
    }
  }

  lemma SubSlice(content: Bytes, buffer: Bytes, offset: nat, cursor: nat, take: nat)
    requires cursor + take <= |buffer| && offset + |buffer| <= |content| && buffer == content[offset..offset + |buffer|]
    ensures buffer[cursor..cursor + take] == content[offset + cursor..offset + cursor + take]
  {
    assert forall k :: cursor <= k < cursor + take ==> buffer[k] == content[offset + k];
  }

  lemma StaysInBlock<D>(sha: Bytes -> D, content: Bytes, block: nat, pos: nat, digests: seq<D>, hashed: Bytes, bytes: Bytes)
    requires InBlock(sha, content, block, pos, digests, hashed) && |hashed| + |bytes| < block
    requires pos + |bytes| <= |content| && bytes == content[pos..pos + |bytes|]
    ensures InBlock(sha, content, block, pos + |bytes|, digests, hashed + bytes)
  {}

  lemma FillsBlock<D>(sha: Bytes -> D, content: Bytes, block: nat, pos: nat, digests: seq<D>, hashed: Bytes, bytes: Bytes)
    requires InBlock(sha, content, block, pos, digests, hashed) && |hashed| + |bytes| == block
    requires pos + |bytes| <= |content| && bytes == content[pos..pos + |bytes|]
    ensures InBlock(sha, content, block, pos + |bytes|, digests + [sha(hashed + bytes)], [])
  {
    var n := |digests|;
    assert (n + 1) * block == n * block + block;
    assert hashed + bytes == content[n * block..pos + |bytes|];
    assert BlockIs(sha, content, block, n, sha(hashed + bytes));
  }

  /** Position `pos` of the content: all whole blocks digested, the rest of it in the hasher. */
  predicate InBlock<D(==)>(sha: Bytes -> D, content: Bytes, block: nat, pos: nat, digests: seq<D>, hashed: Bytes) {
    && |digests| * block + |hashed| == pos <= |content| && |hashed| < block
    && hashed == content[|digests| * block..pos]
    && forall i :: 0 <= i < |digests| ==> BlockIs(sha, content, block, i, digests[i])
  }

  /** Appending to the content does not disturb the blocks already digested. */
  lemma InBlockExtends<D>(sha: Bytes -> D, content: Bytes, more: Bytes, block: nat, pos: nat, digests: seq<D>, hashed: Bytes)
    requires InBlock(sha, content, block, pos, digests, hashed)
    ensures InBlock(sha, content + more, block, pos, digests, hashed)
  {
    forall i | 0 <= i < |digests| ensures BlockIs(sha, content + more, block, i, digests[i]) {
      assert BlockIs(sha, content, block, i, digests[i]);
      Scale(i + 1, |digests|, block);
      Scale(i, i + 1, block);
      assert (content + more)[i * block..(i + 1) * block] == content[i * block..(i + 1) * block];
    }
    assert hashed == (content + more)[|digests| * block..pos];
  }

  /** What has been read so far, and what is left of the script. */
  predicate ReadSoFar(script: seq<ReadEvent>, file: Bytes, rest: seq<ReadEvent>, all: Bytes) {
    Suffix(rest, script) && AllSeen(script, file, 0, all) && (Honest(script, file) ==> all <= file)
  }

  /** The next buffer of the scan, of at least one byte. */
  method ReadNext(file: Bytes, script: seq<ReadEvent>, all: Bytes, want: nat, ghost whole: seq<ReadEvent>)
    returns (r: Result<Bytes>, rest: seq<ReadEvent>)
    requires |file| <= U64_MAX && ReadSoFar(whole, file, script, all) && want > 0
    ensures Suffix(rest, whole)
    ensures r.Ok? ==> |r.value| == want && ReadSoFar(whole, file, rest, all + r.value)
    ensures r.Err? && Honest(whole, file) && Faultless(whole) ==> |file| < |all| + want
  {
    SuffixKeeps(script, whole, file);
    r, rest := ReadExactAt(file, script, |all|, want);
    SuffixTransitive(rest, script, whole);
    if r.Ok? {
      SeenInSuffix(script, whole, file, |all|, r.value);
      SeenConcat(whole, file, 0, all, r.value);
      if Honest(whole, file) { PrefixGrows(file, all, r.value); }
    }
  }

  lemma SuffixTransitive(a: seq<ReadEvent>, b: seq<ReadEvent>, c: seq<ReadEvent>)
    requires Suffix(a, b) && Suffix(b, c)
    ensures Suffix(a, c)
  {}

  lemma PrefixGrows(file: Bytes, all: Bytes, got: Bytes)
    requires all <= file && Filled(file, |all|, got)
    ensures all + got <= file
  {}

  /**
   * Digests `len` bytes in blocks that need not divide the read buffer. Whatever the file does during the scan, an accepted
   * scan is the scan of one content: the bytes `all` that the reads returned, each seen at its own position.
   */
  method ScanFileAt<D(==)>(md5: Bytes -> D, sha: Bytes -> D, file: Bytes, script: seq<ReadEvent>, len: nat, block: nat)
    returns (r: Result<Scan<D>>, all: Bytes)
    requires |file| <= U64_MAX
    ensures block == 0 || block > HASH_BUFFER_BYTES || BlockCount(len, block) > MAX_UPLOAD_DIGEST_BLOCKS ==> r.Err?
    ensures r.Ok? ==> |all| == len && AllSeen(script, file, 0, all) && IsScan(r.value, md5, sha, all, block)
    ensures r.Ok? && Honest(script, file) ==> len <= |file| && all == file[..len]
    ensures Honest(script, file) && Faultless(script) && Scannable(len, block) ==> (r.Ok? <==> len <= |file|)
  {
    all := [];
    if block == 0 || block > HASH_BUFFER_BYTES { return Err, []; }
    if BlockCount(len, block) > MAX_UPLOAD_DIGEST_BLOCKS { return Err, []; }
    var digests: seq<D>, hashed: Bytes := [], [];
    var rest := script;
    while |all| < len
      invariant |all| <= len && ReadSoFar(script, file, rest, all)
      invariant InBlock(sha, all, block, |all|, digests, hashed)
    {
      var want := if len - |all| < HASH_BUFFER_BYTES then len - |all| else HASH_BUFFER_BYTES;
      var got;
      got, rest := ReadNext(file, rest, all, want, script);
      if got.Err? { return Err, all; }
      InBlockExtends(sha, all, got.value, block, |all|, digests, hashed);
      digests, hashed := FeedBlocks(sha, all + got.value, block, got.value, |all|, digests, hashed);
      all := all + got.value;
    }
    digests := FinishBlocks(sha, all, block, digests, hashed);
    r := Ok(Scan(md5(all), sha(all), digests));
  }

  predicate Scannable(len: nat, block: nat) {
    0 < block <= HASH_BUFFER_BYTES && BlockCount(len, block) <= MAX_UPLOAD_DIGEST_BLOCKS
  }

  /** The digest of a partial tail. */
  method FinishBlocks<D(==)>(sha: Bytes -> D, ghost content: Bytes, block: nat, digests0: seq<D>, hashed: Bytes) returns (digests: seq<D>)
    requires 0 < block && InBlock(sha, content, block, |content|, digests0, hashed)
    ensures |digests| == BlockCount(|content|, block)
    ensures forall i :: 0 <= i < |digests| ==> BlockIs(sha, content, block, i, digests[i])
  {
    CountIs(|content|, block, |digests0|, |hashed|);
    digests := digests0;
    if hashed != [] {
      assert (|digests| + 1) * block == |digests| * block + block;
      digests := digests + [sha(hashed)];
    }
  }
}
