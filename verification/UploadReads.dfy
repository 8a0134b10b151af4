/** Positioned reads that return a range only if every digest block it touches still matches the snapshot. */
module UploadReads {
  import opened ByteStrings
  import opened Results
  import opened UploadSnapshot

  datatype Identity<D> = Identity(len: nat, block: nat, blocks: seq<D>)

  /** The identity was taken from `original`, as a scan records it. */
  predicate Records<D(==)>(id: Identity<D>, sha: Bytes -> D, original: Bytes) {
    && 0 < id.block && id.len == |original| && |id.blocks| == BlockCount(|original|, id.block)
    && forall i :: 0 <= i < |id.blocks| ==> BlockIs(sha, original, id.block, i, id.blocks[i])
  }

  lemma ScanRecords<D>(scan: Scan<D>, md5: Bytes -> D, sha: Bytes -> D, original: Bytes, block: nat)
    requires 0 < block && IsScan(scan, md5, sha, original, block)
    ensures Records(Identity(|original|, block, scan.blocks), sha, original)
  {}

  ghost predicate CollisionFree<D(!new)>(sha: Bytes -> D) { forall a, b :: sha(a) == sha(b) ==> a == b }

  lemma InCount(len: nat, b: nat, i: nat)
    requires 0 < b && i * b < len
    ensures i < BlockCount(len, b)
  {
    var n := BlockCount(len, b);
    Divides(len + b - 1, b);
    assert n <= i ==> (n + 1) * b <= (i + 1) * b;
    assert (n + 1) * b == n * b + b && (i + 1) * b == i * b + b;
  }

  /** Reads block `i` and checks its digest. Whatever the file did meanwhile, the bytes are the original ones. */
  method ReadBlock<D(==, !new)>(sha: Bytes -> D, id: Identity<D>, file: Bytes, script: seq<ReadEvent>, i: nat, ghost original: Bytes)
    returns (r: Result<Bytes>, rest: seq<ReadEvent>)
    requires |file| <= U64_MAX && 0 < id.block && i * id.block < id.len
    ensures Suffix(rest, script)
    ensures r.Ok? ==> |r.value| == BlockEnd(id.len, id.block, i) - i * id.block
    ensures r.Ok? && Records(id, sha, original) && CollisionFree(sha) ==>
      r.value == original[BlockStart(id.block, i)..BlockEnd(id.len, id.block, i)]
    ensures Records(id, sha, original) && file == original && Honest(script, file) && Faultless(script) ==> r.Ok?
  {
    var start := i * id.block;
    assert (i + 1) * id.block == start + id.block;
    var blockLen := if id.len - start < id.block then id.len - start else id.block;
    r, rest := ReadExactAt(file, script, start, blockLen);
    if r.Err? { return; }
    if i >= |id.blocks| || sha(r.value) != id.blocks[i] {
      if Records(id, sha, original) { InCount(id.len, id.block, i); assert BlockIs(sha, original, id.block, i, id.blocks[i]); }
      return Err, rest;
    }
    if Records(id, sha, original) { assert BlockIs(sha, original, id.block, i, id.blocks[i]); }
  }

  /** How far the output reaches before block `i` is read, and after the last one. */
  function Reached(offset: nat, end: nat, block: nat, i: nat): nat
    requires 0 < block && offset < end
  {
    if i == offset / block then offset else if i <= (end - 1) / block then i * block else end
  }

  /** Up to here the output is the original. */
  predicate OutputOk(original: Bytes, offset: nat, reached: nat, output: Bytes) {
    offset <= reached <= |original| && output == original[offset..reached]
  }

  ghost predicate Pinned<D(!new)>(sha: Bytes -> D, id: Identity<D>, original: Bytes) {
    Records(id, sha, original) && CollisionFree(sha)
  }

  /** One turn of the loop: read and check block `i`, then copy its share of the range. */
  method CopyBlock<D(==, !new)>(sha: Bytes -> D, id: Identity<D>, file: Bytes, script: seq<ReadEvent>, offset: nat, end: nat,
                                i: nat, output: Bytes, ghost original: Bytes)
    returns (r: Result<Bytes>, rest: seq<ReadEvent>)
    requires |file| <= U64_MAX && 0 < id.block && offset < end <= id.len && offset / id.block <= i <= (end - 1) / id.block
    requires offset + |output| == Reached(offset, end, id.block, i)
    requires Pinned(sha, id, original) ==> OutputOk(original, offset, Reached(offset, end, id.block, i), output)
    ensures Suffix(rest, script)
    ensures r.Ok? ==> offset + |r.value| == Reached(offset, end, id.block, i + 1)
    ensures r.Ok? && Pinned(sha, id, original) ==> OutputOk(original, offset, Reached(offset, end, id.block, i + 1), r.value)
    ensures Records(id, sha, original) && file == original && Honest(script, file) && Faultless(script) ==> r.Ok?
  {
    var start := i * id.block;
    NextBlock(offset, end, id, i);
    r, rest := ReadBlock(sha, id, file, script, i, original);
    if r.Err? { return; }
    var scratch := r.value;
    var from := (if offset < start then start else offset) - start;
    var blockEnd := start + |scratch|;
    var to := (if end < blockEnd then end else blockEnd) - start;
    if Pinned(sha, id, original) { CopyKeeps(original, offset, output, scratch, start, from, to); }
    r := Ok(output + scratch[from..to]);
  }

  /** `UploadFileSnapshot::read_exact_at` with `read_verified_range_blocking`. */
  method ReadRange<D(==, !new)>(sha: Bytes -> D, id: Identity<D>, file: Bytes, script: seq<ReadEvent>, offset: nat, len: nat,
                                ghost original: Bytes)
    returns (r: Result<Bytes>)
    requires |file| <= U64_MAX && 0 < id.block && id.len <= U64_MAX
    ensures offset + len > id.len ==> r.Err?
    ensures r.Ok? ==> |r.value| == len
    ensures r.Ok? && Pinned(sha, id, original) ==> r.value == original[offset..offset + len]
    ensures Records(id, sha, original) && file == original && Honest(script, file) && Faultless(script) ==>
      (r.Ok? <==> offset + len <= id.len)
  {
    var end := offset + len;
    if end > U64_MAX || end > id.len { return Err; }
    if len == 0 { return Ok([]); }
    var first, last := offset / id.block, (end - 1) / id.block;
    FirstBeforeLast(offset, end, id.block);
    var output: Bytes := [];
    var rest, i := script, first;
    while i <= last
      invariant first <= i <= last + 1 && Suffix(rest, script)
      invariant offset + |output| == Reached(offset, end, id.block, i)
      invariant Pinned(sha, id, original) ==> OutputOk(original, offset, Reached(offset, end, id.block, i), output)
    {
      SuffixKeeps(rest, script, file);
      var copied, more := CopyBlock(sha, id, file, rest, offset, end, i, output, original);
      if copied.Err? { return Err; }
      assert more == script[|script| - |more|..];
      output, rest := copied.value, more;
      i := i + 1;
    }
    r := Ok(output);
  }

  lemma FirstBeforeLast(offset: nat, end: nat, b: nat)
    requires 0 < b && offset < end
    ensures offset / b <= (end - 1) / b
  {
    var p, q := offset / b, (end - 1) / b;
    Divides(offset, b);
    Divides(end - 1, b);
    assert q < p ==> (q + 1) * b <= p * b;
  }

  /** The arithmetic of one block: where its copied slice starts and ends. */
  lemma NextBlock<D>(offset: nat, end: nat, id: Identity<D>, i: nat)
    requires 0 < id.block && offset < end <= id.len && offset / id.block <= i <= (end - 1) / id.block
    ensures
      var start := i * id.block;
      var blockEnd := BlockEnd(id.len, id.block, i);
      var reached := Reached(offset, end, id.block, i);
      var next := Reached(offset, end, id.block, i + 1);
      && start <= reached <= next <= blockEnd && next <= end && start < id.len
      && reached == (if offset < start then start else offset)
      && next == (if end < blockEnd then end else blockEnd)
  {
    Borders(offset, end, id.block, i);
    assert (i + 1) * id.block == i * id.block + id.block;
  }

  /** Where block `i` lies relative to the range. */
  lemma Borders(offset: nat, end: nat, b: nat, i: nat)
    requires 0 < b && offset < end && offset / b <= i <= (end - 1) / b
    ensures i * b <= end - 1
    ensures if i == offset / b then i * b <= offset < i * b + b else offset < i * b
    ensures if i < (end - 1) / b then i * b + b <= end - 1 else end - 1 < i * b + b
  {
    FromBelow(offset, b, i);
    FromAbove(end - 1, b, i);
  }

  lemma FromBelow(offset: nat, b: nat, i: nat)
    requires 0 < b && offset / b <= i
    ensures if i == offset / b then i * b <= offset < i * b + b else offset < i * b
  {
    var first := offset / b;
    Divides(offset, b);
    if first < i {
      Scale(first + 1, i, b);
      assert (first + 1) * b == first * b + b;
    }
  }

  lemma FromAbove(last: nat, b: nat, i: nat)
    requires 0 < b && i <= last / b
    ensures i * b <= last
    ensures if i < last / b then i * b + b <= last else last < i * b + b
  {
    var q := last / b;
    Divides(last, b);
    Scale(i, q, b);
    if i < q {
      Scale(i + 1, q, b);
      assert (i + 1) * b == i * b + b;
    }
  }

  lemma CopyKeeps(original: Bytes, offset: nat, output: Bytes, scratch: Bytes, start: nat, from: nat, to: nat)
    requires start + |scratch| <= |original| && scratch == original[start..start + |scratch|] && from <= to <= |scratch|
    requires OutputOk(original, offset, start + from, output)
    ensures OutputOk(original, offset, start + to, output + scratch[from..to])
  {
    assert forall k :: from <= k < to ==> scratch[k] == original[start + k];
    assert scratch[from..to] == original[start + from..start + to];
  }

  // ---------------------------------------------------------------- a whole upload

  function Sum(lens: seq<nat>): nat { if lens == [] then 0 else Sum(lens[..|lens| - 1]) + lens[|lens| - 1] }

  function Flatten(parts: seq<Bytes>): Bytes { if parts == [] then [] else Flatten(parts[..|parts| - 1]) + parts[|parts| - 1] }

  /**
   * Reads consecutive ranges of the given lengths. Each may meet a different file, rewritten at will. If every read
   * is accepted, the parts joined together are the bytes that were hashed.
   */
  method ReadParts<D(==, !new)>(sha: Bytes -> D, id: Identity<D>, lens: seq<nat>, files: seq<Bytes>, scripts: seq<seq<ReadEvent>>,
                                ghost original: Bytes)
    returns (r: Result<seq<Bytes>>)
    requires Records(id, sha, original) && id.len <= U64_MAX && CollisionFree(sha)
    requires |files| == |scripts| == |lens| && forall i :: 0 <= i < |files| ==> |files[i]| <= U64_MAX
    ensures r.Ok? ==> Sum(lens) <= |original| && Flatten(r.value) == original[..Sum(lens)]
    ensures r.Ok? && Sum(lens) == id.len ==> Flatten(r.value) == original
  {
    var parts: seq<Bytes>, offset, i := [], 0, 0;
    while i < |lens|
      invariant 0 <= i <= |lens| && offset == Sum(lens[..i]) <= |original|
      invariant Flatten(parts) == original[..offset]
    {
      var part := ReadRange(sha, id, files[i], scripts[i], offset, lens[i], original);
      if part.Err? { return Err; }
      assert lens[..i + 1][..i] == lens[..i];
      assert (parts + [part.value])[..|parts|] == parts;
      parts := parts + [part.value];
      offset := offset + lens[i];
      i := i + 1;
    }
    assert lens[..i] == lens;
    r := Ok(parts);
  }

  /**
   * A whole upload: scan the source once, then read it in parts, each from whatever the file has become. If the scan and
   * every read are accepted and the parts cover the snapshot, what is sent is exactly what was scanned.
   */
  method UploadSnapshotParts<D(==, !new)>(md5: Bytes -> D, sha: Bytes -> D, file: Bytes, script: seq<ReadEvent>, len: nat, block: nat,
                                          lens: seq<nat>, files: seq<Bytes>, scripts: seq<seq<ReadEvent>>)
    returns (r: Result<seq<Bytes>>, scanned: Bytes)
    requires |file| <= U64_MAX && len <= U64_MAX && CollisionFree(sha)
    requires |files| == |scripts| == |lens| && forall i :: 0 <= i < |files| ==> |files[i]| <= U64_MAX
    ensures r.Ok? ==> |scanned| == len && AllSeen(script, file, 0, scanned)
    ensures r.Ok? ==> Sum(lens) <= len && Flatten(r.value) == scanned[..Sum(lens)]
    ensures r.Ok? && Sum(lens) == len ==> Flatten(r.value) == scanned
  {
    var scan;
    scan, scanned := ScanFileAt(md5, sha, file, script, len, block);
    if scan.Err? { return Err, scanned; }
    ScanRecords(scan.value, md5, sha, scanned, block);
    r := ReadParts(sha, Identity(len, block, scan.value.blocks), lens, files, scripts, scanned);
  }
}
