/** Committing an Azure block blob: blocks arrive in any order and the block list puts them in place. */
module AzureCommit {
  import opened Results
  import opened Sorting
  import opened ByteStrings
  import opened ChunkGrid
  import opened AzureBlockId

  const MAX_AZURE_BLOCKS: nat := 50_000
  const MAX_AZURE_BLOCK_BYTES: nat := 4000 * 1024 * 1024

  /** `validate_azure_task`, apart from the URL. */
  predicate AzureTask(t: Task) { ValidTask(t) && t.chunk <= MAX_AZURE_BLOCK_BYTES && Count(t) <= MAX_AZURE_BLOCKS }

  // ---------------------------------------------------------------- any interleaving of uploads

  /**
   * `remote` is the service's uncommitted block list; at the start it may hold anything an earlier attempt left.
   * `answered` holds the indices whose Put Block succeeded, `uploaded` those the session has recorded so far.
   */
  datatype State = State(remote: map<Bytes, Bytes>, answered: set<nat>, uploaded: set<nat>)

  /** The service stores the chunk sent for an offset; a caller then records its index. Both may repeat. */
  datatype Event = Store(offset: nat) | Record(index: nat)

  function Chunk(source: Bytes, t: Task, i: nat): Bytes
    requires AzureTask(t) && t.total == |source| && i < Count(t)
  {
    ExpectedSizeExact(t, i);
    source[i * t.chunk..i * t.chunk + ExpectedSize(t, i).value]
  }

  predicate Enabled(t: Task, s: State, e: Event)
    requires 0 < t.chunk
  {
    match e
    case Store(offset) => offset < t.total && offset % t.chunk == 0
    case Record(i) => i in s.answered
  }

  /** The block index of an offset is `offset / chunk`. */
  function Apply(source: Bytes, t: Task, s: State, e: Event): State
    requires AzureTask(t) && t.total == |source| && Enabled(t, s, e)
  {
    match e
    case Store(offset) =>
      GridIndex(t, offset);
      var i := offset / t.chunk;
      State(s.remote[BlockId(i) := Chunk(source, t, i)], s.answered + {i}, s.uploaded)
    case Record(i) => s.(uploaded := s.uploaded + {i})
  }

  lemma GridIndex(t: Task, offset: nat)
    requires ValidTask(t) && offset < t.total && offset % t.chunk == 0
    ensures offset / t.chunk < Count(t) && (offset / t.chunk) * t.chunk == offset
  {
    Divides(offset, t.chunk);
    ExpectedSizeExact(t, offset / t.chunk);
  }

  predicate ValidRun(source: Bytes, t: Task, s: State, run: seq<Event>)
    requires AzureTask(t) && t.total == |source|
    decreases |run|
  {
    run == [] || (Enabled(t, s, run[0]) && ValidRun(source, t, Apply(source, t, s, run[0]), run[1..]))
  }

  function Exec(source: Bytes, t: Task, s: State, run: seq<Event>): State
    requires AzureTask(t) && t.total == |source| && ValidRun(source, t, s, run)
    decreases |run|
  {
    if run == [] then s else Exec(source, t, Apply(source, t, s, run[0]), run[1..])
  }

  /** The blob that Put Block List builds from the ids of blocks 0 to n-1. */
  function Assemble(remote: map<Bytes, Bytes>, n: nat): Result<Bytes> {
    if n == 0 then Ok([])
    else
      var front := Assemble(remote, n - 1);
      if front.Err? || BlockId(n - 1) !in remote then Err else Ok(front.value + remote[BlockId(n - 1)])
  }

  predicate AllPresent(n: nat, uploaded: set<nat>) { forall i :: 0 <= i < n ==> i in uploaded }

  /** `complete_upload` up to the service's answer. */
  function Commit(t: Task, s: State): Result<Bytes>
    requires 0 < t.chunk
  {
    if !AllPresent(Count(t), s.uploaded) then Err else Assemble(s.remote, Count(t))
  }

  predicate Stored(source: Bytes, t: Task, s: State, i: nat)
    requires AzureTask(t) && t.total == |source|
  {
    i < Count(t) && BlockId(i) in s.remote && s.remote[BlockId(i)] == Chunk(source, t, i)
  }

  predicate Inv(source: Bytes, t: Task, s: State)
    requires AzureTask(t) && t.total == |source|
  {
    s.uploaded <= s.answered && forall i :: i in s.answered ==> Stored(source, t, s, i)
  }

  /** Storing one block leaves every other block alone, because ids are distinct. */
  lemma StepKeepsInv(source: Bytes, t: Task, s: State, e: Event)
    requires AzureTask(t) && t.total == |source| && Enabled(t, s, e) && Inv(source, t, s)
    ensures Inv(source, t, Apply(source, t, s, e))
  {
    if e.Store? {
      GridIndex(t, e.offset);
      var k := e.offset / t.chunk;
      var u := Apply(source, t, s, e);
      forall i | i in u.answered ensures Stored(source, t, u, i) {
        assert i != k ==> Stored(source, t, s, i);
        if BlockId(i) == BlockId(k) { BlockIdInjective(i, k); }
      }
    }
  }

  lemma {:induction false} RunKeepsInv(source: Bytes, t: Task, s: State, run: seq<Event>)
    requires AzureTask(t) && t.total == |source| && ValidRun(source, t, s, run) && Inv(source, t, s)
    ensures Inv(source, t, Exec(source, t, s, run))
    decreases |run|
  {
    if run != [] {
      StepKeepsInv(source, t, s, run[0]);
      RunKeepsInv(source, t, Apply(source, t, s, run[0]), run[1..]);
    }
  }

  /** Where block `n` starts; the end of the source after the last block. */
  function Front(t: Task, n: nat): nat
    requires 0 < t.chunk
  {
    if n < Count(t) then n * t.chunk else t.total
  }

  lemma NextFront(t: Task, n: nat)
    requires ValidTask(t) && n < Count(t)
    ensures ExpectedSize(t, n).Ok? && Front(t, n) + ExpectedSize(t, n).value == Front(t, n + 1) <= t.total
  {
    ExpectedSizeExact(t, n);
    assert (n + 1) * t.chunk == n * t.chunk + t.chunk;
  }

  lemma FirstFront(t: Task)
    requires ValidTask(t)
    ensures Front(t, 0) == 0
  {
    ExpectedSizeExact(t, 0);
  }

  /** The assembled front is the source up to the next block's start. */
  lemma {:induction false} AssembleFront(source: Bytes, t: Task, s: State, n: nat)
    requires AzureTask(t) && t.total == |source| && Inv(source, t, s) && n <= Count(t) && AllPresent(n, s.uploaded)
    ensures Front(t, n) <= |source| && Assemble(s.remote, n) == Ok(source[..Front(t, n)])
  {
    if n == 0 {
      FirstFront(t);
    } else {
      AssembleFront(source, t, s, n - 1);
      NextFront(t, n - 1);
      assert Stored(source, t, s, n - 1);
      var a, b := Front(t, n - 1), Front(t, n);
      assert s.remote[BlockId(n - 1)] == source[a..b];
      assert source[..a] + source[a..b] == source[..b];
    }
  }

  /** Wherever the invariant holds, completion commits the source if every block is recorded, else nothing. */
  lemma CommitFromInv(source: Bytes, t: Task, s: State)
    requires AzureTask(t) && t.total == |source| && Inv(source, t, s)
    ensures Commit(t, s) == if AllPresent(Count(t), s.uploaded) then Ok(source) else Err
  {
    if AllPresent(Count(t), s.uploaded) {
      AssembleFront(source, t, s, Count(t));
      assert source[..t.total] == source;
    }
  }

  /**
   * After a fresh prepare, for every order, interleaving and repetition of chunk uploads and whatever an earlier
   * attempt left behind: completion commits the source bytes exactly when every block was recorded, else nothing.
   */
  lemma CommitIsTheSource(source: Bytes, t: Task, leftovers: map<Bytes, Bytes>, run: seq<Event>)
    requires AzureTask(t) && t.total == |source| && ValidRun(source, t, State(leftovers, {}, {}), run)
    ensures
      var s := Exec(source, t, State(leftovers, {}, {}), run);
      Commit(t, s) == if AllPresent(Count(t), s.uploaded) then Ok(source) else Err
  {
    RunKeepsInv(source, t, State(leftovers, {}, {}), run);
    CommitFromInv(source, t, Exec(source, t, State(leftovers, {}, {}), run));
  }

  /** Once recorded, a block stays recorded: completion does not depend on what else is still running. */
  lemma {:induction false} RecordedStays(source: Bytes, t: Task, s: State, run: seq<Event>)
    requires AzureTask(t) && t.total == |source| && ValidRun(source, t, s, run)
    ensures s.uploaded <= Exec(source, t, s, run).uploaded
    decreases |run|
  {
    if run != [] { RecordedStays(source, t, Apply(source, t, s, run[0]), run[1..]); }
  }

  // ---------------------------------------------------------------- the block list of a resumed session

  datatype RawBlock = RawBlock(name: Bytes, size: nat)

  predicate PieceLe(a: Piece, b: Piece) { a.index < b.index || (a.index == b.index && a.size <= b.size) }

  /** Every name is a block id, every size is positive, and no two entries name the same block. */
  predicate ParsableList(entries: seq<RawBlock>) {
    && |entries| <= MAX_AZURE_BLOCKS
    && (forall k :: 0 <= k < |entries| ==> ParseBlockIndex(entries[k].name).Ok? && entries[k].size > 0)
    && (forall j, k :: 0 <= j < k < |entries| ==> ParseBlockIndex(entries[j].name) != ParseBlockIndex(entries[k].name))
  }

  predicate SameBlock(e: RawBlock, p: Piece) { ParseBlockIndex(e.name) == Ok(p.index) && e.size == p.size }

  predicate SameBlocks(entries: seq<RawBlock>, blocks: seq<Piece>) {
    |blocks| == |entries| && forall k :: 0 <= k < |entries| ==> SameBlock(entries[k], blocks[k])
  }

  /** `parse_block_entries_from_block_list`: refused as a whole, or every entry by its index, in order. */
  method ParseBlocks(entries: seq<RawBlock>) returns (r: Result<seq<Piece>>, ghost unsorted: seq<Piece>)
    ensures r.Ok? <==> ParsableList(entries)
    ensures r.Ok? ==> SameBlocks(entries, unsorted) && multiset(r.value) == multiset(unsorted) && Sorted(r.value, PieceLe)
  {
    unsorted := [];
    if |entries| > MAX_AZURE_BLOCKS { return Err, []; }
    var parsed: seq<Piece>, seen: set<nat>, i := [], {}, 0;
    while i < |entries|
      invariant 0 <= i <= |entries| && ParsableList(entries[..i]) && SameBlocks(entries[..i], parsed)
      invariant forall n :: n in seen <==> Has(parsed, n)
    {
      var index := ParseBlockIndex(entries[i].name);
      if index.Err? || entries[i].size == 0 { return Err, []; }
      if index.value in seen {
        Repeated(entries, i, parsed);
        return Err, [];
      }
      ParsableNext(entries, i, parsed);
      HasNext(parsed, Piece(index.value, entries[i].size));
      parsed, seen := parsed + [Piece(index.value, entries[i].size)], seen + {index.value};
      i := i + 1;
    }
    assert entries[..i] == entries;
    PieceOrder();
    SortSorted(parsed, PieceLe);
    SortContents(parsed, PieceLe);
    r, unsorted := Ok(Sort(parsed, PieceLe)), parsed;
  }

  lemma Repeated(entries: seq<RawBlock>, i: nat, parsed: seq<Piece>)
    requires i < |entries| && SameBlocks(entries[..i], parsed)
    requires ParseBlockIndex(entries[i].name).Ok? && Has(parsed, ParseBlockIndex(entries[i].name).value)
    ensures !ParsableList(entries)
  {
    var k :| 0 <= k < |parsed| && parsed[k].index == ParseBlockIndex(entries[i].name).value;
    assert SameBlock(entries[..i][k], parsed[k]);
    assert ParseBlockIndex(entries[k].name) == ParseBlockIndex(entries[i].name);
  }

  lemma ParsableNext(entries: seq<RawBlock>, i: nat, parsed: seq<Piece>)
    requires i < |entries| <= MAX_AZURE_BLOCKS && ParsableList(entries[..i]) && SameBlocks(entries[..i], parsed)
    requires ParseBlockIndex(entries[i].name).Ok? && entries[i].size > 0
    requires !Has(parsed, ParseBlockIndex(entries[i].name).value)
    ensures ParsableList(entries[..i + 1])
    ensures SameBlocks(entries[..i + 1], parsed + [Piece(ParseBlockIndex(entries[i].name).value, entries[i].size)])
  {
    SameBlocksNext(entries[..i], entries[i], parsed);
    assert entries[..i + 1] == entries[..i] + [entries[i]];
    var more := entries[..i + 1];
    forall j, k | 0 <= j < k < |more| ensures ParseBlockIndex(more[j].name) != ParseBlockIndex(more[k].name) {
      assert more[j] == entries[..i][j];
      if k < i { assert more[k] == entries[..i][k]; } else { assert SameBlock(entries[..i][j], parsed[j]); }
    }
    forall k | 0 <= k < |more| ensures ParseBlockIndex(more[k].name).Ok? && more[k].size > 0 {
      if k < i { assert more[k] == entries[..i][k]; }
    }
  }

  lemma SameBlocksNext(entries: seq<RawBlock>, e: RawBlock, parsed: seq<Piece>)
    requires SameBlocks(entries, parsed) && ParseBlockIndex(e.name).Ok?
    ensures SameBlocks(entries + [e], parsed + [Piece(ParseBlockIndex(e.name).value, e.size)])
  {}

  lemma HasNext(pieces: seq<Piece>, p: Piece)
    ensures forall n: nat :: Has(pieces + [p], n) <==> Has(pieces, n) || n == p.index
  {
    forall n: nat ensures Has(pieces + [p], n) <==> Has(pieces, n) || n == p.index {
      if Has(pieces, n) { var k :| 0 <= k < |pieces| && pieces[k].index == n; assert (pieces + [p])[k].index == n; }
      if n == p.index { assert (pieces + [p])[|pieces|].index == n; }
    }
  }

  lemma PieceOrder()
    ensures TotalOrder(PieceLe)
  {}

  function Indices(blocks: seq<Piece>): set<nat> { set b | b in blocks :: b.index }

  /** `validate_all_blocks_present`. */
  method CheckPresent(n: nat, uploaded: set<nat>) returns (ok: bool)
    ensures ok <==> AllPresent(n, uploaded)
  {
    var i := 0;
    while i < n
      invariant 0 <= i <= n && AllPresent(i, uploaded)
    {
      if i !in uploaded { return false; }
      i := i + 1;
    }
    return true;
  }

  /** `validate_remote_block_entries`: accepts exactly the lists that tile everything before the local offset. */
  method ValidateEntries(t: Task, local: nat, blocks: seq<Piece>) returns (ok: bool)
    requires AzureTask(t) && ValidOffset(t, local)
    ensures ok <==> Tiles(t, local, blocks)
  {
    var i := 0;
    while i < |blocks|
      invariant 0 <= i <= |blocks| && forall k :: 0 <= k < i ==> OnGrid(t, blocks[k])
    {
      if blocks[i].index >= Count(t) || ExpectedSize(t, blocks[i].index) != Ok(blocks[i].size) {
        assert !OnGrid(t, blocks[i]);
        return false;
      }
      i := i + 1;
    }
    TilesExactly(t, local, blocks);
    ok := CheckPresent(Needed(t, local), Indices(blocks));
    PresentIsHas(blocks, Needed(t, local));
  }

  lemma PresentIsHas(blocks: seq<Piece>, n: nat)
    ensures AllPresent(n, Indices(blocks)) <==> forall i :: 0 <= i < n ==> Has(blocks, i)
  {
    forall i: nat ensures i in Indices(blocks) <==> Has(blocks, i) {
      if i in Indices(blocks) {
        var b :| b in blocks && b.index == i;
        var k :| 0 <= k < |blocks| && blocks[k] == b;
      }
      if Has(blocks, i) {
        var k :| 0 <= k < |blocks| && blocks[k].index == i;
        assert blocks[k] in blocks;
      }
    }
  }
}
