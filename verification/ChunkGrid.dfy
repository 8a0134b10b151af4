/** The chunk grid of an upload task: pieces, the bytes they cover, and what a resumed prefix needs. */
module ChunkGrid {
  import opened Results

  datatype Task = Task(total: nat, chunk: nat)

  predicate ValidTask(t: Task) { 0 < t.chunk && t.total <= U64_MAX }

  /** A remote part or block: the bytes `[index * chunk, index * chunk + size)`. */
  datatype Piece = Piece(index: nat, size: nat)

  function Count(t: Task): nat
    requires 0 < t.chunk
  {
    (t.total + t.chunk - 1) / t.chunk
  }

  /** `expected_part_size` and `expected_block_size`, with their checked 64-bit arithmetic. */
  function ExpectedSize(t: Task, i: nat): Result<nat> {
    var start := i * t.chunk;
    if start > U64_MAX then Err
    else if t.total < start then Err
    else if t.total - start == 0 then Err
    else Ok(if t.total - start < t.chunk then t.total - start else t.chunk)
  }

  predicate ValidOffset(t: Task, local: nat)
    requires 0 < t.chunk
  {
    local <= t.total && (local == t.total || local % t.chunk == 0)
  }

  /** How many pieces a resume at `local` needs. */
  function Needed(t: Task, local: nat): nat
    requires 0 < t.chunk
  {
    if local == t.total then Count(t) else local / t.chunk
  }

  predicate OnGrid(t: Task, p: Piece)
    requires 0 < t.chunk
  {
    p.index < Count(t) && ExpectedSize(t, p.index) == Ok(p.size)
  }

  predicate Covers(t: Task, p: Piece, x: nat) { p.index * t.chunk <= x < p.index * t.chunk + p.size }

  predicate Covered(t: Task, pieces: seq<Piece>, x: nat) { exists k :: 0 <= k < |pieces| && Covers(t, pieces[k], x) }

  predicate Has(pieces: seq<Piece>, i: nat) { exists k :: 0 <= k < |pieces| && pieces[k].index == i }

  predicate AllOnGrid(t: Task, pieces: seq<Piece>)
    requires 0 < t.chunk
  {
    forall k :: 0 <= k < |pieces| ==> OnGrid(t, pieces[k])
  }

  /** Every piece has its exact place and size, and together they cover every byte before `local`. */
  predicate Tiles(t: Task, local: nat, pieces: seq<Piece>)
    requires 0 < t.chunk
  {
    AllOnGrid(t, pieces) && forall x :: 0 <= x < local ==> Covered(t, pieces, x)
  }

  // ---------------------------------------------------------------- arithmetic

  lemma Below(i: nat, x: nat, b: nat)
    requires 0 < b
    ensures i * b <= x <==> i <= x / b
  {
    var q := x / b;
    Divides(x, b);
    if i <= q {
      Scale(i, q, b);
    } else {
      Scale(q + 1, i, b);
      assert (q + 1) * b == q * b + b;
    }
  }

  /** Piece `i` exists exactly when it starts before the end; then its size is never zero and never above a chunk. */
  lemma ExpectedSizeExact(t: Task, i: nat)
    requires ValidTask(t)
    ensures i < Count(t) <==> i * t.chunk < t.total
    ensures ExpectedSize(t, i).Ok? <==> i < Count(t)
    ensures ExpectedSize(t, i).Ok? ==>
      0 < ExpectedSize(t, i).value <= t.chunk && i * t.chunk + ExpectedSize(t, i).value <= t.total
    ensures ExpectedSize(t, i).Ok? && i + 1 < Count(t) ==> ExpectedSize(t, i).value == t.chunk
    ensures ExpectedSize(t, i).Ok? && i + 1 == Count(t) ==> i * t.chunk + ExpectedSize(t, i).value == t.total
  {
    Below(i + 1, t.total + t.chunk - 1, t.chunk);
    Below(i + 2, t.total + t.chunk - 1, t.chunk);
    assert (i + 1) * t.chunk == i * t.chunk + t.chunk && (i + 2) * t.chunk == i * t.chunk + 2 * t.chunk;
  }

  /** On the grid, byte `x` belongs to exactly one piece index. */
  lemma CoversExactly(t: Task, p: Piece, x: nat)
    requires ValidTask(t) && OnGrid(t, p) && x < t.total
    ensures Covers(t, p, x) <==> p.index == x / t.chunk
  {
    ExpectedSizeExact(t, p.index);
    Divides(x, t.chunk);
    Below(p.index, x, t.chunk);
    Below(p.index + 1, x, t.chunk);
    assert (p.index + 1) * t.chunk == p.index * t.chunk + t.chunk;
  }

  /** The pieces a resume needs are exactly those that start before the local offset, and they end at or before it. */
  lemma NeededExactly(t: Task, local: nat, i: nat)
    requires ValidTask(t) && ValidOffset(t, local) && i < Count(t)
    ensures i < Needed(t, local) <==> i * t.chunk < local
    ensures i < Needed(t, local) ==> i * t.chunk + ExpectedSize(t, i).value <= local
    ensures Needed(t, local) <= Count(t)
  {
    ExpectedSizeExact(t, i);
    if local < t.total {
      var q := local / t.chunk;
      assert local == q * t.chunk + local % t.chunk;
      Below(i + 1, local, t.chunk);
      assert (i + 1) * t.chunk == i * t.chunk + t.chunk;
      Below(i, local, t.chunk);
      ExpectedSizeExact(t, q);
    }
  }

  // ---------------------------------------------------------------- tiling

  /** All needed indices present means every byte before the local offset covered, and conversely. */
  lemma TilesExactly(t: Task, local: nat, pieces: seq<Piece>)
    requires ValidTask(t) && ValidOffset(t, local) && AllOnGrid(t, pieces)
    ensures Tiles(t, local, pieces) <==> forall i :: 0 <= i < Needed(t, local) ==> Has(pieces, i)
  {
    if forall i :: 0 <= i < Needed(t, local) ==> Has(pieces, i) {
      forall x | 0 <= x < local ensures Covered(t, pieces, x) { NeededCovers(t, local, pieces, x); }
    }
    if Tiles(t, local, pieces) {
      forall i | 0 <= i < Needed(t, local) ensures Has(pieces, i) { CoveredHas(t, local, pieces, i); }
    }
  }

  lemma NeededCovers(t: Task, local: nat, pieces: seq<Piece>, x: nat)
    requires ValidTask(t) && ValidOffset(t, local) && AllOnGrid(t, pieces) && x < local
    requires forall i :: 0 <= i < Needed(t, local) ==> Has(pieces, i)
    ensures Covered(t, pieces, x)
  {
    var i := x / t.chunk;
    Divides(x, t.chunk);
    ExpectedSizeExact(t, i);
    NeededExactly(t, local, i);
    assert Has(pieces, i);
    var k :| 0 <= k < |pieces| && pieces[k].index == i;
    CoversExactly(t, pieces[k], x);
  }

  lemma CoveredHas(t: Task, local: nat, pieces: seq<Piece>, i: nat)
    requires ValidTask(t) && ValidOffset(t, local) && Tiles(t, local, pieces) && i < Needed(t, local)
    ensures Has(pieces, i)
  {
    NeededAtMostCount(t, local);
    NeededExactly(t, local, i);
    var x := i * t.chunk;
    assert Covered(t, pieces, x);
    var k :| 0 <= k < |pieces| && Covers(t, pieces[k], x);
    CoversExactly(t, pieces[k], x);
    Below(i, x, t.chunk);
    Below(i + 1, x, t.chunk);
    assert (i + 1) * t.chunk == x + t.chunk;
  }

  lemma NeededAtMostCount(t: Task, local: nat)
    requires ValidTask(t) && ValidOffset(t, local)
    ensures Needed(t, local) <= Count(t)
  {
    if local < t.total {
      Divides(local, t.chunk);
      ExpectedSizeExact(t, local / t.chunk);
    }
  }

  /** Two pieces on the grid overlap only if they are the same piece, and each lies wholly before or after the offset. */
  lemma PiecesDoNotOverlap(t: Task, local: nat, p: Piece, q: Piece, x: nat)
    requires ValidTask(t) && ValidOffset(t, local) && OnGrid(t, p) && OnGrid(t, q)
    ensures Covers(t, p, x) && Covers(t, q, x) ==> p == q
    ensures p.index < Needed(t, local) ==> p.index * t.chunk + p.size <= local
    ensures p.index >= Needed(t, local) ==> local <= p.index * t.chunk
  {
    ExpectedSizeExact(t, p.index);
    ExpectedSizeExact(t, q.index);
    NeededExactly(t, local, p.index);
    if x < t.total {
      CoversExactly(t, p, x);
      CoversExactly(t, q, x);
    }
  }
}
