/** The put-block session: which blocks the client believes are on the service, and the service it talks to. */
module AzureSession {
  import opened Results
  import opened ByteStrings
  import opened ChunkGrid
  import opened AzureBlockId
  import opened AzureCommit

  method ValidateTask(t: Task) returns (ok: bool)
    requires ValidTask(t)
    ensures ok <==> AzureTask(t)
  {
    ok := t.chunk <= MAX_AZURE_BLOCK_BYTES && Count(t) <= MAX_AZURE_BLOCKS;
  }

  function PartIndex(t: Task, offset: nat): nat
    requires 0 < t.chunk
  {
    offset / t.chunk
  }

  /** A chunk as the transfer loop cuts it. */
  predicate GridChunk(source: Bytes, t: Task, offset: nat, body: Bytes) {
    && AzureTask(t) && t.total == |source| && offset < t.total && offset % t.chunk == 0
    && PartIndex(t, offset) < Count(t) && body == Chunk(source, t, PartIndex(t, offset))
  }

  predicate Sendable(t: Task, offset: nat, body: Bytes)
    requires ValidTask(t)
  {
    AzureTask(t) && |body| <= MAX_AZURE_BLOCK_BYTES && PartIndex(t, offset) < MAX_AZURE_BLOCKS
  }

  /** What `prepare` knows when it first gives up the lock. */
  datatype Prepared = Refused | Ready(next: nat) | NeedsListing

  class Session {
    var hasTarget: bool
    var target: Bytes
    var uploaded: set<nat>
    /** The service: its uncommitted blocks, and which of them it stored for this session. */
    var remote: map<Bytes, Bytes>
    ghost var answered: set<nat>

    ghost function View(): State
      reads this
    {
      State(remote, answered, uploaded)
    }

    constructor (leftovers: map<Bytes, Bytes>)
      ensures !hasTarget && View() == State(leftovers, {}, {})
    {
      hasTarget, target, uploaded, remote, answered := false, [], {}, leftovers, {};
    }

    /**
     * The first critical section of `prepare`. A start at zero forgets every block; a resume needs an offset on the grid
     * and either a record that covers everything before it, or a listing.
     */
    method PrepareStart(url: Bytes, t: Task, local: nat) returns (d: Prepared)
      requires ValidTask(t)
      modifies this
      ensures !AzureTask(t) ==> d == Refused && unchanged(this)
      ensures AzureTask(t) ==> hasTarget && target == url && remote == old(remote)
      ensures AzureTask(t) && local == 0 ==> d == Ready(0) && View() == State(old(remote), {}, {})
      ensures AzureTask(t) && 0 < local && !ValidOffset(t, local) ==> d == Refused
      ensures AzureTask(t) && 0 < local ==> uploaded == if old(hasTarget && target == url) then old(uploaded) else {}
      ensures AzureTask(t) && 0 < local && ValidOffset(t, local) ==>
        d == if uploaded == {} then NeedsListing else if AllPresent(Needed(t, local), uploaded) then Ready(local) else Refused
    {
      var supported := ValidateTask(t);
      if !supported { return Refused; }
      if !hasTarget || target != url {
        hasTarget, target, uploaded, answered := true, url, {}, {};
      }
      if local == 0 {
        uploaded, answered := {}, {};
        return Ready(0);
      }
      if !(local <= t.total && (local == t.total || local % t.chunk == 0)) { return Refused; }
      if uploaded != {} {
        var present := CheckPresent(Needed(t, local), uploaded);
        return if present then Ready(local) else Refused;
      }
      return NeedsListing;
    }

    /** The second one, on whatever the record has become while the listing was fetched: a resume goes through exactly when
        the listing tiles everything before the offset, and then the record holds its blocks besides its own. */
    method PrepareFinish(t: Task, local: nat, listing: Result<seq<Piece>>) returns (r: Result<nat>)
      requires AzureTask(t) && ValidOffset(t, local)
      modifies `uploaded
      ensures r == if listing.Ok? && Tiles(t, local, listing.value) then Ok(local) else Err
      ensures uploaded == old(uploaded) + (if r.Ok? then Indices(listing.value) else {})
      ensures r.Ok? ==> AllPresent(Needed(t, local), uploaded)
    {
      if listing.Err? { return Err; }
      var valid := ValidateEntries(t, local, listing.value);
      if !valid { return Err; }
      uploaded := uploaded + Indices(listing.value);
      TilesExactly(t, local, listing.value);
      PresentIsHas(listing.value, Needed(t, local));
      var present := CheckPresent(Needed(t, local), uploaded);
      return if present then Ok(local) else Err;
    }

    /**
     * `stored`: the block reached the service. `accepted`: its success answer reached the client. On a chunk of the grid
     * the call is the machine's store, then its record; the index is recorded only after acceptance.
     */
    method UploadChunk(t: Task, offset: nat, body: Bytes, stored: bool, accepted: bool, ghost source: Bytes) returns (r: Result<nat>)
      requires ValidTask(t) && (accepted ==> stored)
      modifies `uploaded, `remote, `answered
      ensures r == if Sendable(t, offset, body) && accepted then Ok(offset + |body|) else Err
      ensures !Sendable(t, offset, body) || !stored ==> View() == old(View())
      ensures Sendable(t, offset, body) && stored && GridChunk(source, t, offset, body) ==>
        var s := Apply(source, t, old(View()), Store(offset));
        View() == if accepted then Apply(source, t, s, Record(PartIndex(t, offset))) else s
    {
      var supported := ValidateTask(t);
      if !supported { return Err; }
      if |body| > MAX_AZURE_BLOCK_BYTES { return Err; }
      var index := PartIndex(t, offset);
      if index >= MAX_AZURE_BLOCKS { return Err; }
      if stored { remote, answered := remote[BlockId(index) := body], answered + {index}; }
      if !accepted { return Err; }
      uploaded := uploaded + {index};
      return Ok(offset + |body|);
    }

    /** The call is the machine's commit; success clears the record. */
    method Complete(t: Task, accepted: bool) returns (r: Result<Bytes>)
      requires ValidTask(t)
      modifies `uploaded
      ensures r == if AzureTask(t) && accepted then Commit(t, old(View())) else Err
      ensures uploaded == if r.Ok? then {} else old(uploaded)
    {
      var supported := ValidateTask(t);
      if !supported { return Err; }
      var present := CheckPresent(Count(t), uploaded);
      if !present || !accepted { return Err; }
      r := Assemble(remote, Count(t));
      if r.Ok? { uploaded := {}; }
    }

    /**
     * A whole upload from zero: the chunks at `offsets` are sent in that order, each with its own fate, and completed.
     * It commits the source exactly when every block was accepted at least once, whatever else happened.
     */
    method UploadInOrder(url: Bytes, source: Bytes, t: Task, offsets: seq<nat>, stored: seq<bool>, accepted: seq<bool>) returns (r: Result<Bytes>)
      requires AzureTask(t) && t.total == |source| && |offsets| == |stored| == |accepted|
      requires forall k :: 0 <= k < |offsets| ==> offsets[k] < t.total && offsets[k] % t.chunk == 0 && (accepted[k] ==> stored[k])
      modifies this
      ensures r == if (forall i :: 0 <= i < Count(t) ==> Accepted(t, offsets, accepted, |offsets|, i)) then Ok(source) else Err
    {
      var prepared := PrepareStart(url, t, 0);
      var k := 0;
      while k < |offsets|
        invariant 0 <= k <= |offsets| && Inv(source, t, View())
        invariant forall i: nat :: i in uploaded <==> Accepted(t, offsets, accepted, k, i)
      {
        var index := PartIndex(t, offsets[k]);
        GridIndex(t, offsets[k]);
        ChunkFits(source, t, index);
        ghost var before := View();
        var sent := UploadChunk(t, offsets[k], Chunk(source, t, index), stored[k], accepted[k], source);
        if stored[k] { KeepsInv(source, t, before, offsets[k]); }
        k := k + 1;
      }
      CommitFromInv(source, t, View());
      r := Complete(t, true);
    }
  }

  /** Among the first `k` sends, one of block `i` was accepted. */
  predicate Accepted(t: Task, offsets: seq<nat>, accepted: seq<bool>, k: nat, i: nat)
    requires 0 < t.chunk && k <= |offsets| == |accepted|
  {
    exists j :: 0 <= j < k && accepted[j] && PartIndex(t, offsets[j]) == i
  }

  lemma ChunkFits(source: Bytes, t: Task, i: nat)
    requires AzureTask(t) && t.total == |source| && i < Count(t)
    ensures |Chunk(source, t, i)| <= MAX_AZURE_BLOCK_BYTES && i < MAX_AZURE_BLOCKS
  {
    ExpectedSizeExact(t, i);
  }

  /** A store, and a record after it, keep the machine's invariant. */
  lemma KeepsInv(source: Bytes, t: Task, s: State, offset: nat)
    requires AzureTask(t) && t.total == |source| && offset < t.total && offset % t.chunk == 0 && Inv(source, t, s)
    ensures var u := Apply(source, t, s, Store(offset));
      Inv(source, t, u) && Inv(source, t, Apply(source, t, u, Record(PartIndex(t, offset))))
  {
    StepKeepsInv(source, t, s, Store(offset));
    StepKeepsInv(source, t, Apply(source, t, s, Store(offset)), Record(PartIndex(t, offset)));
  }
}
