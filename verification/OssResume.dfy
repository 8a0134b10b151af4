/** Resuming an OSS multipart upload: which session is adopted and which remote parts it must hold. */
module OssResume {
  import opened Results
  import opened ChunkGrid
  import OssParts

  function AsPiece(p: OssParts.Part): Piece
    requires p.number > 0
  {
    Piece(p.number - 1, p.size)
  }

  /** The pieces that listed parts stand for; part numbers start at 1. */
  function Pieces(parts: seq<OssParts.Part>): (r: seq<Piece>)
    requires forall k :: 0 <= k < |parts| ==> parts[k].number > 0
    ensures |r| == |parts| && forall k :: 0 <= k < |parts| ==> r[k] == AsPiece(parts[k])
  {
    seq(|parts|, k requires 0 <= k < |parts| => AsPiece(parts[k]))
  }

  /** `binary_search_by_key` on a list that ascends by part number. */
  method HasPart(parts: seq<OssParts.Part>, number: nat) returns (found: bool)
    requires OssParts.Ascending(parts)
    ensures found <==> exists k :: 0 <= k < |parts| && parts[k].number == number
  {
    var lo, hi := 0, |parts|;
    while lo < hi
      invariant 0 <= lo <= hi <= |parts|
      invariant forall k :: 0 <= k < lo ==> parts[k].number < number
      invariant forall k :: hi <= k < |parts| ==> number < parts[k].number
    {
      var mid := (lo + hi) / 2;
      if parts[mid].number == number { return true; }
      if parts[mid].number < number { lo := mid + 1; } else { hi := mid; }
    }
    return false;
  }

  predicate PartsTile(t: Task, local: nat, parts: seq<OssParts.Part>)
    requires 0 < t.chunk
  {
    (forall k :: 0 <= k < |parts| ==> parts[k].number > 0) && Tiles(t, local, Pieces(parts))
  }

  /** `validate_remote_parts_for_resume`: accepts exactly the lists that tile everything before the local offset. */
  method ValidateParts(t: Task, local: nat, parts: seq<OssParts.Part>) returns (ok: bool)
    requires ValidTask(t) && ValidOffset(t, local) && OssParts.Ascending(parts)
    ensures ok <==> PartsTile(t, local, parts)
  {
    var i := 0;
    while i < |parts|
      invariant 0 <= i <= |parts|
      invariant forall k :: 0 <= k < i ==> parts[k].number > 0 && OnGrid(t, AsPiece(parts[k]))
    {
      if parts[i].number > Count(t) || parts[i].number == 0 {
        NotOnGrid(t, parts, i);
        return false;
      }
      if ExpectedSize(t, parts[i].number - 1) != Ok(parts[i].size) {
        NotOnGrid(t, parts, i);
        return false;
      }
      i := i + 1;
    }
    var pieces := Pieces(parts);
    TilesExactly(t, local, pieces);
    var n := 0;
    while n < Needed(t, local)
      invariant 0 <= n <= Needed(t, local)
      invariant forall j :: 0 <= j < n ==> Has(pieces, j)
    {
      var found := HasPart(parts, n + 1);
      if !found {
        assert !Has(pieces, n);
        return false;
      }
      var k :| 0 <= k < |parts| && parts[k].number == n + 1;
      assert pieces[k].index == n;
      n := n + 1;
    }
    return true;
  }

  lemma NotOnGrid(t: Task, parts: seq<OssParts.Part>, i: nat)
    requires 0 < t.chunk && i < |parts| && (parts[i].number > 0 ==> !OnGrid(t, AsPiece(parts[i])))
    ensures !((forall k :: 0 <= k < |parts| ==> parts[k].number > 0) && AllOnGrid(t, Pieces(parts)))
  {
    if forall k :: 0 <= k < |parts| ==> parts[k].number > 0 { assert Pieces(parts)[i] == AsPiece(parts[i]); }
  }

  /** The pages complete a listing of `n` pages whose parts tile everything before the offset. */
  predicate Resumable(t: Task, local: nat, page: nat -> OssParts.RawPage, n: nat)
    requires 0 < t.chunk
  {
    OssParts.Listing(page, n) && PartsTile(t, local, OssParts.All(page, n))
  }

  /** The resume of an adopted session against any server, in a bounded number of requests. */
  method Resume(t: Task, local: nat, page: nat -> OssParts.RawPage) returns (ok: bool, requests: nat)
    requires ValidTask(t)
    ensures requests <= OssParts.MAX_OSS_PAGINATION_REQUESTS
    ensures ok <==> ValidOffset(t, local) && exists n :: Resumable(t, local, page, n)
    ensures ok ==> Resumable(t, local, page, requests)
  {
    if !(local <= t.total && (local == t.total || local % t.chunk == 0)) { return false, 0; }
    var listed;
    listed, requests := OssParts.ListParts(page);
    if listed.Err? { return false, requests; }
    ok := ValidateParts(t, local, listed.value);
    if ok {
      assert Resumable(t, local, page, requests);
    } else {
      forall n ensures !Resumable(t, local, page, n) { if OssParts.Listing(page, n) { OssParts.ListingUnique(page, n, requests); } }
    }
  }
}
