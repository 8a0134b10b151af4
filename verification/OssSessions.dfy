/** Finding the one open multipart session of an object among all pages of the upload listing. */
module OssSessions {
  import opened Results
  import opened Sorting
  import opened ByteStrings
  import OssParts

  /** Object key and upload id. */
  type Entry = (Bytes, Bytes)

  datatype RawPage = RawPage(entries: seq<Entry>, truncated: bool, next: Entry)

  predicate Distinct(entries: seq<Entry>) { forall i, j :: 0 <= i < j < |entries| ==> entries[i] != entries[j] }

  predicate WellFormed(raw: RawPage) {
    && |raw.entries| <= OssParts.MAX_OSS_LIST_ENTRIES && Distinct(raw.entries)
    && (forall i :: 0 <= i < |raw.entries| ==> raw.entries[i].0 != [] && raw.entries[i].1 != [])
    && (raw.truncated ==> raw.next.0 != [])
  }

  /** The upload ids of one object, in listing order. */
  function IdsFor(entries: seq<Entry>, key: Bytes): seq<Bytes> {
    if entries == [] then []
    else
      var rest := IdsFor(entries[..|entries| - 1], key);
      if entries[|entries| - 1].0 == key then rest + [entries[|entries| - 1].1] else rest
  }

  /** `parse_upload_page_for_key`, from the parsed texts on. */
  method ParsePage(raw: RawPage, key: Bytes) returns (r: Result<seq<Bytes>>)
    ensures r.Ok? <==> WellFormed(raw)
    ensures r.Ok? ==> r.value == IdsFor(raw.entries, key)
  {
    if |raw.entries| > OssParts.MAX_OSS_LIST_ENTRIES { return Err; }
    var ids: seq<Bytes>, seen: set<Entry>, i := [], {}, 0;
    while i < |raw.entries|
      invariant 0 <= i <= |raw.entries| && Distinct(raw.entries[..i]) && ids == IdsFor(raw.entries[..i], key)
      invariant forall e :: e in seen <==> e in raw.entries[..i]
      invariant forall k :: 0 <= k < i ==> raw.entries[k].0 != [] && raw.entries[k].1 != []
    {
      var e := raw.entries[i];
      if e.0 == [] || e.1 == [] { return Err; }
      if e in seen {
        var k :| 0 <= k < i && raw.entries[..i][k] == e;
        assert raw.entries[k] == raw.entries[i];
        return Err;
      }
      assert raw.entries[..i + 1] == raw.entries[..i] + [e] && raw.entries[..i + 1][..i] == raw.entries[..i];
      seen := seen + {e};
      if e.0 == key { ids := ids + [e.1]; }
      i := i + 1;
    }
    assert raw.entries[..i] == raw.entries;
    if raw.truncated && raw.next.0 == [] { return Err; }
    r := Ok(ids);
  }

  predicate PairLess(a: Entry, b: Entry) { PairLe(a, b) && a != b }

  predicate Advancing(markers: seq<Entry>) { forall i, j :: 0 <= i < j < |markers| ==> PairLess(markers[i], markers[j]) }

  // ---------------------------------------------------------------- a server that lists in order

  predicate Ordered(listing: seq<Entry>) { forall i, j :: 0 <= i < j < |listing| ==> PairLess(listing[i], listing[j]) }

  /** From page `k` on the server returns `listing` in pages, and each marker is the last entry of its page. */
  predicate Serves(page: nat -> RawPage, k: nat, listing: seq<Entry>)
    decreases |listing|
  {
    var raw := page(k);
    && |raw.entries| <= OssParts.MAX_OSS_LIST_ENTRIES
    && if raw.truncated then
        raw.entries != [] && raw.entries <= listing && raw.next == raw.entries[|raw.entries| - 1] &&
        Serves(page, k + 1, listing[|raw.entries|..])
      else raw.entries == listing
  }

  /** What the listing of a prefix may hold: complete entries at or after the key that is the prefix, in order. */
  predicate ListingFor(listing: seq<Entry>, key: Bytes) {
    Ordered(listing) && forall i :: 0 <= i < |listing| ==> LexLe(key, listing[i].0) && listing[i].0 != [] && listing[i].1 != []
  }

  function Exact(ids: seq<Bytes>): Result<Option<Bytes>> {
    if ids == [] then Ok(None) else if |ids| == 1 then Ok(Some(ids[0])) else Err
  }

  lemma {:induction false} IdsForConcat(a: seq<Entry>, b: seq<Entry>, key: Bytes)
    ensures IdsFor(a + b, key) == IdsFor(a, key) + IdsFor(b, key)
  {
    if b == [] {
      assert a + b == a;
    } else {
      var n := |b| - 1;
      IdsForConcat(a, b[..n], key);
      assert (a + b)[..|a| + n] == a + b[..n];
    }
  }

  lemma {:induction false} NoIdsPast(entries: seq<Entry>, key: Bytes)
    requires forall i :: 0 <= i < |entries| ==> entries[i].0 != key
    ensures IdsFor(entries, key) == []
  {
    if entries != [] { NoIdsPast(entries[..|entries| - 1], key); }
  }

  lemma {:induction false} AllIds(entries: seq<Entry>, key: Bytes)
    requires forall i :: 0 <= i < |entries| ==> entries[i].0 == key
    ensures |IdsFor(entries, key)| == |entries|
  {
    if entries != [] { AllIds(entries[..|entries| - 1], key); }
  }

  /** One page of an ordered listing: parsable, and what its marker says about the rest. */
  lemma OrderedPage(raw: RawPage, listing: seq<Entry>, key: Bytes)
    requires ListingFor(listing, key) && raw.entries <= listing && |raw.entries| <= OssParts.MAX_OSS_LIST_ENTRIES
    requires raw.truncated ==> raw.entries != [] && raw.next == raw.entries[|raw.entries| - 1]
    ensures WellFormed(raw) && ListingFor(listing[|raw.entries|..], key)
    ensures IdsFor(listing, key) == IdsFor(raw.entries, key) + IdsFor(listing[|raw.entries|..], key)
    ensures raw.truncated ==> LexLe(key, raw.next.0) && raw.next.1 != []
    ensures raw.truncated && raw.next.0 != key ==> IdsFor(listing[|raw.entries|..], key) == []
    ensures raw.truncated && raw.next.0 == key ==> |IdsFor(raw.entries, key)| == |raw.entries|
  {
    LexOrder();
    var n := |raw.entries|;
    assert listing == raw.entries + listing[n..];
    IdsForConcat(raw.entries, listing[n..], key);
    if raw.truncated {
      assert raw.next == listing[n - 1];
      if raw.next.0 != key {
        forall i | 0 <= i < |listing[n..]| ensures listing[n..][i].0 != key { assert PairLess(listing[n - 1], listing[n + i]); }
        NoIdsPast(listing[n..], key);
      } else {
        forall i | 0 <= i < n ensures raw.entries[i].0 == key { assert i < n - 1 ==> PairLess(listing[i], listing[n - 1]); }
        AllIds(raw.entries, key);
      }
    }
  }

  // ---------------------------------------------------------------- the search

  /** The key's upload ids on the first `n` pages. */
  function Seen(page: nat -> RawPage, key: Bytes, n: nat): seq<Bytes> {
    if n == 0 then [] else Seen(page, key, n - 1) + IdsFor(page(n - 1).entries, key)
  }

  /**
   * `try_adopt_upload_id_from_list`. Whatever the server answers, the markers it is asked with strictly advance and an
   * accepted answer is the only id on the pages read, or none.
   * `listing` names what an ordered server would return; then the answer is exact.
   */
  method TryAdopt(page: nat -> RawPage, key: Bytes, ghost listing: seq<Entry>)
    returns (r: Result<Option<Bytes>>, markers: seq<Entry>)
    ensures |markers| < OssParts.MAX_OSS_PAGINATION_REQUESTS || r.Err?
    ensures Advancing(markers) && forall i :: 0 <= i < |markers| ==> markers[i].0 == key
    ensures r.Ok? ==> r == Exact(Seen(page, key, |markers| + 1))
    ensures ListingFor(listing, key) && Serves(page, 0, listing) ==> r == Exact(IdsFor(listing, key))
  {
    markers := [];
    var found: seq<Bytes> := [];
    ghost var rest := listing;
    ghost var ordered := ListingFor(listing, key) && Serves(page, 0, listing);
    while |markers| < OssParts.MAX_OSS_PAGINATION_REQUESTS
      invariant |markers| <= OssParts.MAX_OSS_PAGINATION_REQUESTS && |found| <= 1 && found == Seen(page, key, |markers|)
      invariant Advancing(markers) && forall i :: 0 <= i < |markers| ==> markers[i].0 == key
      invariant ordered ==> Upcoming(page, key, listing, found, rest, markers)
      decreases OssParts.MAX_OSS_PAGINATION_REQUESTS - |markers|
    {
      var turn := Turn(page, key, markers, found, listing, rest, ordered);
      match turn
      case Stop(answer) => return answer, markers;
      case Go(more) =>
        if ordered { rest := rest[|page(|markers|).entries|..]; }
        found, markers := more, markers + [page(|markers|).next];
    }
    r := Err;
  }

  datatype TurnOutcome = Stop(answer: Result<Option<Bytes>>) | Go(found: seq<Bytes>)

  /** One turn of the pagination loop. */
  method Turn(page: nat -> RawPage, key: Bytes, markers: seq<Entry>, found: seq<Bytes>,
              ghost listing: seq<Entry>, ghost rest: seq<Entry>, ghost ordered: bool)
    returns (turn: TurnOutcome)
    requires |found| <= 1 && found == Seen(page, key, |markers|) && Advancing(markers)
    requires ordered ==> Upcoming(page, key, listing, found, rest, markers)
    ensures turn.Stop? && turn.answer.Ok? ==> turn.answer == Exact(Seen(page, key, |markers| + 1))
    ensures turn.Stop? && ordered ==> turn.answer == Exact(IdsFor(listing, key))
    ensures turn.Go? ==> |turn.found| <= 1 && turn.found == Seen(page, key, |markers| + 1)
    ensures turn.Go? ==> page(|markers|).next.0 == key && Advancing(markers + [page(|markers|).next])
    ensures turn.Go? && ordered ==> |page(|markers|).entries| <= |rest|
    ensures turn.Go? && ordered ==>
      Upcoming(page, key, listing, turn.found, rest[|page(|markers|).entries|..], markers + [page(|markers|).next])
  {
    var raw := page(|markers|);
    if ordered { TurnExact(page, key, listing, found, rest, markers); }
    var ids := ParsePage(raw, key);
    if ids.Err? { return Stop(Err); }
    if |found| + |ids.value| > 1 { return Stop(Err); }
    var all := found + ids.value;
    if !raw.truncated { return Stop(Exact(all)); }
    if LexLess(raw.next.0, key) { return Stop(Err); }
    if LexLess(key, raw.next.0) { return Stop(Exact(all)); }
    KeyIsEqual(raw.next.0, key);
    if ordered { GoOn(page, key, listing, found, rest, markers); }
    if raw.next.1 == [] || (markers != [] && PairLe(raw.next, markers[|markers| - 1])) { return Stop(Err); }
    AdvanceMarkers(markers, raw.next);
    turn := Go(all);
  }

  /** What is still to come from an ordered server after the pages read so far. */
  predicate Upcoming(page: nat -> RawPage, key: Bytes, listing: seq<Entry>, found: seq<Bytes>, rest: seq<Entry>, markers: seq<Entry>) {
    && ListingFor(rest, key) && Serves(page, |markers|, rest)
    && IdsFor(listing, key) == found + IdsFor(rest, key)
    && |markers| <= |found|
    && (markers != [] ==> forall i :: 0 <= i < |rest| ==> PairLess(markers[|markers| - 1], rest[i]))
  }

  /** Going on after a page whose marker still names the key keeps the rest of the listing accounted for. */
  lemma GoOn(page: nat -> RawPage, key: Bytes, listing: seq<Entry>, found: seq<Bytes>, rest: seq<Entry>, markers: seq<Entry>)
    requires Upcoming(page, key, listing, found, rest, markers)
    requires var raw := page(|markers|); raw.truncated && raw.next.0 == key
    ensures
      var raw := page(|markers|);
      && raw.next.1 != [] && (markers == [] || !PairLe(raw.next, markers[|markers| - 1])) && |raw.entries| <= |rest|
      && Upcoming(page, key, listing, found + IdsFor(raw.entries, key), rest[|raw.entries|..], markers + [raw.next])
  {
    var raw := page(|markers|);
    var ids, n := IdsFor(raw.entries, key), |raw.entries|;
    OrderedPage(raw, rest, key);
    assert found + IdsFor(rest, key) == found + ids + IdsFor(rest[n..], key);
    assert raw.next == rest[n - 1];
    if markers != [] { NotBack(markers[|markers| - 1], raw.next); }
    forall i | 0 <= i < |rest[n..]| ensures PairLess(raw.next, rest[n..][i]) { assert rest[n..][i] == rest[n + i]; }
  }

  /** One turn against an ordered server: every exit is exact. */
  lemma TurnExact(page: nat -> RawPage, key: Bytes, listing: seq<Entry>, found: seq<Bytes>, rest: seq<Entry>, markers: seq<Entry>)
    requires Upcoming(page, key, listing, found, rest, markers)
    ensures
      var raw := page(|markers|);
      var ids := IdsFor(raw.entries, key);
      && WellFormed(raw)
      && |found| + |ids| <= |IdsFor(listing, key)|
      && (raw.truncated ==> !LexLess(raw.next.0, key))
      && (!raw.truncated || raw.next.0 != key ==> IdsFor(listing, key) == found + ids)
  {
    var raw := page(|markers|);
    OrderedPage(raw, rest, key);
    SplitIds(IdsFor(listing, key), found, IdsFor(rest, key), IdsFor(raw.entries, key), IdsFor(rest[|raw.entries|..], key));
    if raw.truncated { NotBelow(key, raw.next.0); } else { assert rest[|raw.entries|..] == []; }
  }

  lemma SplitIds(all: seq<Bytes>, found: seq<Bytes>, rest: seq<Bytes>, ids: seq<Bytes>, later: seq<Bytes>)
    requires all == found + rest && rest == ids + later
    ensures all == found + ids + later && |found| + |ids| <= |all| && (later == [] ==> all == found + ids)
  {}

  lemma NotBack(a: Entry, b: Entry)
    requires PairLess(a, b)
    ensures !PairLe(b, a)
  {
    PairOrder();
  }

  lemma NotBelow(a: Bytes, b: Bytes)
    requires LexLe(a, b)
    ensures !LexLess(b, a)
  {
    LexOrder();
  }

  lemma KeyIsEqual(a: Bytes, b: Bytes)
    requires !LexLess(a, b) && !LexLess(b, a)
    ensures a == b
  {
    LexOrder();
  }

  lemma AdvanceMarkers(markers: seq<Entry>, next: Entry)
    requires Advancing(markers) && (markers != [] ==> !PairLe(next, markers[|markers| - 1]))
    ensures Advancing(markers + [next])
  {
    PairOrder();
  }
}
