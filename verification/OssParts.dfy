/** Listing the parts of an OSS multipart session and checking them against the task's chunk grid. */
module OssParts {
  import opened Results
  import opened Sorting

  const MAX_OSS_PART_NUMBER: nat := 10_000
  const MAX_OSS_PAGINATION_REQUESTS: nat := MAX_OSS_PART_NUMBER
  const MAX_OSS_LIST_ENTRIES: nat := 1_000

  datatype Part = Part(number: nat, size: nat)

  /** A page as it stands in the XML document, after its numbers were parsed. */
  datatype RawPage = RawPage(entries: seq<Part>, truncated: bool, marker: nat)

  // ---------------------------------------------------------------- one page

  predicate PartLe(a: Part, b: Part) { a.number < b.number || (a.number == b.number && a.size <= b.size) }

  predicate Ascending(parts: seq<Part>) { forall i, j :: 0 <= i < j < |parts| ==> parts[i].number < parts[j].number }

  predicate Distinct(parts: seq<Part>) { forall i, j :: 0 <= i < j < |parts| ==> parts[i].number != parts[j].number }

  /** What a page must satisfy to be parsed at all. */
  predicate WellFormed(raw: RawPage) {
    && |raw.entries| <= MAX_OSS_LIST_ENTRIES && Distinct(raw.entries)
    && (forall i :: 0 <= i < |raw.entries| ==> raw.entries[i].number > 0 && raw.entries[i].size > 0)
    && (raw.truncated ==> raw.marker > 0)
  }

  function PageParts(raw: RawPage): seq<Part> { Sort(raw.entries, PartLe) }

  lemma {:induction false} InsertMembers(x: Part, xs: seq<Part>, y: Part)
    ensures y in Insert(x, xs, PartLe) <==> y == x || y in xs
  {
    InsertContents(x, xs, PartLe);
    assert y in Insert(x, xs, PartLe) <==> y in multiset(Insert(x, xs, PartLe));
  }

  lemma {:induction false} InsertAscending(x: Part, xs: seq<Part>)
    requires Ascending(xs) && forall i :: 0 <= i < |xs| ==> xs[i].number != x.number
    ensures Ascending(Insert(x, xs, PartLe))
  {
    if xs != [] && !PartLe(x, xs[0]) {
      InsertAscending(x, xs[1..]);
      var rest := Insert(x, xs[1..], PartLe);
      forall y | y in rest ensures xs[0].number < y.number {
        InsertMembers(x, xs[1..], y);
      }
    }
  }

  /** Sorting by number makes a page without repeats strictly ascending and keeps its entries. */
  lemma {:induction false} SortAscending(entries: seq<Part>)
    requires Distinct(entries)
    ensures Ascending(Sort(entries, PartLe))
    ensures forall y :: y in Sort(entries, PartLe) <==> y in entries
  {
    if entries != [] {
      var rest := Sort(entries[1..], PartLe);
      SortAscending(entries[1..]);
      forall i | 0 <= i < |rest| ensures rest[i].number != entries[0].number { assert rest[i] in entries[1..]; }
      InsertAscending(entries[0], rest);
      forall y ensures y in Sort(entries, PartLe) <==> y in entries { InsertMembers(entries[0], rest, y); }
    }
  }

  /** `parse_part_page`, from the parsed numbers on: the loop with its `seen` set, then the sort. */
  method ParsePage(raw: RawPage) returns (r: Result<seq<Part>>)
    ensures r.Ok? <==> WellFormed(raw)
    ensures r.Ok? ==> r.value == PageParts(raw) && Ascending(r.value)
  {
    if |raw.entries| > MAX_OSS_LIST_ENTRIES { return Err; }
    var seen: set<nat>, parts: seq<Part>, i := {}, [], 0;
    while i < |raw.entries|
      invariant 0 <= i <= |raw.entries| && parts == raw.entries[..i] && Distinct(parts)
      invariant seen == set p | p in parts :: p.number
      invariant forall k :: 0 <= k < i ==> raw.entries[k].number > 0 && raw.entries[k].size > 0
    {
      var part := raw.entries[i];
      if part.number == 0 || part.size == 0 { return Err; }
      if part.number in seen {
        var p :| p in parts && p.number == part.number;
        return Err;
      }
      seen := seen + {part.number};
      assert forall k :: 0 <= k < |parts| ==> parts[k] in parts;
      parts := parts + [part];
      i := i + 1;
    }
    assert parts == raw.entries;
    SortAscending(parts);
    if raw.truncated && raw.marker == 0 { return Err; }
    r := Ok(Sort(parts, PartLe));
  }

  // ---------------------------------------------------------------- all pages

  /** The part number after which page `k` continues; 0 stands for no marker. */
  function MarkerAt(page: nat -> RawPage, k: nat): nat { if k == 0 then 0 else page(k - 1).marker }

  predicate After(raw: RawPage, marker: nat) { forall i :: 0 <= i < |raw.entries| ==> raw.entries[i].number > marker }

  /** A page that is followed by another one: its marker is its last part number. */
  predicate Continues(raw: RawPage, marker: nat) {
    && WellFormed(raw) && After(raw, marker) && raw.truncated && marker < raw.marker <= MAX_OSS_PART_NUMBER
    && raw.entries != [] && (exists i :: 0 <= i < |raw.entries| && raw.entries[i].number == raw.marker)
    && (forall i :: 0 <= i < |raw.entries| ==> raw.entries[i].number <= raw.marker)
  }

  predicate Ends(raw: RawPage, marker: nat) { WellFormed(raw) && After(raw, marker) && !raw.truncated }

  function All(page: nat -> RawPage, n: nat): seq<Part> { if n == 0 then [] else All(page, n - 1) + PageParts(page(n - 1)) }

  /** The first `n` pages form a complete listing. */
  predicate Listing(page: nat -> RawPage, n: nat) {
    && 1 <= n <= MAX_OSS_PAGINATION_REQUESTS
    && AllContinue(page, n - 1)
    && Ends(page(n - 1), MarkerAt(page, n - 1)) && |All(page, n)| <= MAX_OSS_PART_NUMBER
  }

  lemma PageBounds(raw: RawPage, marker: nat)
    requires WellFormed(raw) && After(raw, marker)
    ensures Ascending(PageParts(raw)) && forall i :: 0 <= i < |PageParts(raw)| ==> PageParts(raw)[i].number > marker
  {
    SortAscending(raw.entries);
    forall i | 0 <= i < |PageParts(raw)| ensures PageParts(raw)[i].number > marker { assert PageParts(raw)[i] in raw.entries; }
  }

  /** The marker of a page is its last part exactly when the page may continue. */
  lemma LastIsMarker(raw: RawPage, marker: nat)
    requires WellFormed(raw) && After(raw, marker) && raw.truncated
    ensures Continues(raw, marker) <==>
      marker < raw.marker <= MAX_OSS_PART_NUMBER && PageParts(raw) != [] && PageParts(raw)[|PageParts(raw)| - 1].number == raw.marker
  {
    var parts := PageParts(raw);
    SortAscending(raw.entries);
    assert parts != [] ==> parts[|parts| - 1] in raw.entries;
    assert raw.entries != [] ==> raw.entries[0] in parts;
    forall i | 0 <= i < |raw.entries| ensures parts != [] && raw.entries[i].number <= parts[|parts| - 1].number { assert raw.entries[i] in parts; }
    if parts != [] { var i :| 0 <= i < |raw.entries| && raw.entries[i] == parts[|parts| - 1]; }
  }

  lemma Join(a: seq<Part>, b: seq<Part>, marker: nat)
    requires Ascending(a) && Ascending(b)
    requires (forall i :: 0 <= i < |a| ==> a[i].number <= marker) && forall i :: 0 <= i < |b| ==> b[i].number > marker
    ensures Ascending(a + b)
  {}

  predicate AllContinue(page: nat -> RawPage, n: nat) {
    n == 0 || (AllContinue(page, n - 1) && Continues(page(n - 1), MarkerAt(page, n - 1)))
  }

  lemma {:induction false} EachContinues(page: nat -> RawPage, n: nat, k: nat)
    requires AllContinue(page, n) && k < n
    ensures Continues(page(k), MarkerAt(page, k))
  {
    if k < n - 1 { EachContinues(page, n - 1, k); }
  }

  lemma UpToMarker(raw: RawPage, marker: nat)
    requires Continues(raw, marker)
    ensures forall i :: 0 <= i < |PageParts(raw)| ==> PageParts(raw)[i].number <= raw.marker
  {
    var parts := PageParts(raw);
    SortAscending(raw.entries);
    forall i | 0 <= i < |parts| ensures parts[i].number <= raw.marker { assert parts[i] in raw.entries; }
  }

  /** Strictly ascending pages above a common marker join to a strictly ascending list. */
  lemma {:induction false} AllAscending(page: nat -> RawPage, n: nat)
    requires AllContinue(page, n)
    ensures Ascending(All(page, n)) && forall i :: 0 <= i < |All(page, n)| ==> All(page, n)[i].number <= MarkerAt(page, n)
  {
    if n > 0 {
      AllAscending(page, n - 1);
      assert Continues(page(n - 1), MarkerAt(page, n - 1));
      PageBounds(page(n - 1), MarkerAt(page, n - 1));
      UpToMarker(page(n - 1), MarkerAt(page, n - 1));
      Join(All(page, n - 1), PageParts(page(n - 1)), MarkerAt(page, n - 1));
    }
  }

  lemma {:induction false} AllGrows(page: nat -> RawPage, k: nat, n: nat)
    requires k <= n
    ensures All(page, k) <= All(page, n)
  {
    if k < n { AllGrows(page, k, n - 1); }
  }

  predicate Broken(page: nat -> RawPage, k: nat) {
    (!Continues(page(k), MarkerAt(page, k)) && !Ends(page(k), MarkerAt(page, k))) || |All(page, k + 1)| > MAX_OSS_PART_NUMBER
  }

  /** Once a page neither continues nor ends the listing, or the listing got too long, no page count is complete. */
  lemma NoListing(page: nat -> RawPage, k: nat, n: nat)
    requires AllContinue(page, k) && Broken(page, k)
    ensures !Listing(page, n)
  {
    if 1 <= n {
      if n - 1 < k { EachContinues(page, k, n - 1); }
      if k + 1 <= n { AllGrows(page, k + 1, n); }
      if k < n - 1 && AllContinue(page, n - 1) { EachContinues(page, n - 1, k); }
    }
  }

  lemma BrokenForGood(page: nat -> RawPage, k: nat)
    requires AllContinue(page, k) && Broken(page, k)
    ensures !Listable(page)
  {
    forall n ensures !Listing(page, n) { NoListing(page, k, n); }
  }

  lemma TooManyPages(page: nat -> RawPage, k: nat)
    requires AllContinue(page, k) && k >= MAX_OSS_PAGINATION_REQUESTS
    ensures !Listable(page)
  {
    forall n ensures !Listing(page, n) { StillContinuing(page, k, n); }
  }

  lemma StillContinuing(page: nat -> RawPage, k: nat, n: nat)
    requires AllContinue(page, k) && k >= MAX_OSS_PAGINATION_REQUESTS
    ensures !Listing(page, n)
  {
    if 1 <= n <= k {
      EachContinues(page, k, n - 1);
      assert !Ends(page(n - 1), MarkerAt(page, n - 1));
    }
  }

  /** A server's pages complete at most one listing. */
  lemma ListingUnique(page: nat -> RawPage, n: nat, m: nat)
    requires Listing(page, n) && Listing(page, m)
    ensures n == m
  {
    if n < m { EachContinues(page, m - 1, n - 1); }
    if m < n { EachContinues(page, n - 1, m - 1); }
  }

  ghost predicate Listable(page: nat -> RawPage) { exists n :: Listing(page, n) }

  /**
   * `list_uploaded_parts` against any server: `page(k)` answers the k-th request. It succeeds exactly on a complete
   * listing, and then returns the strictly ascending concatenation of all pages.
   */
  method ListParts(page: nat -> RawPage) returns (r: Result<seq<Part>>, requests: nat)
    ensures requests <= MAX_OSS_PAGINATION_REQUESTS
    ensures r.Ok? <==> Listable(page)
    ensures r.Ok? ==> Listing(page, requests) && r.value == All(page, requests) && Ascending(r.value)
  {
    var parts: seq<Part> := [];
    requests := 0;
    while requests < MAX_OSS_PAGINATION_REQUESTS
      invariant 0 <= requests <= MAX_OSS_PAGINATION_REQUESTS
      invariant AllContinue(page, requests) && parts == All(page, requests) && |parts| <= MAX_OSS_PART_NUMBER
    {
      var outcome;
      outcome, parts := TakePage(page, requests, parts);
      requests := requests + 1;
      match outcome
      case Bad =>
        BrokenForGood(page, requests - 1);
        return Err, requests;
      case Last =>
        assert Listing(page, requests);
        return Ok(parts), requests;
      case More =>
    }
    TooManyPages(page, requests);
    r := Err;
  }

  datatype PageOutcome = Bad | Last | More

  /** One turn of the pagination loop. */
  method TakePage(page: nat -> RawPage, k: nat, parts: seq<Part>) returns (outcome: PageOutcome, joined: seq<Part>)
    requires AllContinue(page, k) && parts == All(page, k) && |parts| <= MAX_OSS_PART_NUMBER
    ensures outcome.Bad? ==> Broken(page, k)
    ensures !outcome.Bad? ==> joined == All(page, k + 1) && |joined| <= MAX_OSS_PART_NUMBER && Ascending(joined)
    ensures outcome.Last? ==> Ends(page(k), MarkerAt(page, k))
    ensures outcome.More? ==> AllContinue(page, k + 1)
  {
    joined := parts;
    var raw, marker := page(k), MarkerAt(page, k);
    var parsed := ParsePage(raw);
    if parsed.Err? { return Bad, joined; }
    AllAscending(page, k);
    var ok := Accept(parts, parsed.value, marker);
    if !ok {
      RejectedPage(page, k);
      return Bad, joined;
    }
    AcceptedPage(raw, marker);
    PageBounds(raw, marker);
    joined := parts + parsed.value;
    Join(parts, parsed.value, marker);
    if !raw.truncated { return Last, joined; }
    LastIsMarker(raw, marker);
    if raw.marker > MAX_OSS_PART_NUMBER || raw.marker <= marker || parsed.value == [] || parsed.value[|parsed.value| - 1].number != raw.marker {
      return Bad, joined;
    }
    outcome := More;
  }

  /** The insertion loop: a part at or below the marker, a repeated part or one too many is refused. */
  method Accept(parts: seq<Part>, new_: seq<Part>, marker: nat) returns (ok: bool)
    requires Ascending(parts) && Ascending(new_) && forall i :: 0 <= i < |parts| ==> parts[i].number <= marker
    ensures ok <==> (forall i :: 0 <= i < |new_| ==> new_[i].number > marker) && (new_ != [] ==> |parts| + |new_| <= MAX_OSS_PART_NUMBER)
  {
    var i := 0;
    while i < |new_|
      invariant 0 <= i <= |new_| && (i > 0 ==> |parts| + i <= MAX_OSS_PART_NUMBER)
      invariant forall j :: 0 <= j < i ==> new_[j].number > marker
    {
      if new_[i].number <= marker { return false; }
      if |parts| + i + 1 > MAX_OSS_PART_NUMBER { return false; }
      i := i + 1;
    }
    return true;
  }

  lemma AcceptedPage(raw: RawPage, marker: nat)
    requires WellFormed(raw) && forall i :: 0 <= i < |PageParts(raw)| ==> PageParts(raw)[i].number > marker
    ensures After(raw, marker)
  {
    SortAscending(raw.entries);
    forall i | 0 <= i < |raw.entries| ensures raw.entries[i].number > marker { assert raw.entries[i] in PageParts(raw); }
  }

  lemma RejectedPage(page: nat -> RawPage, k: nat)
    requires WellFormed(page(k))
    requires var parts := PageParts(page(k));
      (exists i :: 0 <= i < |parts| && parts[i].number <= MarkerAt(page, k)) || |All(page, k + 1)| > MAX_OSS_PART_NUMBER
    ensures Broken(page, k)
  {
    if After(page(k), MarkerAt(page, k)) { PageBounds(page(k), MarkerAt(page, k)); }
  }
}
