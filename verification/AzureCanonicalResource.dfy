/** The canonicalized resource of an Azure Shared Key signature. */
module AzureCanonicalResource {
  import opened Sorting
  import opened ByteStrings
  import opened IdentityFraming

  type Pair = Header

  function Comma(values: seq<Bytes>): Bytes {
    if values == [] then [] else if |values| == 1 then values[0] else values[0] + [44] + Comma(values[1..])
  }

  /** Every group's values in ascending order. */
  function SortValues(groups: seq<Group>): seq<Group> {
    if groups == [] then [] else [Group(groups[0].name, Sort(groups[0].values, LexLe))] + SortValues(groups[1..])
  }

  /** Line feed, name, colon, values joined by commas. */
  function Lines(groups: seq<Group>): Bytes {
    if groups == [] then [] else [10] + groups[0].name + [58] + Comma(groups[0].values) + Lines(groups[1..])
  }

  function CanonicalResource(prefix: Bytes, pairs: seq<Pair>): Bytes { prefix + Lines(SortValues(GroupAll(pairs))) }

  // ---------------------------------------------------------------- independence of the order of pairs

  lemma {:induction false} ValuesForConcat(a: seq<Pair>, b: seq<Pair>, name: Bytes)
    ensures ValuesFor(a + b, name) == ValuesFor(a, name) + ValuesFor(b, name)
  {
    if b == [] {
      assert a + b == a;
    } else {
      var n := |b| - 1;
      ValuesForConcat(a, b[..n], name);
      assert (a + b)[..|a| + n] == a + b[..n];
    }
  }

  lemma FirstOut(x: Pair, xs: seq<Pair>, name: Bytes)
    ensures multiset(ValuesFor([x] + xs, name)) == multiset(ValuesFor([x], name)) + multiset(ValuesFor(xs, name))
  {
    ValuesForConcat([x], xs, name);
  }

  lemma {:induction false} ValuesForInsert(x: Pair, xs: seq<Pair>, name: Bytes)
    ensures multiset(ValuesFor(Insert(x, xs, PairLe), name)) == multiset(ValuesFor([x], name)) + multiset(ValuesFor(xs, name))
  {
    if xs == [] || PairLe(x, xs[0]) {
      FirstOut(x, xs, name);
    } else {
      ValuesForInsert(x, xs[1..], name);
      FirstOut(xs[0], Insert(x, xs[1..], PairLe), name);
      FirstOut(xs[0], xs[1..], name);
      assert xs == [xs[0]] + xs[1..];
    }
  }

  /** Sorting the pairs does not change which values a name has. */
  lemma {:induction false} ValuesForSort(pairs: seq<Pair>, name: Bytes)
    ensures multiset(ValuesFor(Sort(pairs, PairLe), name)) == multiset(ValuesFor(pairs, name))
  {
    if pairs != [] {
      ValuesForSort(pairs[1..], name);
      ValuesForInsert(pairs[0], Sort(pairs[1..], PairLe), name);
      FirstOut(pairs[0], pairs[1..], name);
      assert pairs == [pairs[0]] + pairs[1..];
    }
  }

  lemma ValuesForPermuted(a: seq<Pair>, b: seq<Pair>, name: Bytes)
    requires multiset(a) == multiset(b)
    ensures multiset(ValuesFor(a, name)) == multiset(ValuesFor(b, name))
  {
    PairOrder();
    SortByContents(a, b, PairLe);
    ValuesForSort(a, name);
    ValuesForSort(b, name);
  }

  lemma {:induction false} SortValuesIs(groups: seq<Group>, name: Bytes)
    requires MapLike(groups)
    ensures MapLike(SortValues(groups)) && Lookup(SortValues(groups), name) == Sort(Lookup(groups, name), LexLe)
    ensures forall below :: Above(below, groups) ==> Above(below, SortValues(groups))
  {
    if groups != [] {
      SortValuesIs(groups[1..], name);
      SortContents(groups[0].values, LexLe);
      assert multiset(groups[0].values) != multiset{} by { assert groups[0].values[0] in multiset(groups[0].values); }
      assert SortValues(groups)[1..] == SortValues(groups[1..]);
    }
  }

  /** Any permutation of the decoded query pairs is signed alike. */
  lemma ResourceIgnoresOrder(prefix: Bytes, a: seq<Pair>, b: seq<Pair>)
    requires multiset(a) == multiset(b)
    ensures CanonicalResource(prefix, a) == CanonicalResource(prefix, b)
  {
    LexOrder();
    var x, y := SortValues(GroupAll(a)), SortValues(GroupAll(b));
    forall name ensures MapLike(x) && MapLike(y) && Lookup(x, name) == Lookup(y, name) {
      GroupAllIs(a, name);
      GroupAllIs(b, name);
      SortValuesIs(GroupAll(a), name);
      SortValuesIs(GroupAll(b), name);
      ValuesForPermuted(a, b, name);
      SortByContents(ValuesFor(a, name), ValuesFor(b, name), LexLe);
    }
    assert Lookup(x, []) == Lookup(y, []);
    MapExtensional(x, y);
  }

  /** `canonicalized_resource`: fill the ordered map, then sort and append group by group. */
  method BuildResource(prefix: Bytes, pairs: seq<Pair>) returns (out: Bytes)
    ensures out == CanonicalResource(prefix, pairs)
  {
    var groups: seq<Group>, i := [], 0;
    while i < |pairs|
      invariant 0 <= i <= |pairs| && groups == GroupAll(pairs[..i])
    {
      assert pairs[..i + 1][..i] == pairs[..i];
      groups := Add(groups, Lower(pairs[i].0), pairs[i].1);
      i := i + 1;
    }
    assert pairs[..i] == pairs;
    out := prefix;
    i := 0;
    while i < |groups|
      invariant 0 <= i <= |groups| && out + Lines(SortValues(groups[i..])) == prefix + Lines(SortValues(groups))
    {
      assert groups[i..][1..] == groups[i + 1..];
      var g := groups[i];
      var values := Sort(g.values, LexLe);
      assert SortValues(groups[i..])[1..] == SortValues(groups[i + 1..]);
      Regroup(out, [10] + g.name + [58] + Comma(values), Lines(SortValues(groups[i + 1..])));
      out := out + ([10] + g.name + [58] + Comma(values));
      i := i + 1;
    }
  }
}
