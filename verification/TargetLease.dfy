/** Exclusive ownership of a download target through one lock file per key. */
module TargetLease {
  import opened Sorting
  import opened ByteStrings

  type Key = Bytes

  predicate Ascending(keys: seq<Key>) {
    forall i, j :: 0 <= i < j < |keys| ==> LexLess(keys[i], keys[j])
  }

  // ---------------------------------------------------------------- one acquisition on its own

  /** Removes repeats from a sorted sequence. */
  method Dedup(keys: seq<Key>) returns (r: seq<Key>)
    requires Sorted(keys, LexLe)
    ensures Ascending(r) && forall k :: k in r <==> k in keys
  {
    LexOrder();
    r := [];
    var i := 0;
    while i < |keys|
      invariant 0 <= i <= |keys| && Ascending(r)
      invariant forall k :: k in r <==> k in keys[..i]
      invariant r != [] ==> 0 < i && r[|r| - 1] == keys[i - 1]
      invariant 0 < i ==> r != []
    {
      if r == [] || r[|r| - 1] != keys[i] {
        assert forall j :: 0 <= j < |r| ==> LexLe(r[j], keys[i]) && r[j] != keys[i] by { DedupStep(keys, i, r); }
        r := r + [keys[i]];
      }
      assert keys[..i + 1] == keys[..i] + [keys[i]];
      i := i + 1;
    }
    assert keys[..i] == keys;
  }

  lemma DedupStep(keys: seq<Key>, i: nat, r: seq<Key>)
    requires Sorted(keys, LexLe) && i < |keys| && Ascending(r)
    requires forall k :: k in r ==> k in keys[..i]
    requires r != [] ==> r[|r| - 1] != keys[i]
    ensures forall j :: 0 <= j < |r| ==> LexLe(r[j], keys[i]) && r[j] != keys[i]
  {
    LexOrder();
    forall j | 0 <= j < |r| ensures LexLe(r[j], keys[i]) && r[j] != keys[i] {
      assert r[j] in keys[..i];
      if j < |r| - 1 {
        assert r[|r| - 1] in keys[..i];
        assert LexLess(r[j], r[|r| - 1]) && LexLe(r[|r| - 1], keys[i]);
      }
    }
  }

  /** `keys.sort(); keys.dedup()`. */
  method SortKeys(wanted: seq<Key>) returns (keys: seq<Key>)
    ensures Ascending(keys) && forall k :: k in keys <==> k in wanted
  {
    LexOrder();
    SortSorted(wanted, LexLe);
    SortContents(wanted, LexLe);
    var sorted := Sort(wanted, LexLe);
    keys := Dedup(sorted);
    forall k ensures k in keys <==> k in wanted { MemberByContents(sorted, wanted, k); }
  }

  function Claims(keys: seq<Key>, me: nat): map<Key, nat> { map k | k in keys :: me }

  predicate Free(owner: map<Key, nat>, keys: seq<Key>) { forall k :: k in keys ==> k !in owner }

  lemma FreshKey(keys: seq<Key>, n: nat)
    requires Ascending(keys) && n < |keys|
    ensures keys[n] !in keys[..n]
  {
    assert forall i :: 0 <= i < n ==> LexLess(keys[i], keys[n]);
  }

  lemma UnclaimRestores(owner: map<Key, nat>, keys: seq<Key>, me: nat)
    requires Free(owner, keys)
    ensures (owner + Claims(keys, me)) - (set k | k in keys) == owner
  {}

  lemma ClaimNext(owner: map<Key, nat>, keys: seq<Key>, key: Key, me: nat)
    ensures (owner + Claims(keys, me))[key := me] == owner + Claims(keys + [key], me)
  {}

  /** The lock files of all processes: which owner holds which key. */
  class LockFiles {
    var owner: map<Key, nat>

    constructor ()
      ensures owner == map[]
    {
      owner := map[];
    }

    /** Locks all keys or none; it fails exactly when another owner holds one of them. */
    method Acquire(me: nat, wanted: seq<Key>) returns (ok: bool)
      modifies this
      ensures ok <==> Free(old(owner), wanted)
      ensures owner == if ok then old(owner) + Claims(wanted, me) else old(owner)
    {
      var keys := SortKeys(wanted);
      ok := TakeAll(me, keys);
      assert Claims(keys, me) == Claims(wanted, me);
    }

    /** Takes the keys in order; on the first conflict drops what it had taken. */
    method TakeAll(me: nat, keys: seq<Key>) returns (ok: bool)
      requires Ascending(keys)
      modifies this
      ensures ok <==> Free(old(owner), keys)
      ensures owner == if ok then old(owner) + Claims(keys, me) else old(owner)
    {
      var taken := 0;
      while taken < |keys|
        invariant 0 <= taken <= |keys|
        invariant Free(old(owner), keys[..taken])
        invariant owner == old(owner) + Claims(keys[..taken], me)
      {
        var key := keys[taken];
        FreshKey(keys, taken);
        if key in owner {
          assert key in old(owner) && key in keys;
          UnclaimRestores(old(owner), keys[..taken], me);
          Unlock(keys[..taken]);
          return false;
        }
        ClaimNext(old(owner), keys[..taken], key, me);
        owner := owner[key := me];
        assert keys[..taken + 1] == keys[..taken] + [key];
        taken := taken + 1;
      }
      assert keys[..taken] == keys;
      return true;
    }

    method Unlock(keys: seq<Key>)
      modifies this
      ensures owner == old(owner) - (set k | k in keys)
    {
      var i := 0;
      while i < |keys|
        invariant 0 <= i <= |keys|
        invariant owner == old(owner) - (set k | k in keys[..i])
      {
        owner := owner - {keys[i]};
        assert keys[..i + 1] == keys[..i] + [keys[i]];
        i := i + 1;
      }
      assert keys[..i] == keys;
    }
  }
}
