/** The barrier's critical sections as straight-line code over the file, the bits and the snapshot. */
module DownloadTarget {
  import opened DownloadCheckpoint

  /** Which of the fallible steps of a checkpoint succeed. */
  datatype Faults = Faults(syncOk: bool, renameOk: bool, directoryOk: bool)

  function Overwritten(cells: seq<int>, body: seq<int>, p: Part): (r: seq<int>)
    requires p.lo <= p.hi <= |cells| == |body|
  {
    cells[..p.lo] + body[p.lo..p.hi] + cells[p.hi..]
  }

  class Target {
    const config: Config
    const mem: array<int>
    const disk: array<int>
    var staged: set<nat>
    var published: set<nat>
    var surviving: set<set<nat>>
    var armed: bool

    /** The target as the quiescent state of the protocol: no locks held, no actor running. */
    ghost function View(): State
      reads this, mem, disk
    {
      State(mem[..], disk[..], staged, published, surviving, armed, Free, Free, [])
    }

    ghost predicate Valid()
      reads this, mem, disk
    {
      mem != disk && Inv(config, View())
    }

    constructor (config: Config)
      requires ValidConfig(config)
      ensures Valid() && Initial(config, View()) && this.config == config && fresh(mem) && fresh(disk)
    {
      this.config := config;
      mem := new int[|config.body|](_ => 0);
      disk := new int[|config.body|](_ => 0);
      staged, published, surviving, armed := {}, {}, {{}}, false;
      new;
      assert {} in surviving;
    }

    /** Seek, then write the received bytes. */
    method WriteAt(p: nat)
      requires Valid() && p < |config.parts|
      modifies mem
      ensures Valid() && Good(config, mem[..], p)
      ensures mem[..] == Overwritten(old(mem[..]), config.body, config.parts[p])
    {
      var part := config.parts[p];
      var k := part.lo;
      while k < part.hi
        invariant part.lo <= k <= part.hi
        invariant forall j :: 0 <= j < mem.Length ==> mem[j] == if part.lo <= j < k then config.body[j] else old(mem[j])
      {
        mem[k] := config.body[k];
        k := k + 1;
      }
      assert forall q :: q in staged ==> Good(config, old(mem[..]), q);
      assert forall q :: Good(config, old(mem[..]), q) ==> Good(config, mem[..], q);
    }

    method SyncData()
      requires Valid()
      modifies disk
      ensures Valid() && disk[..] == mem[..]
    {
      assert forall q :: Good(config, disk[..], q) ==> Good(config, mem[..], q);
      forall k | 0 <= k < disk.Length { disk[k] := mem[k]; }
      assert disk[..] == mem[..];
      forall snap | snap in surviving ensures AllGood(config, disk[..], snap) {
        assert AllGood(config, old(disk[..]), snap);
      }
    }

    /**
     * Begin, sync, commit. Success publishes exactly what was staged; a failure publishes nothing to memory,
     * keeps everything staged for the next attempt, and can at most add the new snapshot as a possible survivor.
     */
    method Checkpoint(timed: bool, faults: Faults) returns (ok: bool)
      requires Valid()
      modifies this, disk
      ensures Valid()
      ensures timed && !old(armed) ==> ok && unchanged(this) && disk[..] == old(disk[..])
      ensures !(timed && !old(armed)) ==> !armed
      ensures ok && !(timed && !old(armed)) ==> staged == {} && published == old(published + staged)
      ensures ok && old(staged) != {} && !(timed && !old(armed)) ==> surviving == {published} && disk[..] == mem[..]
      ensures !ok ==> staged == old(staged) && published == old(published) && old(surviving) <= surviving <= old(surviving + {published + staged})
      ensures !ok ==> !(faults.syncOk && faults.renameOk && faults.directoryOk)
    {
      if timed && !armed { return true; }
      armed := false;
      if staged == {} { return true; }
      if !faults.syncOk { return false; }
      SyncData();
      if !faults.renameOk { return false; }
      surviving := surviving + {published + staged};
      if !faults.directoryOk { return false; }
      published := published + staged;
      surviving := {published};
      staged := {};
      return true;
    }

    /** Stages a written part and runs the checkpoint when the batch is due. `fire` asks for a timer. */
    method Stage(p: nat, due: bool, faults: Faults) returns (ok: bool, fire: bool)
      requires Valid() && p < |config.parts| && Good(config, mem[..], p)
      modifies this, disk
      ensures Valid()
      ensures p in staged + published && old(published) <= published
      ensures staged + published == old(staged + published) + {p}
      ensures fire <==> config.timers && !old(armed) && !due && p !in old(staged + published)
      ensures fire ==> armed
      ensures ok && p in old(staged) && p !in old(published) ==> p in published
      ensures ok && due && p !in old(published) ==> staged == {}
    {
      fire := false;
      if p in published { return true, false; }
      if p in staged {
        ok := Checkpoint(false, faults);
        return;
      }
      staged := staged + {p};
      if due {
        ok := Checkpoint(false, faults);
      } else {
        fire := config.timers && !armed;
        armed := armed || config.timers;
        ok := true;
      }
    }

    /** `fileLen` is the length found on the locked handle: a truncated target is refused before the write. */
    method WriteAndStage(p: nat, fileLen: nat, due: bool, faults: Faults) returns (ok: bool, fire: bool)
      requires Valid() && p < |config.parts|
      modifies this, mem, disk
      ensures Valid()
      ensures fileLen < config.parts[p].hi ==> !ok && unchanged(this) && mem[..] == old(mem[..]) && disk[..] == old(disk[..])
      ensures config.parts[p].hi <= fileLen ==>
        mem[..] == Overwritten(old(mem[..]), config.body, config.parts[p]) && staged + published == old(staged + published) + {p}
      ensures ok && due && p !in old(published) ==> staged == {}
    {
      if fileLen < config.parts[p].hi { return false, false; }
      WriteAt(p);
      ok, fire := Stage(p, due, faults);
    }
  }
}
