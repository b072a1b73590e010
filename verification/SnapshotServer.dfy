/** The snapshot and volume RPCs of the CSI controller as they change its pools, proved against the store model. */
module SnapshotServer {
  import opened Common
  import opened Strings
  import opened Snapshots

  method GetSourceVolumeId(dir: SnapDir) returns (r: Option<string>)
    ensures r == SourceOf(dir)
  {
    var entries := ReadDir(dir.Keys);
    for i := 0 to |entries|
      invariant forall j | 0 <= j < i :: entries[j] == DATA
    {
      if entries[i] == DATA {
        continue;
      }
      FirstMarker(dir, entries, i);
      return Some(entries[i]);
    }
    assert forall x | x in dir.Keys :: x in entries;
    return None;
  }

  lemma FirstMarker(dir: SnapDir, entries: seq<string>, i: nat)
    requires Lists(entries, dir.Keys) && i < |entries| && entries[i] != DATA
    requires forall j | 0 <= j < i :: entries[j] == DATA
    ensures SourceOf(dir) == Some(entries[i])
  {
    assert entries[i] in entries;
    var x := SourceOf(dir).value;
    assert x in entries;
    var k :| 0 <= k < |entries| && entries[k] == x;
    LessTotal(x, entries[i]);
  }

  /** The controller with its pools, changed in place under one mutex. */
  class HostPathController {
    var pools: Driver

    constructor (pools: Driver)
      ensures this.pools == pools
    {
      this.pools := pools;
    }

    method LookUp(snaps: map<string, SnapDir>, id: string) returns (r: Result<Option<Snapshot>>)
      ensures r == GetSnapshotById(snaps, id)
    {
      if id !in snaps {
        return Ok(None);
      }
      var source := GetSourceVolumeId(snaps[id]);
      if source.None? {
        return Err;
      }
      return Ok(Some(Snapshot(id, source.value)));
    }

    /** All snapshots of a pool in name order; one without a source marker fails the whole call. */
    method GetAllSnapshots(p: string) returns (r: Result<seq<Snapshot>>, ghost names: seq<string>)
      requires p in pools
      ensures Lists(names, SnapsOf(pools[p]).Keys)
      ensures r.Ok? <==> forall id | id in SnapsOf(pools[p]) :: SourceOf(SnapsOf(pools[p])[id]).Some?
      ensures r.Ok? ==> ListsAll(SnapsOf(pools[p]), names, r.value)
    {
      var snaps := SnapsOf(pools[p]);
      var entries := ReadDir(snaps.Keys);
      names := entries;
      var list: seq<Snapshot> := [];
      for i := 0 to |entries|
        invariant ListsAll(snaps, entries[..i], list)
      {
        assert entries[i] in entries;
        var snapshot := LookUp(snaps, entries[i]);
        if snapshot.Err? {
          r := Err;
          return;
        }
        list := list + [snapshot.value.value];
      }
      assert entries[..|entries|] == entries;
      forall id | id in snaps
        ensures SourceOf(snaps[id]).Some?
      {
        assert id in entries;
      }
      r := Ok(list);
    }

    method CreateSnapshot(p: string, id: string, source: string, rootOk: bool, progress: Progress)
      returns (reply: Reply)
      modifies this
      ensures (pools, reply) == Snapshots.CreateSnapshot(old(pools), p, id, source, rootOk, progress)
    {
      if id == "" || source == "" {
        return InvalidArgument;
      }
      if p !in pools || !pools[p].provider {
        return Failed;
      }
      if pools[p].root.None? {
        if !rootOk {
          return Failed;
        }
        pools := pools[p := pools[p].(root := Some(map[]))];
      }
      assert pools == old(pools)[p := Initialized(old(pools)[p])];
      var found := LookUp(pools[p].root.value, id);
      if found.Err? {
        return Failed;
      }
      if found.value.Some? {
        if found.value.value.source == source {
          return Ready(found.value.value);
        }
        return AlreadyExists;
      }
      var (pool, answer) := ReflinkCreate(pools[p], id, source, progress);
      pools := pools[p := pool];
      assert pools == old(pools)[p := pool];
      return answer;
    }

    /** Providers come in map order; `failing` are the pools whose removal fails. */
    method DeleteSnapshot(id: string, failing: set<string>) returns (reply: Reply, ghost reached: set<string>)
      modifies this
      ensures (pools, reply) == Snapshots.DeleteSnapshot(old(pools), id, reached)
      ensures id != "" ==>
                (reply == Done <==> forall p | Has(old(pools), p, id) && old(pools)[p].provider :: p !in failing)
      ensures reply == Done ==> forall p | p in pools && pools[p].provider :: !Has(pools, p, id)
      ensures forall p | p in failing && Has(old(pools), p, id) :: Has(pools, p, id)
    {
      ghost var before := pools;
      reached := set p | p in pools && !pools[p].provider;
      if id == "" {
        return InvalidArgument, reached;
      }
      var left := set p | p in pools && pools[p].provider;
      while left != {}
        invariant left <= before.Keys && left !! reached && left + reached == before.Keys
        invariant pools == map p | p in before :: if p in reached then Dropped(before[p], id) else before[p]
        invariant forall p | p in reached && Has(before, p, id) && before[p].provider :: p !in failing
        invariant forall p | p in reached && !before[p].provider :: pools[p] == before[p]
        decreases left
      {
        var p :| p in left;
        if id in SnapsOf(pools[p]) {
          if p in failing {
            assert Has(before, p, id) && p !in reached;
            return Failed, reached;
          }
          pools := pools[p := Dropped(pools[p], id)];
        } else {
          DroppedAbsent(pools[p], id);
        }
        left := left - {p};
        reached := reached + {p};
      }
      reply := Done;
    }

    method RestoreSnapshot(p: string, id: string, name: string, copyOk: bool, part: set<string>) returns (reply: Reply)
      modifies this
      ensures p !in old(pools) ==> pools == old(pools) && reply == Failed
      ensures p in old(pools) ==>
                && p in pools && pools == old(pools)[p := pools[p]]
                && (pools[p], reply) == Restored(old(pools)[p], id, name, copyOk, part)
    {
      if p !in pools || !pools[p].provider {
        return Failed;
      }
      var snaps := SnapsOf(pools[p]);
      if id in snaps && DATA in snaps[id] {
        if name !in pools[p].volumes {
          return Failed;
        }
        var files := if copyOk then snaps[id][DATA] else Restricted(snaps[id][DATA], part);
        pools := pools[p := pools[p].(volumes := pools[p].volumes[name := Copied(pools[p].volumes[name], files)])];
        return if copyOk then Done else Failed;
      }
      return NotFound;
    }

    method CreateVolume(p: string, name: string, source: Option<string>,
                        dirOk: bool, copyOk: bool, part: set<string>, cleanOk: bool) returns (reply: Reply)
      modifies this
      ensures (pools, reply) == Snapshots.CreateVolume(old(pools), p, name, source, dirOk, copyOk, part, cleanOk)
    {
      if name == "" {
        return InvalidArgument;
      }
      if p !in pools {
        return Failed;
      }
      if name !in pools[p].volumes {
        if !dirOk {
          return Failed;
        }
        pools := pools[p := pools[p].(volumes := pools[p].volumes[name := map[]])];
      }
      assert old(pools)[p := pools[p]] == pools;
      if source.None? {
        return Done;
      }
      reply := RestoreSnapshot(p, source.value, name, copyOk, part);
      assert pools == old(pools)[p := pools[p]];
      if reply != Done {
        if !cleanOk {
          return Failed;
        }
        pools := pools[p := pools[p].(volumes := pools[p].volumes - {name})];
        assert pools == old(pools)[p := pools[p]];
      }
    }
  }

  lemma DroppedAbsent(pool: Pool, id: string)
    requires id !in SnapsOf(pool)
    ensures Dropped(pool, id) == pool
  {
    assert pool.root.Some? ==> pool.root.value - {id} == pool.root.value;
  }
}
