/**
 The storage pools of the CSI driver: the sorted listing of volume directories over all pools, and
 the RPCs that look a volume up in it by its id.
 */
module Pools {
  import opened Common
  import Paging
  import opened Paths
  import opened Strings

  datatype Entry = Directory(files: Files) | Plain(bytes: string)

  /** Pool path to the entries directly below it. */
  type Disk = map<string, map<string, Entry>>

  /** Entry names are path components and no pool lies inside another. */
  ghost predicate Laid(disk: Disk) {
    && (forall p | p in disk :: NamesOk(disk[p]))
    && (forall p, q | p in disk && q in disk && p != q :: !Under(p, q))
  }

  ghost predicate NamesOk(entries: map<string, Entry>) {
    forall n | n in entries :: IsComponent(n)
  }

  predicate Holds(disk: Disk, pool: string, id: string) {
    pool in disk && id in disk[pool] && disk[pool][id].Directory?
  }

  /** The directories of one pool. */
  function PoolDirs(disk: Disk, pool: string): set<string>
    requires pool in disk
  {
    set n | n in disk[pool] && disk[pool][n].Directory? :: Join(pool, n)
  }

  /** All volume directories. */
  function Dirs(disk: Disk): set<string> {
    set p, n | p in disk && n in disk[p] && disk[p][n].Directory? :: Join(p, n)
  }

  /** The pools that hold a volume directory of this id. */
  function Holding(disk: Disk, id: string): set<string> {
    set p | p in disk && id in disk[p] && disk[p][id].Directory?
  }

  // ---------------------------------------------------------------- the listing

  lemma JoinsApart(p: string, n: string, q: string, m: string)
    requires '/' !in n && '/' !in m && Join(p, n) == Join(q, m)
    ensures p == q && n == m
  {
    JoinRoundTrip(p, n);
    JoinRoundTrip(q, m);
  }

  /** sort.Strings on pairwise different strings. */
  method SortStrings(list: seq<string>, ghost names: set<string>) returns (sorted: seq<string>)
    requires forall i, j | 0 <= i < j < |list| :: list[i] != list[j]
    requires forall x :: x in list <==> x in names
    ensures Lists(sorted, names)
  {
    sorted := [];
    ghost var done: set<string> := {};
    for i := 0 to |list|
      invariant forall x :: x in done <==> x in list[..i]
      invariant Lists(sorted, done)
    {
      assert list[..i + 1] == list[..i] + [list[i]];
      InsertSorted(sorted, list[i], done);
      sorted := Insert(sorted, list[i]);
      done := done + {list[i]};
    }
    assert list[..|list|] == list;
  }

  /** The directories of one pool, appended in any order to those found so far. */
  method AppendPool(disk: Disk, pool: string, found: seq<string>) returns (directories: seq<string>)
    requires Laid(disk) && pool in disk
    requires forall i, j | 0 <= i < j < |found| :: found[i] != found[j]
    requires forall x | x in found :: x !in PoolDirs(disk, pool)
    ensures forall i, j | 0 <= i < j < |directories| :: directories[i] != directories[j]
    ensures forall x :: x in directories <==> x in found || x in PoolDirs(disk, pool)
  {
    directories := found;
    var left := disk[pool].Keys;
    while left != {}
      invariant left <= disk[pool].Keys
      invariant forall i, j | 0 <= i < j < |directories| :: directories[i] != directories[j]
      invariant forall x :: x in directories <==>
                  || x in found
                  || exists n :: n in disk[pool] && n !in left && disk[pool][n].Directory? && x == Join(pool, n)
      decreases left
    {
      var n :| n in left;
      if disk[pool][n].Directory? {
        forall m | m in disk[pool] && m !in left
          ensures Join(pool, m) != Join(pool, n)
        {
          if Join(pool, m) == Join(pool, n) {
            JoinInjective(pool, m, n);
          }
        }
        assert Join(pool, n) in PoolDirs(disk, pool);
        directories := directories + [Join(pool, n)];
      }
      left := left - {n};
    }
  }

  lemma PoolsApart(disk: Disk, p: string, q: string)
    requires Laid(disk) && p in disk && q in disk && p != q
    ensures PoolDirs(disk, p) !! PoolDirs(disk, q)
  {
    forall x | x in PoolDirs(disk, p) && x in PoolDirs(disk, q)
      ensures false
    {
      var n :| n in disk[p] && x == Join(p, n);
      var m :| m in disk[q] && x == Join(q, m);
      assert NamesOk(disk[p]) && NamesOk(disk[q]);
      JoinsApart(p, n, q, m);
    }
  }

  /**
   getStoragePoolDataDirectories: pools come in map order, which Go leaves open, yet the result is the
   one sorted listing of all volume directories. A pool that cannot be read fails the call.
   */
  method GetStoragePoolDataDirectories(disk: Disk, unreadable: set<string>) returns (r: Result<seq<string>>)
    requires Laid(disk)
    ensures r.Err? <==> unreadable * disk.Keys != {}
    ensures r.Ok? ==> Lists(r.value, Dirs(disk))
  {
    var directories: seq<string> := [];
    var left := disk.Keys;
    while left != {}
      invariant left <= disk.Keys && unreadable * (disk.Keys - left) == {}
      invariant forall i, j | 0 <= i < j < |directories| :: directories[i] != directories[j]
      invariant forall x :: x in directories <==> exists p :: p in disk && p !in left && x in PoolDirs(disk, p)
      decreases left
    {
      var pool :| pool in left;
      if pool in unreadable {
        assert pool in unreadable * disk.Keys;
        return Err;
      }
      forall p | p in disk && p !in left
        ensures PoolDirs(disk, p) !! PoolDirs(disk, pool)
      {
        PoolsApart(disk, p, pool);
      }
      directories := AppendPool(disk, pool, directories);
      left := left - {pool};
    }
    forall x
      ensures x in directories <==> x in Dirs(disk)
    {
    }
    directories := SortStrings(directories, Dirs(disk));
    return Ok(directories);
  }

  /** Every volume directory has a name. */
  lemma DirectoryHasName(disk: Disk, dir: string)
    requires Laid(disk) && dir in Dirs(disk)
    ensures Base(dir) != ""
  {
    var p, n :| p in disk && n in disk[p] && disk[p][n].Directory? && dir == Join(p, n);
    assert NamesOk(disk[p]);
    JoinRoundTrip(p, n);
  }

  /** What getStoragePoolDataDirectories returns is a listing to which the results about paging apply. */
  lemma PagingApplies(disk: Disk, list: seq<string>)
    requires Laid(disk) && Lists(list, Dirs(disk))
    ensures Paging.Listing(list, Paging.Names(list))
  {
    var names := Paging.Names(list);
    forall i | 0 <= i < |names|
      ensures names[i] != ""
    {
      assert list[i] in list;
      DirectoryHasName(disk, list[i]);
    }
    forall i, j | 0 <= i < j < |list|
      ensures list[i] != list[j]
    {
      LessTotal(list[i], list[j]);
      LessTotal(list[i], list[i]);
    }
  }

  // ---------------------------------------------------------------- looking a volume up

  /** Among the pools that hold the id, the one whose directory comes last in the listing. */
  ghost predicate IsPick(disk: Disk, id: string, pool: string) {
    && pool in Holding(disk, id)
    && forall q | q in Holding(disk, id) && q != pool :: Less(Join(q, id), Join(pool, id))
  }

  lemma {:induction false} PickExists(pools: set<string>, id: string) returns (pool: string)
    requires pools != {}
    ensures pool in pools && forall q | q in pools && q != pool :: Less(Join(q, id), Join(pool, id))
    decreases pools
  {
    var p :| p in pools;
    var rest := pools - {p};
    assert pools == rest + {p};
    if rest == {} {
      pool := p;
    } else {
      var q := PickExists(rest, id);
      LessTotal(Join(p, id), Join(q, id));
      if Join(p, id) == Join(q, id) {
        SamePool(p, q, id);
      }
      if Less(Join(p, id), Join(q, id)) {
        pool := q;
      } else {
        pool := p;
        forall x | x in pools && x != p && x != q
          ensures Less(Join(x, id), Join(p, id))
        {
          LessTransitive(Join(x, id), Join(q, id), Join(p, id));
        }
      }
    }
  }

  lemma SamePool(p: string, q: string, id: string)
    requires Join(p, id) == Join(q, id)
    ensures p == q
  {
    assert Join(p, id)[..|p|] == p;
    assert Join(q, id)[..|q|] == q;
  }

  lemma SomePick(disk: Disk, id: string)
    requires Holding(disk, id) != {}
    ensures exists p :: IsPick(disk, id, p)
  {
    var p := PickExists(Holding(disk, id), id);
    assert IsPick(disk, id, p);
  }

  ghost function Pick(disk: Disk, id: string): (pool: string)
    requires Holding(disk, id) != {}
    ensures IsPick(disk, id, pool)
  {
    SomePick(disk, id);
    var p :| IsPick(disk, id, p);
    p
  }

  lemma PickUnique(disk: Disk, id: string, p: string)
    requires IsPick(disk, id, p)
    ensures p == Pick(disk, id)
  {
    LessTotal(Join(p, id), Join(Pick(disk, id), id));
  }

  /** A directory in the listing has the wanted base name exactly when its pool holds that id. */
  lemma ListedAs(disk: Disk, id: string, path: string) returns (pool: string)
    requires Laid(disk) && path in Dirs(disk)
    ensures pool in disk && (Base(path) == id <==> pool in Holding(disk, id) && path == Join(pool, id))
    ensures Base(path) == id ==> Dir(path) == pool
  {
    var p, n :| p in disk && n in disk[p] && disk[p][n].Directory? && path == Join(p, n);
    assert NamesOk(disk[p]);
    JoinRoundTrip(p, n);
    pool := p;
    if path == Join(p, id) {
      JoinInjective(p, n, id);
    }
  }

  /** The loop shared by DeleteVolume, ControllerGetVolume and removeEphemeralPath: the last match wins. */
  method FindVolume(disk: Disk, dirs: seq<string>, id: string) returns (volumePath: string)
    requires Laid(disk) && Lists(dirs, Dirs(disk))
    ensures volumePath == "" <==> Holding(disk, id) == {}
    ensures volumePath != "" ==> volumePath == Join(Pick(disk, id), id)
    ensures volumePath != "" ==> Base(volumePath) == id && Dir(volumePath) == Pick(disk, id)
  {
    volumePath := "";
    ghost var at := -1;
    for i := 0 to |dirs|
      invariant -1 <= at < i
      invariant at == -1 ==> volumePath == ""
      invariant at >= 0 ==> volumePath == dirs[at] && Base(volumePath) == id
      invariant forall j | at < j < i :: Base(dirs[j]) != id
    {
      if Base(dirs[i]) == id {
        volumePath := dirs[i];
        at := i;
      }
    }
    Found(disk, dirs, id, at);
  }

  lemma Found(disk: Disk, dirs: seq<string>, id: string, at: int)
    requires Laid(disk) && Lists(dirs, Dirs(disk)) && -1 <= at < |dirs|
    requires at >= 0 ==> Base(dirs[at]) == id
    requires forall j | at < j < |dirs| :: Base(dirs[j]) != id
    ensures at == -1 <==> Holding(disk, id) == {}
    ensures at >= 0 ==> dirs[at] != "" && dirs[at] == Join(Pick(disk, id), id) && Dir(dirs[at]) == Pick(disk, id)
  {
    forall q | q in Holding(disk, id)
      ensures at >= 0 && (Join(q, id) == dirs[at] || Less(Join(q, id), dirs[at]))
    {
      assert Join(q, id) in Dirs(disk);
      var j :| 0 <= j < |dirs| && dirs[j] == Join(q, id);
      assert NamesOk(disk[q]);
      JoinRoundTrip(q, id);
    }
    if at >= 0 {
      assert dirs[at] in dirs;
      var p := ListedAs(disk, id, dirs[at]);
      forall q | q in Holding(disk, id) && q != p
        ensures Less(Join(q, id), Join(p, id))
      {
        if Join(q, id) == Join(p, id) {
          SamePool(q, p, id);
        }
      }
      PickUnique(disk, id, p);
    }
  }

  // ---------------------------------------------------------------- removing a volume

  /** os.RemoveAll over everything the driver's pools hold. */
  function RemoveAll(disk: Disk, root: string): Disk {
    map p | p in disk && !Under(p, root) :: map n | n in disk[p] && !Under(Join(p, n), root) :: disk[p][n]
  }

  function Without(disk: Disk, pool: string, id: string): Disk
    requires pool in disk
  {
    disk[pool := disk[pool] - {id}]
  }

  lemma UnderVolume(p: string, pool: string, id: string)
    requires Under(p, Join(pool, id))
    ensures Under(p, pool)
  {
    assert p[..|pool|] == Join(pool, id)[..|pool|] == pool;
    assert p[|pool|] == Join(pool, id)[|pool|] == '/';
  }

  lemma UnderOtherVolume(p: string, n: string, pool: string, id: string)
    requires '/' !in n && '/' !in id && Under(Join(p, n), Join(pool, id))
    ensures (p == pool && n == id) || Under(p, Join(pool, id))
  {
    var a, b := Join(p, n), Join(pool, id);
    if a == b {
      JoinsApart(p, n, pool, id);
    } else {
      assert forall i | |p| < i < |a| :: a[i] == n[i - |p| - 1];
      assert |b| <= |p|;
      assert a[..|p|] == p;
      assert p[..|b|] == a[..|b|] == b;
      assert |b| < |p| ==> p[|b|] == a[|b|];
    }
  }

  lemma OnlyTheVolume(disk: Disk, pool: string, id: string, p: string)
    requires Laid(disk) && pool in disk && IsComponent(id) && p in disk
    ensures !Under(p, Join(pool, id))
    ensures forall n | n in disk[p] :: Under(Join(p, n), Join(pool, id)) <==> p == pool && n == id
  {
    assert NamesOk(disk[p]);
    if Under(p, Join(pool, id)) {
      UnderVolume(p, pool, id);
    }
    forall n | n in disk[p] && Under(Join(p, n), Join(pool, id))
      ensures p == pool && n == id
    {
      UnderOtherVolume(p, n, pool, id);
    }
  }

  /** Removing a volume's directory removes that entry and nothing else in any pool. */
  lemma RemoveVolume(disk: Disk, pool: string, id: string)
    requires Laid(disk) && pool in disk && IsComponent(id)
    ensures RemoveAll(disk, Join(pool, id)) == Without(disk, pool, id)
  {
    var r, w := RemoveAll(disk, Join(pool, id)), Without(disk, pool, id);
    forall p | p in disk
      ensures p in r && r[p] == w[p]
    {
      OnlyTheVolume(disk, pool, id, p);
    }
    assert r.Keys == w.Keys;
  }

  /** What DeleteVolume leaves: the picked directory is gone. */
  ghost function Deleted(disk: Disk, id: string): Disk {
    if Holding(disk, id) == {} then disk else Without(disk, Pick(disk, id), id)
  }

  lemma DeletedKeepsLaid(disk: Disk, id: string)
    requires Laid(disk)
    ensures Laid(Deleted(disk, id))
  {
  }

  /** A deletion takes the id out of one pool and leaves all other ids as they were. */
  lemma DeletedHolding(disk: Disk, id: string, other: string)
    requires Holding(disk, id) != {}
    ensures Holding(Deleted(disk, id), id) == Holding(disk, id) - {Pick(disk, id)}
    ensures other != id ==> Holding(Deleted(disk, id), other) == Holding(disk, other)
  {
  }

  /** `k` DeleteVolume calls in a row. */
  ghost function DeletedTimes(disk: Disk, id: string, k: nat): Disk {
    if k == 0 then disk else DeletedTimes(Deleted(disk, id), id, k - 1)
  }

  /** Without any volume directory of this id. */
  function Cleared(disk: Disk, id: string): Disk {
    map p | p in disk :: if Holds(disk, p, id) then disk[p] - {id} else disk[p]
  }

  /**
   An id held by k pools is gone after k calls and not before; every further call changes nothing,
   and no other entry is ever touched.
   */
  lemma {:induction false} DeleteClears(disk: Disk, id: string, k: nat)
    ensures k >= |Holding(disk, id)| ==> DeletedTimes(disk, id, k) == Cleared(disk, id)
    ensures k < |Holding(disk, id)| ==> Holding(DeletedTimes(disk, id, k), id) != {}
    decreases k
  {
    if Holding(disk, id) == {} {
      NothingToClear(disk, id);
      if k > 0 {
        DeleteClears(disk, id, k - 1);
      }
    } else if k > 0 {
      DeletedHolding(disk, id, id);
      ClearedAfterDelete(disk, id);
      DeleteClears(Deleted(disk, id), id, k - 1);
    }
  }

  lemma NothingToClear(disk: Disk, id: string)
    requires Holding(disk, id) == {}
    ensures Cleared(disk, id) == disk
  {
    assert forall p | p in disk :: Holds(disk, p, id) ==> p in Holding(disk, id);
  }

  lemma ClearedAfterDelete(disk: Disk, id: string)
    requires Holding(disk, id) != {}
    ensures Cleared(Deleted(disk, id), id) == Cleared(disk, id)
  {
    var after := Deleted(disk, id);
    forall p | p in disk
      ensures Cleared(after, id)[p] == Cleared(disk, id)[p]
    {
      if p != Pick(disk, id) {
        assert after[p] == disk[p];
      }
    }
  }

  /** The driver's volume RPCs over its pools, which they change in place. */
  class Volumes {
    var disk: Disk

    constructor (disk: Disk)
      ensures this.disk == disk
    {
      this.disk := disk;
    }

    /** NotFound exactly when no pool holds the id; otherwise the path DeleteVolume would remove. */
    method ControllerGetVolume(id: string, unreadable: set<string>) returns (r: Result<Option<string>>)
      requires Laid(disk)
      ensures r.Err? <==> unreadable * disk.Keys != {}
      ensures r.Ok? ==> (r.value.None? <==> Holding(disk, id) == {})
      ensures r.Ok? && r.value.Some? ==> r.value.value == Join(Pick(disk, id), id)
    {
      var listing := GetStoragePoolDataDirectories(disk, unreadable);
      if listing.Err? {
        return Err;
      }
      var path := FindVolume(disk, listing.value, id);
      if path == "" {
        return Ok(None);
      }
      return Ok(Some(path));
    }

    /** `removeOk` is the answer of os.RemoveAll, taken to leave the tree alone when it fails. */
    method DeleteVolume(id: string, unreadable: set<string>, removeOk: bool) returns (ok: bool)
      requires Laid(disk)
      modifies this
      ensures Laid(disk)
      ensures ok <==> unreadable * old(disk).Keys == {} && (removeOk || Holding(old(disk), id) == {})
      ensures disk == if ok then Deleted(old(disk), id) else old(disk)
    {
      var listing := GetStoragePoolDataDirectories(disk, unreadable);
      if listing.Err? {
        return false;
      }
      var path := FindVolume(disk, listing.value, id);
      if path != "" {
        if !removeOk {
          return false;
        }
        RemoveVolume(disk, Pick(disk, id), id);
        DeletedKeepsLaid(disk, id);
        disk := RemoveAll(disk, Join(Dir(path), id));
      }
      return true;
    }
  }
}
