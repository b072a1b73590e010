/**
 The reflink snapshot store and the RPCs over it: CreateSnapshot, DeleteSnapshot and CreateVolume with
 a snapshot as its source. Snapshot RPCs hold one mutex, so each is one step of a run; CreateVolume takes the
 mutex for its restore only, and is taken as one step.
 */
module Snapshots {
  import opened Common
  import opened Strings

  /** A snapshot's directory: its entries, all of them directories. */
  type SnapDir = map<string, Files>

  /** `root` is None until the snapshot path exists; without a provider a pool has no snapshots. */
  datatype Pool = Pool(volumes: map<string, Files>, provider: bool, root: Option<map<string, SnapDir>>)

  type Driver = map<string, Pool>

  datatype Snapshot = Snapshot(id: string, source: string)

  datatype Reply = Ready(snapshot: Snapshot) | InvalidArgument | AlreadyExists | NotFound | Failed | Done

  const DATA := "data"

  function SnapsOf(pool: Pool): map<string, SnapDir> {
    if pool.root.Some? then pool.root.value else map[]
  }

  // ---------------------------------------------------------------- the store

  ghost predicate IsLeast(names: set<string>, x: string) {
    x in names && forall y | y in names && y != x :: Less(x, y)
  }

  lemma {:induction false} LeastExists(names: set<string>)
    requires names != {}
    ensures exists x :: IsLeast(names, x)
    decreases names
  {
    var x :| x in names;
    var rest := names - {x};
    assert names == rest + {x};
    if rest == {} {
      assert IsLeast(names, x);
    } else {
      LeastExists(rest);
      var y :| IsLeast(rest, y);
      LessTotal(x, y);
      if Less(y, x) {
        assert IsLeast(names, y);
      } else {
        forall z | z in names && z != x && z != y
          ensures Less(x, z)
        {
          LessTransitive(x, y, z);
        }
        assert IsLeast(names, x);
      }
    }
  }

  /** getSourceVolumeId: the first entry, in ReadDir's name order, that is not the data directory. */
  ghost function SourceOf(dir: SnapDir): (r: Option<string>)
    ensures r.None? <==> dir.Keys <= {DATA}
    ensures r.Some? ==> IsLeast(dir.Keys - {DATA}, r.value)
  {
    if dir.Keys <= {DATA} then None
    else
      assert dir.Keys - {DATA} != {};
      LeastExists(dir.Keys - {DATA});
      var x :| IsLeast(dir.Keys - {DATA}, x);
      Some(x)
  }

  /** GetSnapshotById: Ok(None) when there is no such directory, Err when it has no source marker. */
  ghost function GetSnapshotById(snaps: map<string, SnapDir>, id: string): Result<Option<Snapshot>> {
    if id !in snaps then Ok(None)
    else if SourceOf(snaps[id]).None? then Err
    else Ok(Some(Snapshot(id, SourceOf(snaps[id]).value)))
  }

  /** How far a creation gets; `AtCopy` is a copy that fails after some of the files. */
  datatype Progress = AtStart | AtParent | AtData | AtCopy(part: set<string>) | Complete

  /** cp -rp src/. dst */
  function Copied(dst: Files, src: Files): Files {
    dst + src
  }

  function Restricted(files: Files, names: set<string>): Files {
    map f | f in files && f in names :: files[f]
  }

  /** The directory CreateSnapshot leaves for a volume with these files; None when nothing was made. */
  function Written(source: string, files: Files, progress: Progress): Option<SnapDir> {
    match progress
    case AtStart => None
    case AtParent => Some(map[])
    case AtData => Some(map[DATA := map[]])
    case AtCopy(part) => Some(Marked(source)[DATA := Copied(map[], Restricted(files, part))])
    case Complete => Some(Marked(source)[DATA := Copied(map[], files)])
  }

  /** Both directories of a snapshot before the copy. */
  function Marked(source: string): SnapDir {
    map[DATA := map[]] + map[source := map[]]
  }

  /** Reflink.CreateSnapshot of a volume that exists, without the branch for data that is already there. */
  function WriteSnapshot(pool: Pool, id: string, source: string, progress: Progress): (Pool, Reply)
    requires source in pool.volumes
  {
    var dir := Written(source, pool.volumes[source], progress);
    (if dir.None? then pool else pool.(root := Some(SnapsOf(pool)[id := dir.value])),
     if progress == Complete then Ready(Snapshot(id, source)) else Failed)
  }

  /** Reflink.CreateSnapshot */
  function ReflinkCreate(pool: Pool, id: string, source: string, progress: Progress): (Pool, Reply) {
    if source !in pool.volumes then (pool, Failed)
    else if id in SnapsOf(pool) && DATA in SnapsOf(pool)[id] then (pool, Ready(Snapshot(id, source)))
    else WriteSnapshot(pool, id, source, progress)
  }

  // ---------------------------------------------------------------- the RPCs

  /** The pool after Initialize. */
  function Initialized(pool: Pool): Pool {
    pool.(root := Some(SnapsOf(pool)))
  }

  /** What CreateSnapshot of the controller answers without the provider's, None when it goes on to that. */
  ghost function Settled(d: Driver, p: string, id: string, source: string, rootOk: bool): Option<(Driver, Reply)> {
    if id == "" || source == "" then Some((d, InvalidArgument))
    else if p !in d || !d[p].provider then Some((d, Failed))
    else if d[p].root.None? && !rootOk then Some((d, Failed))
    else
      var d' := d[p := Initialized(d[p])];
      var found := GetSnapshotById(SnapsOf(d[p]), id);
      if found.Err? then Some((d', Failed))
      else if found.value.None? then None
      else Some((d', if found.value.value.source == source then Ready(found.value.value) else AlreadyExists))
  }

  /** CreateSnapshot of the controller; `rootOk` is the answer of Initialize. */
  ghost function CreateSnapshot(d: Driver, p: string, id: string, source: string, rootOk: bool, progress: Progress)
    : (Driver, Reply)
  {
    var settled := Settled(d, p, id, source, rootOk);
    if settled.Some? then settled.value
    else
      var (pool, reply) := ReflinkCreate(Initialized(d[p]), id, source, progress);
      (d[p := pool], reply)
  }

  function Dropped(pool: Pool, id: string): Pool {
    if pool.provider && pool.root.Some? then pool.(root := Some(pool.root.value - {id})) else pool
  }

  /** DeleteSnapshot reaches the pools in `reached`, all of them unless a removal fails. */
  function DeleteSnapshot(d: Driver, id: string, reached: set<string>): (Driver, Reply) {
    if id == "" then (d, InvalidArgument)
    else (map p | p in d :: if p in reached then Dropped(d[p], id) else d[p],
          if d.Keys <= reached then Done else Failed)
  }

  predicate HasData(pool: Pool, id: string) {
    pool.provider && id in SnapsOf(pool) && DATA in SnapsOf(pool)[id]
  }

  /** RestoreSnapshot; a failed copy may have written `part`. */
  function Restored(pool: Pool, id: string, name: string, copyOk: bool, part: set<string>): (Pool, Reply) {
    if !pool.provider then (pool, Failed)
    else if !HasData(pool, id) then (pool, NotFound)
    else if name !in pool.volumes then (pool, Failed)
    else
      var data := SnapsOf(pool)[id][DATA];
      var files := if copyOk then data else Restricted(data, part);
      (pool.(volumes := pool.volumes[name := Copied(pool.volumes[name], files)]), if copyOk then Done else Failed)
  }

  /** CreateVolume; a failed restore deletes the volume, whether this call made it or not. */
  function CreateVolume(d: Driver, p: string, name: string, source: Option<string>,
                        dirOk: bool, copyOk: bool, part: set<string>, cleanOk: bool): (Driver, Reply)
  {
    if name == "" then (d, InvalidArgument)
    else if p !in d || (name !in d[p].volumes && !dirOk) then (d, Failed)
    else
      var pool := if name in d[p].volumes then d[p] else d[p].(volumes := d[p].volumes[name := map[]]);
      if source.None? then (d[p := pool], Done)
      else
        var (pool', reply) := Restored(pool, source.value, name, copyOk, part);
        if reply == Done then (d[p := pool'], Done)
        else if cleanOk then (d[p := pool'.(volumes := pool'.volumes - {name})], reply)
        else (d[p := pool'], Failed)
  }

  // ---------------------------------------------------------------- runs

  datatype Event =
    | Snap(p: string, id: string, source: string, rootOk: bool, progress: Progress)
    | DropSnap(id: string, reached: set<string>)
    | MakeVolume(p: string, name: string, from: Option<string>,
                 dirOk: bool, copyOk: bool, part: set<string>, cleanOk: bool)
    | DropVolume(p: string, name: string)
    | Write(p: string, name: string, files: Files)

  ghost function Step(d: Driver, e: Event): Driver {
    match e
    case Snap(p, id, source, rootOk, progress) => CreateSnapshot(d, p, id, source, rootOk, progress).0
    case DropSnap(id, reached) => DeleteSnapshot(d, id, reached).0
    case MakeVolume(p, name, from, dirOk, copyOk, part, cleanOk) =>
      CreateVolume(d, p, name, from, dirOk, copyOk, part, cleanOk).0
    case DropVolume(p, name) =>
      if p in d then d[p := d[p].(volumes := d[p].volumes - {name})] else d
    case Write(p, name, files) =>
      if p in d && name in d[p].volumes then d[p := d[p].(volumes := d[p].volumes[name := files])] else d
  }

  ghost function Exec(d: Driver, es: seq<Event>): Driver {
    if es == [] then d else Exec(Step(d, es[0]), es[1..])
  }

  // ---------------------------------------------------------------- point-in-time copies

  predicate Has(d: Driver, p: string, id: string) {
    p in d && id in SnapsOf(d[p])
  }

  predicate HasVolume(d: Driver, p: string, name: string) {
    p in d && name in d[p].volumes
  }

  /** Snapshot RPCs leave all volumes alone, whatever fails. */
  lemma SnapshotsLeaveVolumes(d: Driver, e: Event, p: string)
    requires e.Snap? || e.DropSnap?
    ensures Step(d, e).Keys == d.Keys
    ensures p in d ==> Step(d, e)[p].volumes == d[p].volumes && Step(d, e)[p].provider == d[p].provider
  {
  }

  /** What happens to volumes leaves all snapshots alone. */
  lemma VolumesLeaveSnapshots(d: Driver, e: Event, p: string)
    requires !e.Snap? && !e.DropSnap?
    ensures Step(d, e).Keys == d.Keys
    ensures p in d ==> Step(d, e)[p].root == d[p].root && Step(d, e)[p].provider == d[p].provider
  {
  }

  /** Only its own deletion ever changes a snapshot, whatever fails. */
  lemma SnapshotStableStep(d: Driver, e: Event, p: string, id: string)
    requires Has(d, p, id) && !(e.DropSnap? && e.id == id)
    ensures var d' := Step(d, e);
            Has(d', p, id) && SnapsOf(d'[p])[id] == SnapsOf(d[p])[id] && d'[p].provider == d[p].provider
  {
    if !e.Snap? && !e.DropSnap? {
      VolumesLeaveSnapshots(d, e, p);
    }
  }

  lemma {:induction false} SnapshotStable(d: Driver, es: seq<Event>, p: string, id: string)
    requires Has(d, p, id) && forall e | e in es :: !(e.DropSnap? && e.id == id)
    ensures var d' := Exec(d, es);
            Has(d', p, id) && SnapsOf(d'[p])[id] == SnapsOf(d[p])[id] && d'[p].provider == d[p].provider
  {
    if es != [] {
      assert es[0] in es && forall e | e in es[1..] :: e in es;
      SnapshotStableStep(d, es[0], p, id);
      SnapshotStable(Step(d, es[0]), es[1..], p, id);
    }
  }

  /** A new snapshot that succeeds holds exactly the volume's files. */
  lemma SnapshotTaken(d: Driver, p: string, id: string, source: string, rootOk: bool, progress: Progress)
    requires !Has(d, p, id) && CreateSnapshot(d, p, id, source, rootOk, progress).1.Ready?
    ensures p in d && d[p].provider && source in d[p].volumes
    ensures var d' := CreateSnapshot(d, p, id, source, rootOk, progress).0;
            Has(d', p, id) && DATA in SnapsOf(d'[p])[id] && SnapsOf(d'[p])[id][DATA] == d[p].volumes[source]
            && d'[p].provider
  {
    assert Copied(map[], d[p].volumes[source]) == d[p].volumes[source];
  }

  /**
   Snapshots are faithful: whatever happens after a snapshot was taken, short of deleting it - writes to
   the source, its deletion, other snapshots, repeated and failing calls - a new volume made from it
   gets exactly the files the source had when the snapshot was taken.
   */
  lemma SnapshotFaithful(d: Driver, p: string, id: string, source: string, rootOk: bool, progress: Progress,
                         es: seq<Event>, name: string)
    requires !Has(d, p, id) && CreateSnapshot(d, p, id, source, rootOk, progress).1.Ready?
    requires forall e | e in es :: !(e.DropSnap? && e.id == id)
    requires name != "" && !HasVolume(Exec(CreateSnapshot(d, p, id, source, rootOk, progress).0, es), p, name)
    ensures var later := Exec(CreateSnapshot(d, p, id, source, rootOk, progress).0, es);
            var (d', reply) := CreateVolume(later, p, name, Some(id), true, true, {}, true);
            reply == Done && HasVolume(d, p, source) && HasVolume(d', p, name)
            && d'[p].volumes[name] == d[p].volumes[source]
  {
    SnapshotTaken(d, p, id, source, rootOk, progress);
    SnapshotStable(CreateSnapshot(d, p, id, source, rootOk, progress).0, es, p, id);
    assert Copied(map[], d[p].volumes[source]) == d[p].volumes[source];
  }

  // ---------------------------------------------------------------- volumes

  /** CreateVolume changes no volume but the one it names, in no pool but the one it names, whatever fails. */
  lemma CreateVolumeElsewhere(d: Driver, p: string, name: string, source: Option<string>,
                              dirOk: bool, copyOk: bool, part: set<string>, cleanOk: bool, q: string, v: string)
    requires q in d && !(q == p && v == name)
    ensures var d' := CreateVolume(d, p, name, source, dirOk, copyOk, part, cleanOk).0;
            && d'.Keys == d.Keys && (v in d'[q].volumes <==> v in d[q].volumes)
            && (v in d[q].volumes ==> d'[q].volumes[v] == d[q].volumes[v])
  {
  }

  /**
   Without a snapshot the call succeeds exactly if the pool is there and the volume exists or can be made. It leaves
   an existing volume as it is and makes a new one empty, so repeating it changes nothing.
   */
  lemma CreateVolumePlain(d: Driver, p: string, name: string, dirOk: bool, copyOk: bool, part: set<string>,
                          cleanOk: bool, dirOk2: bool, copyOk2: bool, part2: set<string>, cleanOk2: bool)
    ensures var (d', reply) := CreateVolume(d, p, name, None, dirOk, copyOk, part, cleanOk);
            && (reply == Done <==> name != "" && p in d && (name in d[p].volumes || dirOk))
            && (reply != Done || HasVolume(d, p, name) ==> d' == d)
            && (reply == Done && !HasVolume(d, p, name) ==> HasVolume(d', p, name) && d'[p].volumes[name] == map[])
            && (reply == Done ==> CreateVolume(d', p, name, None, dirOk2, copyOk2, part2, cleanOk2) == (d', Done))
  {
    var (d', reply) := CreateVolume(d, p, name, None, dirOk, copyOk, part, cleanOk);
    if reply == Done {
      assert d'[p := d'[p]] == d' && d[p := d[p]] == d;
    }
  }

  /** A file after a copy of `src` over `dst`. */
  ghost predicate CopiedOver(dst: Files, src: Files, after: Files, f: string) {
    if f in src then f in after && after[f] == src[f]
    else (f in after <==> f in dst) && (f in dst ==> after[f] == dst[f])
  }

  /**
   From a snapshot it succeeds exactly if moreover the pool has the snapshot's data and the copy works. The volume
   then has the snapshot's files, and of those it had before the ones that the snapshot lacks. NotFound means that
   the pool has no such snapshot, and that the volume was deleted.
   */
  lemma CreateVolumeRestores(d: Driver, p: string, name: string, id: string,
                             dirOk: bool, copyOk: bool, part: set<string>, cleanOk: bool, f: string)
    ensures var (d', reply) := CreateVolume(d, p, name, Some(id), dirOk, copyOk, part, cleanOk);
            && (reply == Done <==>
                name != "" && p in d && (name in d[p].volumes || dirOk) && HasData(d[p], id) && copyOk)
            && (reply == NotFound <==>
                && name != "" && p in d && (name in d[p].volumes || dirOk)
                && d[p].provider && !HasData(d[p], id) && cleanOk)
            && (reply == Done ==>
                && HasVolume(d', p, name)
                && CopiedOver(if HasVolume(d, p, name) then d[p].volumes[name] else map[],
                              SnapsOf(d[p])[id][DATA], d'[p].volumes[name], f))
  {
  }

  /** Repeating it on a volume that exists changes nothing exactly if the volume has all files of the snapshot. */
  lemma RepeatedRestoreIff(d: Driver, p: string, name: string, id: string,
                           dirOk: bool, copyOk: bool, part: set<string>, cleanOk: bool)
    requires HasVolume(d, p, name) && CreateVolume(d, p, name, Some(id), dirOk, copyOk, part, cleanOk).1 == Done
    ensures HasData(d[p], id)
    ensures CreateVolume(d, p, name, Some(id), dirOk, copyOk, part, cleanOk).0 == d <==>
            forall f | f in SnapsOf(d[p])[id][DATA] ::
              f in d[p].volumes[name] && d[p].volumes[name][f] == SnapsOf(d[p])[id][DATA][f]
  {
    CreateVolumeRestores(d, p, name, id, dirOk, copyOk, part, cleanOk, "");
    var files, data := d[p].volumes[name], SnapsOf(d[p])[id][DATA];
    CopiedSameIff(files, data);
    var d' := CreateVolume(d, p, name, Some(id), dirOk, copyOk, part, cleanOk).0;
    assert d'[p].volumes[name] == Copied(files, data);
    if Copied(files, data) == files {
      assert d'[p].volumes == d[p].volumes && d'[p] == d[p];
    }
  }

  // ---------------------------------------------------------------- markers and repeated calls

  /** The data directory and one source marker. */
  predicate Tidy(dir: SnapDir, source: string) {
    source != DATA && dir.Keys == {DATA, source}
  }

  lemma TidySource(dir: SnapDir, source: string)
    requires Tidy(dir, source)
    ensures SourceOf(dir) == Some(source)
  {
    assert dir.Keys - {DATA} == {source};
    assert source in dir.Keys && !(dir.Keys <= {DATA});
  }

  lemma WrittenTidy(source: string, files: Files)
    requires source != DATA
    ensures Tidy(Written(source, files, Complete).value, source)
  {
  }

  ghost predicate AllTidy(d: Driver) {
    forall p, id | Has(d, p, id) :: exists source :: Tidy(SnapsOf(d[p])[id], source)
  }

  /** No mkdir or copy of a snapshot fails, and no volume called "data" is snapshotted. */
  predicate Smooth(e: Event) {
    e.Snap? ==> e.progress == Complete && e.source != DATA
  }

  /** A snapshot that is there after a step was there before, unless this step completed it. */
  lemma Origin(d: Driver, e: Event, p: string, id: string)
    requires Smooth(e) && Has(Step(d, e), p, id)
    ensures var dir := SnapsOf(Step(d, e)[p])[id];
            || (Has(d, p, id) && dir == SnapsOf(d[p])[id])
            || (e.Snap? && HasVolume(d, e.p, e.source)
                && dir == Written(e.source, d[e.p].volumes[e.source], Complete).value)
  {
    if !e.Snap? && !e.DropSnap? {
      VolumesLeaveSnapshots(d, e, p);
    }
  }

  lemma AllTidyStep(d: Driver, e: Event)
    requires AllTidy(d) && Smooth(e)
    ensures AllTidy(Step(d, e))
  {
    var d' := Step(d, e);
    forall p, id | Has(d', p, id)
      ensures exists source :: Tidy(SnapsOf(d'[p])[id], source)
    {
      Origin(d, e, p, id);
      if e.Snap? && HasVolume(d, e.p, e.source) {
        WrittenTidy(e.source, d[e.p].volumes[e.source]);
      }
    }
  }

  /** In runs without such failures every snapshot directory holds its data and one source marker. */
  lemma {:induction false} AllTidyAlways(d: Driver, es: seq<Event>)
    requires AllTidy(d) && forall e | e in es :: Smooth(e)
    ensures AllTidy(Exec(d, es))
  {
    if es != [] {
      assert es[0] in es && forall e | e in es[1..] :: e in es;
      AllTidyStep(d, es[0]);
      AllTidyAlways(Step(d, es[0]), es[1..]);
    }
  }

  /** A snapshot can be looked up with the source it was made from, unless that is called "data". */
  lemma SourceRecordedIff(d: Driver, p: string, id: string, source: string)
    requires !Has(d, p, id) && CreateSnapshot(d, p, id, source, true, Complete).1.Ready?
    ensures var d' := CreateSnapshot(d, p, id, source, true, Complete).0;
            p in d' && (GetSnapshotById(SnapsOf(d'[p]), id) == Ok(Some(Snapshot(id, source))) <==> source != DATA)
  {
    var files := d[p].volumes[source];
    if source != DATA {
      WrittenTidy(source, files);
      TidySource(Written(source, files, Complete).value, source);
    } else {
      assert Written(source, files, Complete).value.Keys == {DATA};
    }
  }

  /**
   Repeating a CreateSnapshot at any later time answers with the same snapshot, and the same name with
   another source is AlreadyExists. Neither changes anything, whatever was done or failed in between.
   */
  lemma CreateSnapshotIdempotent(d: Driver, p: string, id: string, source: string, es: seq<Event>,
                                 again: string, rootOk: bool, progress: Progress)
    requires !Has(d, p, id) && CreateSnapshot(d, p, id, source, true, Complete).1.Ready? && source != DATA
    requires forall e | e in es :: !(e.DropSnap? && e.id == id)
    requires again != ""
    ensures var later := Exec(CreateSnapshot(d, p, id, source, true, Complete).0, es);
            CreateSnapshot(later, p, id, again, rootOk, progress) ==
              (later, if again == source then Ready(Snapshot(id, source)) else AlreadyExists)
  {
    var d1 := CreateSnapshot(d, p, id, source, true, Complete).0;
    SourceRecordedIff(d, p, id, source);
    SnapshotTaken(d, p, id, source, true, Complete);
    SnapshotStable(d1, es, p, id);
    var later := Exec(d1, es);
    assert later[p := later[p].(root := Some(SnapsOf(later[p])))] == later;
  }

  /** The call gets past the checks before the lookup of the snapshot. */
  predicate Admitted(d: Driver, p: string, id: string, source: string, rootOk: bool) {
    id != "" && source != "" && p in d && d[p].provider && (d[p].root.Some? || rootOk)
  }

  /**
   Every answer of CreateSnapshot by its request: an existing snapshot is confirmed for its own source and refused
   for another, a new one is ready exactly if its volume exists and everything works.
   */
  lemma SnapshotAnswersIff(d: Driver, p: string, id: string, source: string, rootOk: bool, progress: Progress)
    ensures var reply := CreateSnapshot(d, p, id, source, rootOk, progress).1;
            && (reply == InvalidArgument <==> id == "" || source == "")
            && (reply == Ready(Snapshot(id, source)) <==>
                && Admitted(d, p, id, source, rootOk)
                && if Has(d, p, id) then SourceOf(SnapsOf(d[p])[id]) == Some(source)
                   else source in d[p].volumes && progress == Complete)
            && (reply == AlreadyExists <==>
                && Admitted(d, p, id, source, rootOk) && Has(d, p, id)
                && SourceOf(SnapsOf(d[p])[id]).Some? && SourceOf(SnapsOf(d[p])[id]).value != source)
            && reply != NotFound && reply != Done && (reply.Ready? ==> reply.snapshot == Snapshot(id, source))
  {
  }

  /** Whatever fails, no snapshot but the named one comes into being. */
  lemma NoOtherSnapshot(d: Driver, p: string, id: string, source: string, rootOk: bool, progress: Progress,
                        q: string, j: string)
    requires !(q == p && j == id)
    ensures Has(CreateSnapshot(d, p, id, source, rootOk, progress).0, q, j) ==> Has(d, q, j)
  {
  }

  /** Reflink.CreateSnapshot on its own, once it has made a snapshot, confirms it without touching it. */
  lemma ReflinkCreateRepeats(pool: Pool, id: string, source: string, progress: Progress)
    requires ReflinkCreate(pool, id, source, Complete).1.Ready?
    ensures var made := ReflinkCreate(pool, id, source, Complete).0;
            && id in SnapsOf(made) && DATA in SnapsOf(made)[id]
            && ReflinkCreate(made, id, source, progress) == (made, Ready(Snapshot(id, source)))
  {
  }

  /** The RPC with a provider that does not look for existing data. */
  ghost function CreateSnapshotAfresh(d: Driver, p: string, id: string, source: string, rootOk: bool,
                                      progress: Progress): (Driver, Reply)
  {
    var settled := Settled(d, p, id, source, rootOk);
    if settled.Some? then settled.value
    else if source !in d[p].volumes then (d[p := Initialized(d[p])], Failed)
    else
      var (pool, reply) := WriteSnapshot(Initialized(d[p]), id, source, progress);
      (d[p := pool], reply)
  }

  /** The provider's branch for existing data is never taken: without it every call does and answers the same. */
  lemma DataBranchUnreachable(d: Driver, p: string, id: string, source: string, rootOk: bool, progress: Progress)
    ensures CreateSnapshot(d, p, id, source, rootOk, progress) ==
            CreateSnapshotAfresh(d, p, id, source, rootOk, progress)
  {
    if Settled(d, p, id, source, rootOk).None? {
      assert id !in SnapsOf(Initialized(d[p]));
    }
  }

  /** A first attempt that got as far as `progress` is followed by one in which nothing fails. */
  ghost function Retried(d: Driver, p: string, id: string, source: string, progress: Progress): (Driver, Reply) {
    CreateSnapshot(CreateSnapshot(d, p, id, source, true, progress).0, p, id, source, true, Complete)
  }

  /**
   A retry yields a snapshot of the volume exactly when the first attempt had left nothing or had
   copied everything. A partial copy is reported as ready, and a directory without a marker as an error.
   */
  lemma RetryFaithfulIff(d: Driver, p: string, id: string, source: string, progress: Progress)
    requires p in d && d[p].provider && !Has(d, p, id) && id != ""
    requires source in d[p].volumes && source != "" && source != DATA
    ensures var (d', reply) := Retried(d, p, id, source, progress);
            var files := d[p].volumes[source];
            (reply == Ready(Snapshot(id, source)) && Has(d', p, id)
             && DATA in SnapsOf(d'[p])[id] && SnapsOf(d'[p])[id][DATA] == files)
            <==> progress == AtStart || progress == Complete || (progress.AtCopy? && files.Keys <= progress.part)
  {
    var files := d[p].volumes[source];
    var d1 := CreateSnapshot(d, p, id, source, true, progress).0;
    match progress
    case AtStart =>
      assert !Has(d1, p, id);
      assert Copied(map[], files) == files;
    case Complete =>
      WrittenTidy(source, files);
      TidySource(Written(source, files, Complete).value, source);
      assert Copied(map[], files) == files;
    case AtCopy(part) =>
      var dir := Written(source, files, progress).value;
      assert dir.Keys == {DATA, source};
      TidySource(dir, source);
      RestrictedAllIff(files, part);
    case _ =>
      assert SourceOf(Written(source, files, progress).value).None?;
  }

  lemma RestrictedAllIff(files: Files, part: set<string>)
    ensures Copied(map[], Restricted(files, part)) == files <==> files.Keys <= part
  {
    var r := Copied(map[], Restricted(files, part));
    assert r.Keys == files.Keys * part;
    if files.Keys <= part {
      assert files.Keys * part == files.Keys;
    } else {
      assert files.Keys * part != files.Keys;
    }
  }

  /** Of the snapshot's files in `part`, the volume has every one already. */
  ghost predicate NothingNew(pool: Pool, id: string, name: string, part: set<string>)
    requires name in pool.volumes
  {
    HasData(pool, id) ==>
      forall f | f in SnapsOf(pool)[id][DATA] && f in part ::
        f in pool.volumes[name] && pool.volumes[name][f] == SnapsOf(pool)[id][DATA][f]
  }

  /** When a CreateVolume that fails has nothing to undo, undoes what it did, or fails to undo what was not its own. */
  ghost predicate FailsHarmlessly(d: Driver, p: string, name: string, id: string,
                                  dirOk: bool, part: set<string>, cleanOk: bool) {
    || name == "" || p !in d
    || (name !in d[p].volumes && (!dirOk || cleanOk))
    || (name in d[p].volumes && !cleanOk && NothingNew(d[p], id, name, part))
  }

  lemma CopiedSameIff(dst: Files, src: Files)
    ensures Copied(dst, src) == dst <==> forall f | f in src :: f in dst && dst[f] == src[f]
  {
    if f :| f in src && !(f in dst && dst[f] == src[f]) {
      assert f in Copied(dst, src) && Copied(dst, src)[f] == src[f];
    }
  }

  /** Into a volume that existed, with a clean-up that fails. */
  lemma FailedCopyHarmlessIff(pool: Pool, id: string, name: string, copyOk: bool, part: set<string>)
    requires name in pool.volumes && Restored(pool, id, name, copyOk, part).1 != Done
    ensures Restored(pool, id, name, copyOk, part).0 == pool <==> NothingNew(pool, id, name, part)
  {
    if HasData(pool, id) {
      var files, copied := pool.volumes[name], Restricted(SnapsOf(pool)[id][DATA], part);
      CopiedSameIff(files, copied);
      var after := Restored(pool, id, name, copyOk, part).0;
      assert after.volumes[name] == Copied(files, copied);
      if Copied(files, copied) == files {
        assert after.volumes == pool.volumes;
      }
    }
  }

  /** Exactly when a CreateVolume from a snapshot that fails leaves all pools as they were. */
  lemma FailedRestoreHarmlessIff(d: Driver, p: string, name: string, id: string,
                                 dirOk: bool, copyOk: bool, part: set<string>, cleanOk: bool)
    requires CreateVolume(d, p, name, Some(id), dirOk, copyOk, part, cleanOk).1 != Done
    ensures CreateVolume(d, p, name, Some(id), dirOk, copyOk, part, cleanOk).0 == d
            <==> FailsHarmlessly(d, p, name, id, dirOk, part, cleanOk)
  {
    if name != "" && p in d && (name in d[p].volumes || dirOk) {
      var d' := CreateVolume(d, p, name, Some(id), dirOk, copyOk, part, cleanOk).0;
      if cleanOk {
        assert name !in d'[p].volumes;
        assert name !in d[p].volumes ==> d'[p].volumes == d[p].volumes;
      } else if name in d[p].volumes {
        FailedCopyHarmlessIff(d[p], id, name, copyOk, part);
        assert d' == d[p := Restored(d[p], id, name, copyOk, part).0];
      } else {
        assert name in d'[p].volumes;
      }
    }
  }

  // ---------------------------------------------------------------- listing

  /** GetAllSnapshots over the sorted entries: every snapshot once, in name order, or an error if one has no marker. */
  ghost predicate ListsAll(snaps: map<string, SnapDir>, names: seq<string>, list: seq<Snapshot>) {
    && |list| == |names|
    && forall i | 0 <= i < |names| :: names[i] in snaps && GetSnapshotById(snaps, names[i]) == Ok(Some(list[i]))
  }

  lemma ListedOnce(snaps: map<string, SnapDir>, names: seq<string>, list: seq<Snapshot>, id: string)
    requires Lists(names, snaps.Keys) && ListsAll(snaps, names, list)
    ensures id in snaps <==> exists i | 0 <= i < |list| :: list[i].id == id
    ensures forall i, j | 0 <= i < j < |list| :: list[i].id != list[j].id
  {
    if id in snaps {
      assert id in names;
      var i :| 0 <= i < |names| && names[i] == id;
      assert list[i].id == id;
    }
    forall i, j | 0 <= i < j < |list|
      ensures list[i].id != list[j].id
    {
      LessTotal(names[i], names[j]);
      assert Less(names[i], names[j]);
      LessTotal(names[i], names[i]);
    }
  }
}
