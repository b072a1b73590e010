/**
 NodePublishVolume and NodeUnpublishVolume as an interleaving of their system calls. A target path is
 outside all pools; removing one while something is mounted on it empties the volume behind it.
 */
module NodeServer {
  import opened Common
  import opened Paths
  import opened Pools
  import opened Strings

  datatype Loc = Loc(pool: string, id: string)

  /** `mounts` is the stack of bind mounts on each target, `targets` the target directories that exist. */
  datatype Node = Node(disk: Disk, mounts: map<string, seq<Loc>>, targets: set<string>)

  function Stack(n: Node, target: string): seq<Loc> {
    if target in n.mounts then n.mounts[target] else []
  }

  /**
   `pools` is the path of each storage pool by name, `uses` the targets and volumes that the container
   orchestrator brings together in its requests.
   */
  datatype Config = Config(pools: map<string, string>, defaultPool: string, uses: set<(string, string)>)

  /** All requests for this target are for one volume. */
  ghost predicate Unshared(cfg: Config, target: string) {
    forall a, b | (target, a) in cfg.uses && (target, b) in cfg.uses :: a == b
  }

  datatype Request =
    | Publish(id: string, target: string, pool: Option<string>, ephemeral: bool)
    | Unpublish(id: string, target: string)

  /** What the operating system answers to the calls of one RPC; `checkOk` is an error other than NotExist. */
  datatype Answers = Answers(
    checkOk: bool, mkdirOk: bool, dirOk: bool, mountOk: bool, statOk: bool, cleanOk: bool,
    unmountOk: bool, removeOk: bool, readOk: bool, dropOk: bool)

  /** The next system call of an RPC. */
  datatype Phase = Check | MakeDir | Mount(loc: Loc) | Clean(loc: Loc) | Unmount | Remove | Drop

  datatype Next = Ended(ok: bool) | Go(phase: Phase)

  // ---------------------------------------------------------------- the calls

  predicate IsEphemeralId(id: string) {
    |id| >= 3 && id[..3] == "csi"
  }

  lemma EphemeralIdIff(id: string)
    ensures IsEphemeralId(id) <==> exists rest :: id == "csi" + rest
  {
    if IsEphemeralId(id) {
      assert id == "csi" + id[3..];
    }
    if rest :| id == "csi" + rest {
      assert id[..3] == "csi";
    }
  }

  /** Where the volume of a publish request is; a pool name that is not configured has the path "". */
  function Source(cfg: Config, req: Request): Loc
    requires req.Publish?
  {
    var name := if req.pool.Some? then req.pool.value else "legacy";
    var path := if name in cfg.pools then cfg.pools[name] else "";
    if req.ephemeral && path == "" && cfg.defaultPool in cfg.pools then Loc(cfg.pools[cfg.defaultPool], req.id)
    else Loc(path, req.id)
  }

  /** canMountVolume, and the mount point test of NodeUnpublishVolume. */
  function DoCheck(n: Node, req: Request, a: Answers): (Node, Next) {
    if req.target !in n.targets then
      if req.Unpublish? then (n, Go(Remove))
      else if a.mkdirOk then (n.(targets := n.targets + {req.target}), Go(MakeDir))
      else (n, Ended(false))
    else if !a.checkOk then (n, Ended(false))
    else if Stack(n, req.target) == [] then (n, Go(if req.Publish? then MakeDir else Remove))
    else if req.Publish? then (n, Ended(true))
    else (n, Go(Unmount))
  }

  /** os.MkdirAll of a volume directory. */
  function WithDir(disk: Disk, loc: Loc): Disk
    requires loc.pool in disk
  {
    if Holds(disk, loc.pool, loc.id) then disk
    else disk[loc.pool := disk[loc.pool][loc.id := Directory(map[])]]
  }

  predicate CanMakeDir(disk: Disk, loc: Loc) {
    loc.pool in disk && (loc.id in disk[loc.pool] ==> disk[loc.pool][loc.id].Directory?)
  }

  function DoMakeDir(cfg: Config, n: Node, req: Request, a: Answers): (Node, Next)
    requires req.Publish?
  {
    var loc := Source(cfg, req);
    if !req.ephemeral then (n, Go(Mount(loc)))
    else if a.dirOk && CanMakeDir(n.disk, loc) then (n.(disk := WithDir(n.disk, loc)), Go(Mount(loc)))
    else (n, Ended(false))
  }

  /** A bind mount needs both ends. */
  function DoMount(n: Node, req: Request, loc: Loc, a: Answers): (Node, Next) {
    if a.mountOk && Holds(n.disk, loc.pool, loc.id) && req.target in n.targets
    then (n.(mounts := n.mounts[req.target := Stack(n, req.target) + [loc]]), Ended(true))
    else (n, Go(Clean(loc)))
  }

  /** After a failed mount; without a readable target the handler panics before it cleans up. */
  function DoClean(n: Node, req: Request, loc: Loc, a: Answers): (Node, Next)
    requires req.Publish?
  {
    if a.statOk && req.ephemeral && a.cleanOk && loc.pool in n.disk
    then (n.(disk := Without(n.disk, loc.pool, loc.id)), Ended(false))
    else (n, Ended(false))
  }

  function DoUnmount(n: Node, req: Request, a: Answers): (Node, Next) {
    var stack := Stack(n, req.target);
    if a.unmountOk && stack != [] then (n.(mounts := n.mounts[req.target := stack[..|stack| - 1]]), Go(Remove))
    else (n, Ended(false))
  }

  /** The files of a volume, removed through a mount of it. */
  function Emptied(disk: Disk, loc: Loc): Disk {
    if Holds(disk, loc.pool, loc.id) then disk[loc.pool := disk[loc.pool][loc.id := Directory(map[])]] else disk
  }

  /** os.RemoveAll(target): through a live mount it empties the volume and then fails on the mount point. */
  function DoRemove(n: Node, req: Request, a: Answers): (Node, Next) {
    var stack := Stack(n, req.target);
    if stack != [] then (n.(disk := Emptied(n.disk, stack[|stack| - 1])), Ended(false))
    else if !a.removeOk then (n, Ended(false))
    else (n.(targets := n.targets - {req.target}), if IsEphemeralId(req.id) then Go(Drop) else Ended(true))
  }

  /** removeEphemeralPath */
  ghost function DoDrop(n: Node, req: Request, a: Answers): (Node, Next) {
    if !a.readOk || (!a.dropOk && Holding(n.disk, req.id) != {}) then (n, Ended(false))
    else (n.(disk := Deleted(n.disk, req.id)), Ended(true))
  }

  ghost function Advance(cfg: Config, n: Node, req: Request, phase: Phase, a: Answers): (Node, Next) {
    match phase
    case Check => DoCheck(n, req, a)
    case MakeDir => if req.Publish? then DoMakeDir(cfg, n, req, a) else (n, Ended(false))
    case Mount(loc) => DoMount(n, req, loc, a)
    case Clean(loc) => if req.Publish? then DoClean(n, req, loc, a) else (n, Ended(false))
    case Unmount => DoUnmount(n, req, a)
    case Remove => DoRemove(n, req, a)
    case Drop => DoDrop(n, req, a)
  }

  // ---------------------------------------------------------------- concurrent RPCs

  datatype Op = Op(req: Request, phase: Phase)

  /**
   At most one RPC per volume is in flight, as the CSI specification asks of its callers. A restart of the
   driver cuts all of them short; mounts and directories stay.
   */
  datatype State = State(node: Node, ops: map<string, Op>)

  datatype Event =
    | Begin(req: Request)
    | Call(id: string, answers: Answers)
    | Write(loc: Loc, file: string, bytes: string)
    | CreateVolume(loc: Loc)
    | DeleteVolume(id: string)
    | Restart

  ghost function Step(cfg: Config, s: State, e: Event): Option<State> {
    match e
    case Begin(req) =>
      if req.id in s.ops || (req.target, req.id) !in cfg.uses then None
      else Some(s.(ops := s.ops[req.id := Op(req, Check)]))
    case Call(id, a) =>
      if id !in s.ops then None
      else
        var (n, next) := Advance(cfg, s.node, s.ops[id].req, s.ops[id].phase, a);
        Some(State(n, if next.Go? then s.ops[id := Op(s.ops[id].req, next.phase)] else s.ops - {id}))
    case Write(loc, file, bytes) =>
      if !Holds(s.node.disk, loc.pool, loc.id) then None
      else
        var files := s.node.disk[loc.pool][loc.id].files[file := bytes];
        Some(s.(node := s.node.(disk := s.node.disk[loc.pool := s.node.disk[loc.pool][loc.id := Directory(files)]])))
    case CreateVolume(loc) =>
      if !CanMakeDir(s.node.disk, loc) then None
      else Some(s.(node := s.node.(disk := WithDir(s.node.disk, loc))))
    case DeleteVolume(id) => Some(s.(node := s.node.(disk := Deleted(s.node.disk, id))))
    case Restart => Some(s.(ops := map[]))
  }

  ghost function Exec(cfg: Config, s: State, es: seq<Event>): Option<State>
    decreases |es|
  {
    if es == [] then Some(s)
    else
      var next := Step(cfg, s, es[0]);
      if next.None? then None else Exec(cfg, next.value, es[1..])
  }

  function Init(disk: Disk): State {
    State(Node(disk, map[], {}), map[])
  }

  /** An RPC past its mount point test finds nothing mounted on its target. */
  predicate Unmounted(op: Op) {
    op.phase != Check && op.phase != Unmount
  }

  /** One target: at most one mount, none while an RPC relies on that. */
  ghost predicate TargetOk(s: State, target: string) {
    && |Stack(s.node, target)| <= 1
    && (Stack(s.node, target) != [] ==> target in s.node.targets)
    && (forall id | id in s.ops && s.ops[id].req.target == target && Unmounted(s.ops[id]) ::
          Stack(s.node, target) == [])
  }

  /** RPCs in flight are filed under their volume, on targets it is used with. */
  ghost predicate OpsOk(cfg: Config, s: State) {
    forall id | id in s.ops :: s.ops[id].req.id == id && (s.ops[id].req.target, id) in cfg.uses
  }

  lemma OpsOkStep(cfg: Config, s: State, e: Event, s': State)
    requires OpsOk(cfg, s) && Step(cfg, s, e) == Some(s')
    ensures OpsOk(cfg, s')
  {
  }

  lemma {:induction false} OpsOkAlways(cfg: Config, s: State, es: seq<Event>, s': State)
    requires OpsOk(cfg, s) && Exec(cfg, s, es) == Some(s')
    ensures OpsOk(cfg, s')
    decreases |es|
  {
    if es != [] {
      var next := Step(cfg, s, es[0]).value;
      OpsOkStep(cfg, s, es[0], next);
      OpsOkAlways(cfg, next, es[1..], s');
    }
  }

  lemma AdvanceTarget(cfg: Config, n: Node, req: Request, phase: Phase, a: Answers, target: string)
    requires |Stack(n, target)| <= 1 && (Stack(n, target) != [] ==> target in n.targets)
    requires req.target == target && Unmounted(Op(req, phase)) ==> Stack(n, target) == []
    ensures var (n', next) := Advance(cfg, n, req, phase, a);
            && |Stack(n', target)| <= 1 && (Stack(n', target) != [] ==> target in n'.targets)
            && (req.target != target ==> Stack(n', target) == Stack(n, target))
            && (req.target == target && next.Go? && Unmounted(Op(req, next.phase)) ==> Stack(n', target) == [])
  {
  }

  lemma TargetOkStep(cfg: Config, s: State, e: Event, s': State, target: string)
    requires Unshared(cfg, target) && OpsOk(cfg, s) && TargetOk(s, target) && Step(cfg, s, e) == Some(s')
    ensures TargetOk(s', target)
  {
    if e.Call? {
      var op := s.ops[e.id];
      AdvanceTarget(cfg, s.node, op.req, op.phase, e.answers, target);
    }
  }

  lemma {:induction false} TargetOkAlways(cfg: Config, s: State, es: seq<Event>, s': State, target: string)
    requires Unshared(cfg, target) && OpsOk(cfg, s) && TargetOk(s, target) && Exec(cfg, s, es) == Some(s')
    ensures TargetOk(s', target)
    decreases |es|
  {
    if es != [] {
      var next := Step(cfg, s, es[0]).value;
      OpsOkStep(cfg, s, es[0], next);
      TargetOkStep(cfg, s, es[0], next, target);
      TargetOkAlways(cfg, next, es[1..], s', target);
    }
  }

  /** In every interleaving an unshared target carries at most one mount, so one Unmount is enough. */
  lemma OneMountPerTarget(cfg: Config, disk: Disk, es: seq<Event>, s: State, target: string)
    requires Unshared(cfg, target) && Exec(cfg, Init(disk), es) == Some(s)
    ensures |Stack(s.node, target)| <= 1
  {
    TargetOkAlways(cfg, Init(disk), es, s, target);
  }

  /** And the mount point is never removed while something is mounted on it. */
  lemma RemoveNeverThroughMount(cfg: Config, disk: Disk, es: seq<Event>, s: State, id: string)
    requires Exec(cfg, Init(disk), es) == Some(s) && id in s.ops && s.ops[id].phase == Remove
    requires Unshared(cfg, s.ops[id].req.target)
    ensures Stack(s.node, s.ops[id].req.target) == []
  {
    TargetOkAlways(cfg, Init(disk), es, s, s.ops[id].req.target);
  }

  /** No call of an unpublish RPC changes any volume, unless the id has the ephemeral prefix. */
  lemma UnpublishKeepsVolumes(cfg: Config, disk: Disk, es: seq<Event>, s: State, id: string, a: Answers, s': State)
    requires Exec(cfg, Init(disk), es) == Some(s) && id in s.ops && s.ops[id].req.Unpublish?
    requires Step(cfg, s, Call(id, a)) == Some(s') && !IsEphemeralId(id) && Unshared(cfg, s.ops[id].req.target)
    ensures s'.node.disk == s.node.disk
  {
    TargetOkAlways(cfg, Init(disk), es, s, s.ops[id].req.target);
    DropIsEphemeralAlways(cfg, disk, es, s, id);
  }

  /** Phases belong to their RPC, and Drop is only reached for ephemeral ids. */
  ghost predicate PhasesOk(s: State) {
    forall id | id in s.ops :: s.ops[id].req.id == id && PhaseOk(s.ops[id])
  }

  predicate PhaseOk(op: Op) {
    match op.phase
    case Check => true
    case MakeDir => op.req.Publish?
    case Mount(_) => op.req.Publish?
    case Clean(_) => op.req.Publish?
    case Unmount => op.req.Unpublish?
    case Remove => op.req.Unpublish?
    case Drop => op.req.Unpublish? && IsEphemeralId(op.req.id)
  }

  lemma PhasesOkStep(cfg: Config, s: State, e: Event, s': State)
    requires PhasesOk(s) && Step(cfg, s, e) == Some(s')
    ensures PhasesOk(s')
  {
  }

  lemma {:induction false} PhasesOkAlways(cfg: Config, s: State, es: seq<Event>, s': State)
    requires PhasesOk(s) && Exec(cfg, s, es) == Some(s')
    ensures PhasesOk(s')
    decreases |es|
  {
    if es != [] {
      var next := Step(cfg, s, es[0]).value;
      PhasesOkStep(cfg, s, es[0], next);
      PhasesOkAlways(cfg, next, es[1..], s');
    }
  }

  lemma DropIsEphemeralAlways(cfg: Config, disk: Disk, es: seq<Event>, s: State, id: string)
    requires Exec(cfg, Init(disk), es) == Some(s) && id in s.ops
    ensures PhaseOk(s.ops[id]) && s.ops[id].req.id == id
  {
    PhasesOkAlways(cfg, Init(disk), es, s);
  }

  // ---------------------------------------------------------------- why targets must not be shared

  lemma {:induction false} ExecThen(cfg: Config, s: State, es: seq<Event>, mid: State, e: Event)
    requires Exec(cfg, s, es) == Some(mid)
    ensures Exec(cfg, s, es + [e]) == Step(cfg, mid, e)
    decreases |es|
  {
    if es == [] {
      assert (es + [e])[1..] == [];
    } else {
      ExecThen(cfg, Step(cfg, s, es[0]).value, es[1..], mid, e);
      assert (es + [e])[1..] == es[1..] + [e];
    }
  }

  /** A publish of an existing volume that has passed its check and is about to mount. */
  lemma AboutToMount(cfg: Config, init: State, es: seq<Event>, s: State, req: Request)
    returns (es': seq<Event>, s': State)
    requires Exec(cfg, init, es) == Some(s) && Stack(s.node, req.target) == []
    requires req.Publish? && !req.ephemeral && req.id !in s.ops && (req.target, req.id) in cfg.uses
    ensures Exec(cfg, init, es') == Some(s')
    ensures s'.node.disk == s.node.disk && s'.node.mounts == s.node.mounts && req.target in s'.node.targets
    ensures s'.ops == s.ops[req.id := Op(req, Mount(Source(cfg, req)))]
  {
    var check := Call(req.id, AllOk());
    var s1 := s.(ops := s.ops[req.id := Op(req, Check)]);
    ExecThen(cfg, init, es, s, Begin(req));
    var s2 := Step(cfg, s1, check).value;
    ExecThen(cfg, init, es + [Begin(req)], s1, check);
    assert s2.ops[req.id] == Op(req, MakeDir);
    s' := Step(cfg, s2, check).value;
    ExecThen(cfg, init, es + [Begin(req)] + [check], s2, check);
    es' := es + [Begin(req)] + [check] + [check];
    assert s'.ops == s.ops[req.id := Op(req, Mount(Source(cfg, req)))];
  }

  lemma Then(cfg: Config, init: State, es: seq<Event>, s: State, e: Event) returns (es': seq<Event>, s': State)
    requires Exec(cfg, init, es) == Some(s) && Step(cfg, s, e).Some?
    ensures Exec(cfg, init, es') == Some(s') && Step(cfg, s, e) == Some(s')
  {
    ExecThen(cfg, init, es, s, e);
    es', s' := es + [e], Step(cfg, s, e).value;
  }

  /** Two volumes that share a target can end up mounted on top of each other. */
  lemma SharedTargetMountsTwice(cfg: Config, init: State, es: seq<Event>, s: State,
                                target: string, pool: string, a: string, b: string)
    returns (es': seq<Event>, s': State)
    requires Exec(cfg, init, es) == Some(s) && s.ops == map[] && Stack(s.node, target) == []
    requires a != b && (target, a) in cfg.uses && (target, b) in cfg.uses && pool in cfg.pools
    requires Holds(s.node.disk, cfg.pools[pool], a) && Holds(s.node.disk, cfg.pools[pool], b)
    ensures Exec(cfg, init, es') == Some(s') && s'.ops == map[]
    ensures Stack(s'.node, target) == [Loc(cfg.pools[pool], a), Loc(cfg.pools[pool], b)]
    ensures s'.node.disk == s.node.disk && target in s'.node.targets
  {
    var ra, rb := Publish(a, target, Some(pool), false), Publish(b, target, Some(pool), false);
    es', s' := AboutToMount(cfg, init, es, s, ra);
    es', s' := AboutToMount(cfg, init, es', s', rb);
    es', s' := Then(cfg, init, es', s', Call(a, AllOk()));
    es', s' := Then(cfg, init, es', s', Call(b, AllOk()));
    assert s'.ops == map[];
  }

  /**
   For volumes that exist, a target never carries two mounts in any interleaving if and only if it is
   not shared: the mount point check of one RPC does not protect it from another volume's.
   */
  lemma OneMountIffUnshared(cfg: Config, disk: Disk, target: string, pool: string)
    requires pool in cfg.pools
    requires forall id | (target, id) in cfg.uses :: Holds(disk, cfg.pools[pool], id)
    ensures (forall es: seq<Event>, s: State | Exec(cfg, Init(disk), es) == Some(s) :: |Stack(s.node, target)| <= 1)
            <==> Unshared(cfg, target)
  {
    if Unshared(cfg, target) {
      forall es: seq<Event>, s: State | Exec(cfg, Init(disk), es) == Some(s)
        ensures |Stack(s.node, target)| <= 1
      {
        OneMountPerTarget(cfg, disk, es, s, target);
      }
    } else {
      var a, b :| (target, a) in cfg.uses && (target, b) in cfg.uses && a != b;
      var es, s := SharedTargetMountsTwice(cfg, Init(disk), [], Init(disk), target, pool, a, b);
    }
  }

  /** An unpublish takes off one of two mounts and is about to remove the target through the other. */
  lemma UnpublishUncovers(cfg: Config, init: State, es: seq<Event>, s: State, req: Request, under: Loc, top: Loc)
    returns (es': seq<Event>, s': State)
    requires Exec(cfg, init, es) == Some(s) && req.Unpublish? && (req.target, req.id) in cfg.uses && s.ops == map[]
    requires req.target in s.node.targets && Stack(s.node, req.target) == [under, top]
    ensures Exec(cfg, init, es') == Some(s') && s'.node.disk == s.node.disk
    ensures s'.ops == map[req.id := Op(req, Remove)] && Stack(s'.node, req.target) == [under]
  {
    es', s' := Then(cfg, init, es, s, Begin(req));
    es', s' := Then(cfg, init, es', s', Call(req.id, AllOk()));
    es', s' := Then(cfg, init, es', s', Call(req.id, AllOk()));
    assert s'.ops == map[req.id := Op(req, Remove)];
    assert [under, top][..1] == [under];
  }

  /** `a` and `b` share the target; `b` is unpublished while the volume of `a` is still mounted below it. */
  lemma SharedTargetRemovesMounted(cfg: Config, disk: Disk, target: string, pool: string, a: string, b: string)
    returns (es: seq<Event>, s: State)
    requires a != b && (target, a) in cfg.uses && (target, b) in cfg.uses && pool in cfg.pools
    requires Holds(disk, cfg.pools[pool], a) && Holds(disk, cfg.pools[pool], b)
    ensures Exec(cfg, Init(disk), es) == Some(s) && s.ops == map[b := Op(Unpublish(b, target), Remove)]
    ensures Stack(s.node, target) == [Loc(cfg.pools[pool], a)]
    ensures Holds(s.node.disk, cfg.pools[pool], a) && s.node.disk[cfg.pools[pool]][a].files != map[]
  {
    var loc := Loc(cfg.pools[pool], a);
    es, s := Then(cfg, Init(disk), [], Init(disk), Write(loc, "file", ""));
    assert "file" in s.node.disk[loc.pool][a].files;
    es, s := SharedTargetMountsTwice(cfg, Init(disk), es, s, target, pool, a, b);
    es, s := UnpublishUncovers(cfg, Init(disk), es, s, Unpublish(b, target), loc, Loc(loc.pool, b));
  }

  ghost predicate NeverRemovesMounted(cfg: Config, disk: Disk, target: string) {
    forall es: seq<Event>, s: State, id: string
      | Exec(cfg, Init(disk), es) == Some(s) && id in s.ops && s.ops[id].phase == Remove
        && s.ops[id].req.target == target ::
      Stack(s.node, target) == []
  }

  /** For volumes that exist, a target is never removed through a mount if and only if it is not shared. */
  lemma RemoveNeverThroughMountIff(cfg: Config, disk: Disk, target: string, pool: string)
    requires pool in cfg.pools
    requires forall id | (target, id) in cfg.uses :: Holds(disk, cfg.pools[pool], id)
    ensures NeverRemovesMounted(cfg, disk, target) <==> Unshared(cfg, target)
  {
    if Unshared(cfg, target) {
      forall es: seq<Event>, s: State, id: string
        | Exec(cfg, Init(disk), es) == Some(s) && id in s.ops && s.ops[id].phase == Remove
          && s.ops[id].req.target == target
        ensures Stack(s.node, target) == []
      {
        RemoveNeverThroughMount(cfg, disk, es, s, id);
      }
    } else {
      var a, b :| (target, a) in cfg.uses && (target, b) in cfg.uses && a != b;
      var es, s := SharedTargetRemovesMounted(cfg, disk, target, pool, a, b);
      assert b in s.ops && s.ops[b].phase == Remove;
    }
  }

  /** The next call of that unpublish empties the volume of `a`. */
  lemma SharedTargetWipes(cfg: Config, disk: Disk, target: string, pool: string, a: string, b: string)
    returns (es: seq<Event>, s: State, s': State)
    requires a != b && (target, a) in cfg.uses && (target, b) in cfg.uses && pool in cfg.pools
    requires Holds(disk, cfg.pools[pool], a) && Holds(disk, cfg.pools[pool], b)
    ensures Exec(cfg, Init(disk), es) == Some(s) && s.ops == map[b := Op(Unpublish(b, target), Remove)]
    ensures Step(cfg, s, Call(b, AllOk())) == Some(s')
    ensures Holds(s.node.disk, cfg.pools[pool], a) && s.node.disk[cfg.pools[pool]][a].files != map[]
    ensures Holds(s'.node.disk, cfg.pools[pool], a) && s'.node.disk[cfg.pools[pool]][a].files == map[]
  {
    es, s := SharedTargetRemovesMounted(cfg, disk, target, pool, a, b);
    s' := Step(cfg, s, Call(b, AllOk())).value;
  }

  /** No call of an unpublish on this target, for an id that is not ephemeral, changes a volume. */
  ghost predicate UnpublishKeeps(cfg: Config, disk: Disk, target: string) {
    forall es: seq<Event>, s: State, id: string, a: Answers, s': State
      | Exec(cfg, Init(disk), es) == Some(s) && id in s.ops && s.ops[id].req.Unpublish?
        && s.ops[id].req.target == target && !IsEphemeralId(id) && Step(cfg, s, Call(id, a)) == Some(s') ::
      s'.node.disk == s.node.disk
  }

  ghost predicate OnlyEphemeral(cfg: Config, target: string) {
    forall id | (target, id) in cfg.uses :: IsEphemeralId(id)
  }

  lemma UsedAlways(cfg: Config, disk: Disk, es: seq<Event>, s: State, id: string)
    requires Exec(cfg, Init(disk), es) == Some(s) && id in s.ops
    ensures (s.ops[id].req.target, id) in cfg.uses
  {
    OpsOkAlways(cfg, Init(disk), es, s);
  }

  /** For volumes that exist, exactly when unpublishing ordinary ids on a target leaves all volumes alone. */
  lemma UnpublishKeepsVolumesIff(cfg: Config, disk: Disk, target: string, pool: string)
    requires pool in cfg.pools
    requires forall id | (target, id) in cfg.uses :: Holds(disk, cfg.pools[pool], id)
    ensures UnpublishKeeps(cfg, disk, target) <==> Unshared(cfg, target) || OnlyEphemeral(cfg, target)
  {
    if Unshared(cfg, target) || OnlyEphemeral(cfg, target) {
      forall es: seq<Event>, s: State, id: string, a: Answers, s': State
        | Exec(cfg, Init(disk), es) == Some(s) && id in s.ops && s.ops[id].req.Unpublish?
          && s.ops[id].req.target == target && !IsEphemeralId(id) && Step(cfg, s, Call(id, a)) == Some(s')
        ensures s'.node.disk == s.node.disk
      {
        UsedAlways(cfg, disk, es, s, id);
        UnpublishKeepsVolumes(cfg, disk, es, s, id, a, s');
      }
    } else {
      var b :| (target, b) in cfg.uses && !IsEphemeralId(b);
      var a := OtherUse(cfg, target, b);
      var es, s, s' := SharedTargetWipes(cfg, disk, target, pool, a, b);
      assert b in s.ops && s'.node.disk != s.node.disk;
    }
  }

  lemma OtherUse(cfg: Config, target: string, b: string) returns (a: string)
    requires !Unshared(cfg, target) && (target, b) in cfg.uses
    ensures (target, a) in cfg.uses && a != b
  {
    var x, y :| (target, x) in cfg.uses && (target, y) in cfg.uses && x != y;
    a := if x != b then x else y;
  }

  // ---------------------------------------------------------------- one RPC on its own

  function Rank(phase: Phase): nat {
    match phase
    case Check => 4
    case MakeDir => 3
    case Unmount => 3
    case Mount(_) => 2
    case Remove => 2
    case Clean(_) => 1
    case Drop => 1
  }

  /** The calls of one RPC without interference, from `phase` to its response. */
  ghost function Complete(cfg: Config, n: Node, req: Request, phase: Phase, a: Answers): (Node, bool)
    decreases Rank(phase)
  {
    var (n', next) := Advance(cfg, n, req, phase, a);
    if next.Ended? then (n', next.ok) else Complete(cfg, n', req, next.phase, a)
  }

  ghost function Rpc(cfg: Config, n: Node, req: Request, a: Answers): (Node, bool) {
    Complete(cfg, n, req, Check, a)
  }

  /** mountVolume in one piece. */
  lemma MountResult(cfg: Config, n: Node, req: Request, a: Answers)
    requires req.Publish?
    ensures var loc := Source(cfg, req);
            var r := Complete(cfg, n, req, MakeDir, a);
            if req.ephemeral && !(a.dirOk && CanMakeDir(n.disk, loc)) then r == (n, false)
            else
              var disk := if req.ephemeral then WithDir(n.disk, loc) else n.disk;
              if a.mountOk && Holds(disk, loc.pool, loc.id) && req.target in n.targets then
                r == (n.(disk := disk, mounts := n.mounts[req.target := Stack(n, req.target) + [loc]]), true)
              else if a.statOk && req.ephemeral && a.cleanOk && loc.pool in disk then
                r == (n.(disk := Without(disk, loc.pool, loc.id)), false)
              else r == (n.(disk := disk), false)
  {
    var (n1, next) := DoMakeDir(cfg, n, req, a);
    if next.Go? {
      assert Complete(cfg, n, req, MakeDir, a) == Complete(cfg, n1, req, next.phase, a);
    }
  }

  lemma CheckThenMount(cfg: Config, n: Node, req: Request, a: Answers)
    requires req.Publish?
    ensures var (n1, next) := DoCheck(n, req, a);
            Rpc(cfg, n, req, a) == if next.Ended? then (n1, next.ok) else Complete(cfg, n1, req, MakeDir, a)
  {
  }

  /** A successful publish leaves the target in place and mounted. */
  lemma PublishEffect(cfg: Config, n: Node, req: Request, a: Answers)
    requires req.Publish? && Rpc(cfg, n, req, a).1
    ensures req.target in Rpc(cfg, n, req, a).0.targets && Stack(Rpc(cfg, n, req, a).0, req.target) != []
  {
    CheckThenMount(cfg, n, req, a);
    MountResult(cfg, DoCheck(n, req, a).0, req, a);
  }

  /** A volume with its contents replaced. */
  function Filled(disk: Disk, loc: Loc, files: Files): Disk
    requires loc.pool in disk
  {
    disk[loc.pool := disk[loc.pool][loc.id := Directory(files)]]
  }

  /** The path that the configuration has for the pool of a request, "legacy" if the request names none. */
  function PathOf(cfg: Config, pool: Option<string>): string {
    var name := if pool.Some? then pool.value else "legacy";
    if name in cfg.pools then cfg.pools[name] else ""
  }

  /**
   Where a successful publish on a free target leaves the volume: one mount, of this id in the pool that the request
   names; the default pool is taken only for an ephemeral volume whose pool has no path. An ephemeral volume is made
   there unless it exists, and nothing else changes.
   */
  lemma PublishMounts(cfg: Config, n: Node, req: Request, a: Answers) returns (loc: Loc)
    requires req.Publish? && Stack(n, req.target) == [] && Rpc(cfg, n, req, a).1
    ensures loc.id == req.id && loc.pool in n.disk
    ensures !req.ephemeral || PathOf(cfg, req.pool) != "" ==> loc.pool == PathOf(cfg, req.pool)
    ensures req.ephemeral && PathOf(cfg, req.pool) == "" && cfg.defaultPool in cfg.pools ==>
              loc.pool == cfg.pools[cfg.defaultPool]
    ensures var n1 := Rpc(cfg, n, req, a).0;
            && Stack(n1, req.target) == [loc] && n1.targets == n.targets + {req.target}
            && (forall t | t != req.target :: Stack(n1, t) == Stack(n, t))
            && (if Holds(n.disk, loc.pool, loc.id) then n1.disk == n.disk
                else req.ephemeral && n1.disk == Filled(n.disk, loc, map[]))
  {
    CheckThenMount(cfg, n, req, a);
    MountResult(cfg, DoCheck(n, req, a).0, req, a);
    loc := Source(cfg, req);
  }

  /** Publishing again changes nothing, whatever the system answers and whatever was written meanwhile. */
  lemma PublishIdempotent(cfg: Config, n: Node, req: Request, a: Answers, written: Disk, b: Answers)
    requires req.Publish? && Rpc(cfg, n, req, a).1
    ensures var n1 := Rpc(cfg, n, req, a).0.(disk := written);
            Rpc(cfg, n1, req, b) == (n1, b.checkOk)
  {
    PublishEffect(cfg, n, req, a);
  }

  /** Which publishes on a free target succeed. */
  lemma PublishSucceedsIff(cfg: Config, n: Node, req: Request, a: Answers)
    requires req.Publish? && Stack(n, req.target) == []
    ensures var loc := Source(cfg, req);
            Rpc(cfg, n, req, a).1 <==>
            && (if req.target in n.targets then a.checkOk else a.mkdirOk) && a.mountOk
            && (Holds(n.disk, loc.pool, loc.id) || (req.ephemeral && loc.pool in n.disk && loc.id !in n.disk[loc.pool]))
            && (req.ephemeral ==> a.dirOk)
  {
    CheckThenMount(cfg, n, req, a);
    MountResult(cfg, DoCheck(n, req, a).0, req, a);
  }

  /** One that fails mounts nothing, and outside the named volume leaves all pools as they were. */
  lemma FailedPublishMountsNothing(cfg: Config, n: Node, req: Request, a: Answers, pool: string, id: string)
    requires req.Publish? && !Rpc(cfg, n, req, a).1
    ensures var n1 := Rpc(cfg, n, req, a).0;
            && n1.mounts == n.mounts && n.targets <= n1.targets <= n.targets + {req.target}
            && n1.disk.Keys == n.disk.Keys && (!req.ephemeral ==> n1.disk == n.disk)
            && (pool in n.disk && id != req.id ==>
                && (id in n1.disk[pool] <==> id in n.disk[pool])
                && (id in n.disk[pool] ==> n1.disk[pool][id] == n.disk[pool][id]))
  {
    CheckThenMount(cfg, n, req, a);
    if DoCheck(n, req, a).1.Go? {
      MountResult(cfg, DoCheck(n, req, a).0, req, a);
    }
  }

  /** Which unpublishes succeed, and that one that fails empties nothing and leaves other targets alone. */
  lemma UnpublishSucceedsIff(cfg: Config, n: Node, req: Request, a: Answers)
    requires req.Unpublish? && |Stack(n, req.target)| <= 1
    requires Stack(n, req.target) != [] ==> req.target in n.targets
    ensures var (n1, ok) := Rpc(cfg, n, req, a);
            && (ok <==>
                && (req.target in n.targets ==> a.checkOk) && (Stack(n, req.target) != [] ==> a.unmountOk) && a.removeOk
                && (IsEphemeralId(req.id) ==> a.readOk && (a.dropOk || Holding(n.disk, req.id) == {})))
            && (!ok ==> n1.disk == n.disk && forall t | t != req.target :: Stack(n1, t) == Stack(n, t))
  {
    var stack := Stack(n, req.target);
    if stack != [] {
      assert stack[..|stack| - 1] == [];
    }
  }

  /** A target with at most one mount is free of mounts and gone after a successful unpublish. */
  lemma UnpublishEffect(cfg: Config, n: Node, req: Request, a: Answers)
    requires req.Unpublish? && Rpc(cfg, n, req, a).1 && |Stack(n, req.target)| <= 1
    requires Stack(n, req.target) != [] ==> req.target in n.targets
    ensures var n1 := Rpc(cfg, n, req, a).0;
            && Stack(n1, req.target) == [] && n1.targets == n.targets - {req.target}
            && (forall t | t != req.target :: Stack(n1, t) == Stack(n, t))
            && n1.disk == if IsEphemeralId(req.id) then Deleted(n.disk, req.id) else n.disk
  {
    var stack := Stack(n, req.target);
    if stack != [] {
      assert stack[..|stack| - 1] == [];
    }
  }

  lemma SecondUnpublish(cfg: Config, n: Node, req: Request, b: Answers)
    requires req.Unpublish? && Stack(n, req.target) == [] && req.target !in n.targets
    requires b.removeOk && b.readOk && b.dropOk
    ensures Rpc(cfg, n, req, b) == (n.(disk := if IsEphemeralId(req.id) then Deleted(n.disk, req.id) else n.disk), true)
  {
    assert n.targets - {req.target} == n.targets;
  }

  /** Unpublishing again changes nothing exactly when the id is not ephemeral or at most one pool held it. */
  lemma UnpublishIdempotentIff(cfg: Config, n: Node, req: Request, a: Answers, b: Answers)
    requires req.Unpublish? && Rpc(cfg, n, req, a).1 && |Stack(n, req.target)| <= 1
    requires Stack(n, req.target) != [] ==> req.target in n.targets
    requires b.removeOk && b.readOk && b.dropOk
    ensures var n1 := Rpc(cfg, n, req, a).0;
            Rpc(cfg, n1, req, b).1 &&
            (Rpc(cfg, n1, req, b).0 == n1 <==> !IsEphemeralId(req.id) || |Holding(n.disk, req.id)| <= 1)
  {
    var n1 := Rpc(cfg, n, req, a).0;
    UnpublishEffect(cfg, n, req, a);
    SecondUnpublish(cfg, n1, req, b);
    if IsEphemeralId(req.id) && Holding(n.disk, req.id) != {} {
      DeletedHolding(n.disk, req.id, req.id);
      var left := Holding(n1.disk, req.id);
      assert |left| == |Holding(n.disk, req.id)| - 1;
      if left != {} {
        DeletedHolding(n1.disk, req.id, req.id);
        assert Pick(n1.disk, req.id) in left;
        assert |left - {Pick(n1.disk, req.id)}| == |left| - 1;
      }
    }
  }

  function AllOk(): Answers {
    Answers(true, true, true, true, true, true, true, true, true, true)
  }

  /** In the listing of all volumes, those of this id in other pools come before the one in `pool`. */
  ghost predicate ComesLast(disk: Disk, pool: string, id: string) {
    forall q | q in Holding(disk, id) && q != pool :: Less(Join(q, id), Join(pool, id))
  }

  /** Deleting the id takes the new volume exactly if it comes last, and otherwise that of another pool. */
  lemma FilledThenDeletedIff(disk: Disk, loc: Loc, files: Files)
    requires loc.pool in disk && loc.id !in disk[loc.pool]
    ensures Filled(disk, loc, files) != disk
    ensures Deleted(Filled(disk, loc, files), loc.id) == disk <==> ComesLast(disk, loc.pool, loc.id)
  {
    var filled := Filled(disk, loc, files);
    assert Holding(filled, loc.id) == Holding(disk, loc.id) + {loc.pool};
    var picked := Pick(filled, loc.id);
    if ComesLast(disk, loc.pool, loc.id) {
      PickUnique(filled, loc.id, loc.pool);
      assert filled[loc.pool] - {loc.id} == disk[loc.pool];
    } else {
      assert picked != loc.pool;
      assert loc.id in Deleted(filled, loc.id)[loc.pool];
    }
  }

  /**
   An ephemeral volume comes into being at publish because the request says so, and goes at unpublish
   because of its id, from the last pool in the listing that has it. So publishing and unpublishing a new
   volume, with anything written in between, restores the pools exactly when its id starts with "csi" and
   no pool that comes after it in the listing holds the id.
   */
  lemma EphemeralRoundTripIff(cfg: Config, n: Node, req: Request, files: Files)
    requires req.Publish? && req.ephemeral && Stack(n, req.target) == []
    requires CanMakeDir(n.disk, Source(cfg, req)) && req.id !in n.disk[Source(cfg, req).pool]
    ensures var (n1, ok1) := Rpc(cfg, n, req, AllOk());
            && ok1 && n1.disk == Filled(n.disk, Source(cfg, req), map[])
            && var n2 := n1.(disk := Filled(n.disk, Source(cfg, req), files));
               var (n3, ok3) := Rpc(cfg, n2, Unpublish(req.id, req.target), AllOk());
            && ok3 && Stack(n3, req.target) == []
            && (n3.disk == n.disk <==> IsEphemeralId(req.id) && ComesLast(n.disk, Source(cfg, req).pool, req.id))
  {
    var loc := Source(cfg, req);
    var n1 := EphemeralPublished(cfg, n, req);
    var n2 := n1.(disk := Filled(n.disk, loc, files));
    var un := Unpublish(req.id, req.target);
    UnpublishSucceeds(cfg, n2, un);
    UnpublishEffect(cfg, n2, un, AllOk());
    FilledThenDeletedIff(n.disk, loc, files);
  }

  lemma EphemeralPublished(cfg: Config, n: Node, req: Request) returns (n1: Node)
    requires req.Publish? && req.ephemeral && Stack(n, req.target) == []
    requires CanMakeDir(n.disk, Source(cfg, req)) && Source(cfg, req).id !in n.disk[Source(cfg, req).pool]
    ensures Rpc(cfg, n, req, AllOk()) == (n1, true)
    ensures n1.disk == Filled(n.disk, Source(cfg, req), map[])
    ensures Stack(n1, req.target) == [Source(cfg, req)] && req.target in n1.targets
  {
    CheckThenMount(cfg, n, req, AllOk());
    MountResult(cfg, DoCheck(n, req, AllOk()).0, req, AllOk());
    n1 := Rpc(cfg, n, req, AllOk()).0;
  }

  lemma UnpublishSucceeds(cfg: Config, n: Node, req: Request)
    requires req.Unpublish? && |Stack(n, req.target)| == 1 && req.target in n.targets
    ensures Rpc(cfg, n, req, AllOk()).1
  {
    var n1 := DoUnmount(n, req, AllOk()).0;
    assert Stack(n1, req.target) == [];
    assert Rpc(cfg, n, req, AllOk()) == Complete(cfg, n1, req, Remove, AllOk());
  }

  /**
   A failed mount of an ephemeral volume leaves the pools as they were exactly when either the volume
   is new and the clean-up works, or it existed and the clean-up does not.
   */
  lemma FailedMountRestoresIff(cfg: Config, n: Node, req: Request, a: Answers)
    requires req.Publish? && req.ephemeral && Stack(n, req.target) == []
    requires CanMakeDir(n.disk, Source(cfg, req))
    requires a.checkOk && a.mkdirOk && a.dirOk && !a.mountOk
    ensures var (n1, ok) := Rpc(cfg, n, req, a);
            var loc := Source(cfg, req);
            !ok && (n1.disk == n.disk <==> (a.statOk && a.cleanOk) == !Holds(n.disk, loc.pool, loc.id))
  {
    var loc := Source(cfg, req);
    CheckThenMount(cfg, n, req, a);
    MountResult(cfg, DoCheck(n, req, a).0, req, a);
    var made := WithDir(n.disk, loc);
    assert made[loc.pool] - {loc.id} == n.disk[loc.pool] - {loc.id};
    assert Without(made, loc.pool, loc.id) == Without(n.disk, loc.pool, loc.id);
    if !Holds(n.disk, loc.pool, loc.id) {
      assert n.disk[loc.pool] - {loc.id} == n.disk[loc.pool];
      assert Without(n.disk, loc.pool, loc.id) == n.disk;
      assert loc.id in made[loc.pool] && loc.id !in n.disk[loc.pool];
    } else {
      assert loc.id !in Without(n.disk, loc.pool, loc.id)[loc.pool];
    }
  }

  // ---------------------------------------------------------------- the server object

  class HostPathNode {
    const cfg: Config
    var disk: Disk
    var mounts: map<string, seq<Loc>>
    var targets: set<string>

    constructor (cfg: Config, disk: Disk)
      ensures this.cfg == cfg && View() == Node(disk, map[], {})
    {
      this.cfg := cfg;
      this.disk, mounts, targets := disk, map[], {};
    }

    function View(): Node
      reads this
    {
      Node(disk, mounts, targets)
    }

    method CanMountVolume(req: Request, a: Answers) returns (can: bool, ok: bool)
      requires req.Publish?
      modifies this`targets
      ensures (View(), if can then Go(MakeDir) else Ended(ok)) == DoCheck(old(View()), req, a)
    {
      if req.target !in targets {
        if !a.mkdirOk {
          return false, false;
        }
        targets := targets + {req.target};
        return true, true;
      }
      if !a.checkOk {
        return false, false;
      }
      return Stack(View(), req.target) == [], true;
    }

    method MountVolume(req: Request, a: Answers) returns (ok: bool)
      requires req.Publish?
      modifies this`disk, this`mounts
      ensures (View(), ok) == Complete(cfg, old(View()), req, MakeDir, a)
    {
      MountResult(cfg, View(), req, a);
      var loc := Source(cfg, req);
      if req.ephemeral {
        if !a.dirOk || !CanMakeDir(disk, loc) {
          return false;
        }
        disk := WithDir(disk, loc);
      }
      if !a.mountOk || !Holds(disk, loc.pool, loc.id) || req.target !in targets {
        if a.statOk && req.ephemeral && a.cleanOk && loc.pool in disk {
          disk := Without(disk, loc.pool, loc.id);
        }
        return false;
      }
      mounts := mounts[req.target := Stack(View(), req.target) + [loc]];
      return true;
    }

    method NodePublishVolume(req: Request, a: Answers) returns (ok: bool)
      requires req.Publish?
      modifies this`disk, this`mounts, this`targets
      ensures (View(), ok) == Rpc(cfg, old(View()), req, a)
    {
      var can, okSoFar := CanMountVolume(req, a);
      if !can {
        return okSoFar;
      }
      ok := MountVolume(req, a);
    }

    method RemoveEphemeralPath(id: string, a: Answers) returns (ok: bool)
      requires Laid(disk)
      modifies this`disk
      ensures Laid(disk)
      ensures ok <==> a.readOk && (a.dropOk || Holding(old(disk), id) == {})
      ensures disk == if ok then Deleted(old(disk), id) else old(disk)
    {
      if !a.readOk {
        return false;
      }
      var listing := GetStoragePoolDataDirectories(disk, {});
      var path := FindVolume(disk, listing.value, id);
      if path != "" {
        if !a.dropOk {
          return false;
        }
        RemoveVolume(disk, Pick(disk, id), id);
        DeletedKeepsLaid(disk, id);
        disk := RemoveAll(disk, Join(Dir(path), id));
      }
      return true;
    }

    method NodeUnpublishVolume(req: Request, a: Answers) returns (ok: bool)
      requires req.Unpublish? && Laid(disk)
      modifies this`disk, this`mounts, this`targets
      ensures (View(), ok) == Rpc(cfg, old(View()), req, a)
    {
      if req.target in targets {
        if !a.checkOk {
          return false;
        }
        var stack := Stack(View(), req.target);
        if stack != [] {
          if !a.unmountOk {
            return false;
          }
          mounts := mounts[req.target := stack[..|stack| - 1]];
        }
      }
      var left := Stack(View(), req.target);
      if left != [] {
        disk := Emptied(disk, left[|left| - 1]);
        return false;
      }
      if !a.removeOk {
        return false;
      }
      targets := targets - {req.target};
      if IsEphemeralId(req.id) {
        ok := RemoveEphemeralPath(req.id, a);
        return;
      }
      return true;
    }
  }
}
