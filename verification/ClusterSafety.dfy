/**
 Every event of the cluster, seen from one claim, leaves its view as it is or changes it in one of the ways
 that `ClaimView` covers. So each claim's view is sound in every state of every run.
 */
module ClusterSafety {
  import opened Common
  import opened HostPath
  import opened Cluster
  import opened ClaimView

  function KeyOf(cfg: Config, u: string): ClaimKey
    requires u in cfg.plan
  {
    ClaimKey(cfg.plan[u].node, u)
  }

  function VolumeKeyOf(cfg: Config, u: string): VolumeKey
    requires u in cfg.plan
  {
    VolumeKey(cfg.plan[u].node, Name(cfg, u))
  }

  // ---------------------------------------------------------------- the view of one claim

  function PvOf(api: map<string, Volume>, name: string): Pv {
    if name in api then Pv(api[name].phase == Released, api[name].deleting) else NoPv
  }

  function StageOf(passes: map<ClaimKey, Pass>, k: ClaimKey): Stage {
    if k !in passes then NoPass
    else match passes[k]
      case Checking => AtCheck
      case Cleared => AtProvision
      case Saving(_, _) => AtSave
      case Cleaning(_, _) => AtCleanUp
  }

  function WorkOf(phase: OpPhase): Work {
    match phase
    case Syncing => AtRead
    case Approved(_) => AtRemove
    case Removed(_) => AtDelete
  }

  function WorkersOf(ops: map<nat, Op>, vk: VolumeKey): map<nat, Work> {
    map t | t in ops && KeyOfOp(ops[t]) == vk :: WorkOf(ops[t].phase)
  }

  ghost predicate Seen(versions: set<Volume>, name: string) {
    exists pv | pv in versions :: pv.name == name
  }

  ghost function View(cfg: Config, s: State, u: string): Local
    requires u in cfg.plan
  {
    var name, vk := Name(cfg, u), VolumeKeyOf(cfg, u);
    Local(PvOf(s.api, name), DirOf(cfg, u) in s.dirs, StageOf(s.passes, KeyOf(cfg, u)), name in s.pending,
          WorkersOf(s.ops, vk), vk in s.processing, Deaths(s, name), vk in s.told, Seen(s.versions, name),
          name in s.released, u in s.leaked, u in s.cut)
  }

  lemma WorkersSet(ops: map<nat, Op>, t: nat, op: Op, vk: VolumeKey)
    requires t in ops ==> KeyOfOp(ops[t]) == KeyOfOp(op)
    ensures WorkersOf(ops[t := op], vk) ==
            if KeyOfOp(op) == vk then WorkersOf(ops, vk)[t := WorkOf(op.phase)] else WorkersOf(ops, vk)
  {
  }

  lemma WorkersEnd(ops: map<nat, Op>, t: nat, vk: VolumeKey)
    requires t in ops
    ensures WorkersOf(ops - {t}, vk) ==
            if KeyOfOp(ops[t]) == vk then WorkersOf(ops, vk) - {t} else WorkersOf(ops, vk)
  {
  }

  lemma SeenMore(versions: set<Volume>, pv: Volume, name: string)
    ensures Seen(versions + {pv}, name) <==> Seen(versions, name) || pv.name == name
  {
    if pv.name == name {
      assert pv in versions + {pv};
    } else if Seen(versions, name) {
      var w :| w in versions && w.name == name;
      assert w in versions + {pv};
    }
  }

  /** Different claims have different names and directories. */
  lemma PlanDistinct(cfg: Config, u: string, v: string)
    requires WellFormed(cfg) && u in cfg.plan && v in cfg.plan
    ensures u != v ==> Name(cfg, u) != Name(cfg, v) && DirOf(cfg, u) != DirOf(cfg, v)
  {
    if u != v {
      assert Apart(DirOf(cfg, u), DirOf(cfg, v));
      MadeIsFresh(cfg, u, 0);
      MadeIsFresh(cfg, v, 0);
      if Name(cfg, u) == Name(cfg, v) {
        PvNameInjective(u, v);
      }
    }
  }

  /** Removing one claim's directory removes nothing else. */
  lemma RemoveOne(cfg: Config, dirs: set<Dir>, u: string)
    requires WellFormed(cfg) && DirsPlaced(cfg, dirs) && u in cfg.plan
    ensures RemoveOn(dirs, DirOf(cfg, u)) == dirs - {DirOf(cfg, u)}
  {
    forall d | d in dirs
      ensures Apart(d, DirOf(cfg, u)) <==> d != DirOf(cfg, u)
    {
      var v :| v in cfg.plan && d == DirOf(cfg, v);
      if v != u {
        assert Apart(DirOf(cfg, v), DirOf(cfg, u));
      }
    }
  }

  // ---------------------------------------------------------------- claim events

  ghost predicate SoundFor(cfg: Config, s: State, u: string) {
    u in cfg.plan && Sound(cfg, View(cfg, s, u))
  }

  lemma BeginPassKeeps(cfg: Config, s: State, k: ClaimKey, fits: bool, s': State, u: string)
    requires SoundFor(cfg, s, u) && DoBeginPass(cfg, s, k, fits) == Some(s')
    ensures SoundFor(cfg, s', u)
  {
    var l := View(cfg, s, u);
    if k == KeyOf(cfg, u) && k in s'.passes {
      assert View(cfg, s', u) == l.(pass := AtCheck);
      StartSound(cfg, l);
    } else {
      assert View(cfg, s', u) == l;
    }
  }

  lemma FoundKeeps(cfg: Config, s: State, k: ClaimKey, s': State, u: string)
    requires SoundFor(cfg, s, u) && DoCheckPv(cfg, s, k) == Some(s') && PvName(k.uid) in s.api
    ensures SoundFor(cfg, s', u)
  {
    var l := View(cfg, s, u);
    if k != KeyOf(cfg, u) {
      assert View(cfg, s', u) == l;
    } else {
      assert View(cfg, s', u) == l.(pass := NoPass);
      StopSound(cfg, l);
    }
  }

  lemma ClearedKeeps(cfg: Config, s: State, k: ClaimKey, s': State, u: string)
    requires SoundFor(cfg, s, u) && DoCheckPv(cfg, s, k) == Some(s') && PvName(k.uid) !in s.api
    requires Name(cfg, u) == PvName(u)
    ensures SoundFor(cfg, s', u)
  {
    var l := View(cfg, s, u);
    if k != KeyOf(cfg, u) {
      assert View(cfg, s', u) == l;
    } else {
      assert View(cfg, s', u) == l.(pass := AtProvision);
      ClearSound(cfg, l);
    }
  }

  lemma AbortKeeps(cfg: Config, s: State, k: ClaimKey, s': State, u: string)
    requires SoundFor(cfg, s, u) && DoAbortPass(s, k) == Some(s')
    ensures SoundFor(cfg, s', u)
  {
    var l := View(cfg, s, u);
    if k != KeyOf(cfg, u) {
      assert View(cfg, s', u) == l;
    } else {
      assert View(cfg, s', u) == l.(pass := NoPass);
      StopSound(cfg, l);
    }
  }

  lemma CheckKeeps(cfg: Config, s: State, k: ClaimKey, s': State, u: string)
    requires WellFormed(cfg) && SoundFor(cfg, s, u) && DoCheckPv(cfg, s, k) == Some(s')
    ensures SoundFor(cfg, s', u)
  {
    if PvName(k.uid) in s.api {
      FoundKeeps(cfg, s, k, s', u);
    } else {
      MadeIsFresh(cfg, u, 0);
      ClearedKeeps(cfg, s, k, s', u);
    }
  }

  lemma MadeKeeps(cfg: Config, s: State, k: ClaimKey, capacity: int, s': State, u: string)
    requires SoundFor(cfg, s, u) && k.uid in cfg.plan && k == KeyOf(cfg, k.uid)
    requires k.uid != u ==> DirOf(cfg, u) != DirOf(cfg, k.uid)
    requires DoProvision(cfg, s, k, capacity) == Some(s') && s'.dirs == s.dirs + {DirOf(cfg, k.uid)}
    ensures SoundFor(cfg, s', u)
  {
    var l := View(cfg, s, u);
    if k.uid != u {
      assert View(cfg, s', u) == l;
    } else {
      assert View(cfg, s', u) == l.(pass := AtSave, dir := true);
      MakeSound(cfg, l);
    }
  }

  lemma ProvisionKeeps(cfg: Config, s: State, k: ClaimKey, capacity: int, s': State, u: string)
    requires WellFormed(cfg) && Placement(cfg, s) && SoundFor(cfg, s, u)
    requires DoProvision(cfg, s, k, capacity) == Some(s')
    ensures SoundFor(cfg, s', u)
  {
    assert PassPlaced(cfg, k, s.passes[k]);
    PlanDistinct(cfg, u, k.uid);
    ProvisionKeepsPlacement(cfg, s, k, capacity, s');
    MadeKeeps(cfg, s, k, capacity, s', u);
  }

  /** A save that the server answers, seen from the claim whose PV it is. */
  lemma SaveView(cfg: Config, s: State, pv: Volume, u: string)
    requires u in cfg.plan && pv.name == Name(cfg, u) && pv.phase == Pending && !pv.deleting
    ensures View(cfg, Save(s, pv), u) == WithPv(View(cfg, s, u))
  {
    SeenMore(s.versions, pv, Name(cfg, u));
    if pv.name in s.api {
      assert View(cfg, Save(s, pv), u) == View(cfg, s, u);
    } else {
      assert View(cfg, Save(s, pv), u) == View(cfg, s, u).(pv := Pv(false, false), seen := true);
    }
  }

  lemma OtherSaveView(cfg: Config, s: State, pv: Volume, u: string)
    requires u in cfg.plan && pv.name != Name(cfg, u)
    ensures View(cfg, Save(s, pv), u) == View(cfg, s, u)
  {
    SeenMore(s.versions, pv, Name(cfg, u));
  }

  lemma CreatedKeeps(cfg: Config, s: State, k: ClaimKey, s': State, u: string)
    requires SoundFor(cfg, s, u) && DoCreate(cfg, s, k, true) == Some(s') && PassPlaced(cfg, k, s.passes[k])
    requires k.uid != u ==> Name(cfg, u) != Name(cfg, k.uid)
    ensures SoundFor(cfg, s', u)
  {
    var pv, ended := s.passes[k].pv, EndPass(s, k);
    if k.uid == u {
      assert View(cfg, ended, u) == View(cfg, s, u).(pass := NoPass);
      SaveView(cfg, ended, pv, u);
      SavedSound(cfg, View(cfg, s, u));
    } else {
      assert View(cfg, ended, u) == View(cfg, s, u);
      OtherSaveView(cfg, ended, pv, u);
    }
  }

  lemma DeferredKeeps(cfg: Config, s: State, k: ClaimKey, s': State, u: string)
    requires SoundFor(cfg, s, u) && DoCreate(cfg, s, k, false) == Some(s') && PassPlaced(cfg, k, s.passes[k])
    requires cfg.background && (k.uid != u ==> Name(cfg, u) != Name(cfg, k.uid))
    ensures SoundFor(cfg, s', u)
  {
    var l := View(cfg, s, u);
    if k.uid != u {
      assert View(cfg, s', u) == l;
    } else {
      assert View(cfg, s', u) == l.(pass := NoPass, waiting := true);
      DeferredSound(cfg, l);
    }
  }

  lemma ExhaustedKeeps(cfg: Config, s: State, k: ClaimKey, s': State, u: string)
    requires SoundFor(cfg, s, u) && DoCreate(cfg, s, k, false) == Some(s') && PassPlaced(cfg, k, s.passes[k])
    requires !cfg.background && k.uid == u && s.passes[k].left <= 1
    ensures SoundFor(cfg, s', u)
  {
    var l := View(cfg, s, u);
    assert View(cfg, s', u) == l.(pass := AtCleanUp);
    ExhaustedSound(cfg, l);
  }

  lemma RefusedKeeps(cfg: Config, s: State, k: ClaimKey, s': State, u: string)
    requires SoundFor(cfg, s, u) && DoCreate(cfg, s, k, false) == Some(s') && PassPlaced(cfg, k, s.passes[k])
    requires !cfg.background && (k.uid != u || s.passes[k].left > 1)
    ensures SoundFor(cfg, s', u)
  {
    assert View(cfg, s', u) == View(cfg, s, u);
  }

  lemma CleanedKeeps(cfg: Config, s: State, k: ClaimKey, s': State, u: string)
    requires SoundFor(cfg, s, u) && DoCleanUp(cfg, s, k, true) == Some(s') && PassPlaced(cfg, k, s.passes[k])
    requires DeleteVerdictOf(cfg.nodes[k.node], s.passes[k].pv) == Permitted
    requires RemoveOn(s.dirs, DirOf(cfg, k.uid)) == s.dirs - {DirOf(cfg, k.uid)}
    requires k.uid != u ==> DirOf(cfg, u) != DirOf(cfg, k.uid)
    ensures SoundFor(cfg, s', u)
  {
    var l := View(cfg, s, u);
    if k.uid != u {
      assert View(cfg, s', u) == l;
    } else {
      assert View(cfg, s', u) == l.(pass := NoPass, dir := false);
      CleanedSound(cfg, l);
    }
  }

  lemma UncleanedKeeps(cfg: Config, s: State, k: ClaimKey, s': State, u: string)
    requires SoundFor(cfg, s, u) && DoCleanUp(cfg, s, k, false) == Some(s') && PassPlaced(cfg, k, s.passes[k])
    ensures SoundFor(cfg, s', u)
  {
    if s.passes[k].left <= 1 {
      GivenUpKeeps(cfg, s, k, s', u);
    } else {
      assert View(cfg, s', u) == View(cfg, s, u);
    }
  }

  lemma GivenUpKeeps(cfg: Config, s: State, k: ClaimKey, s': State, u: string)
    requires SoundFor(cfg, s, u) && DoCleanUp(cfg, s, k, false) == Some(s') && PassPlaced(cfg, k, s.passes[k])
    requires s.passes[k].left <= 1
    ensures SoundFor(cfg, s', u)
  {
    var l := View(cfg, s, u);
    if k.uid == u {
      assert View(cfg, s', u) == l.(pass := NoPass, leaked := true);
      UncleanedSound(cfg, l);
    } else {
      assert View(cfg, s', u) == l;
    }
  }

  lemma SavePendingKeeps(cfg: Config, s: State, name: string, s': State, u: string)
    requires SoundFor(cfg, s, u) && DoSavePending(s, name) == Some(s')
    requires s.pending[name].name == name && s.pending[name].phase == Pending && !s.pending[name].deleting
    ensures SoundFor(cfg, s', u)
  {
    var pv, taken := s.pending[name], s.(pending := s.pending - {name});
    if name == Name(cfg, u) {
      assert View(cfg, taken, u) == View(cfg, s, u).(waiting := false);
      SaveView(cfg, taken, pv, u);
      SavedLaterSound(cfg, View(cfg, s, u));
    } else {
      assert View(cfg, taken, u) == View(cfg, s, u);
      OtherSaveView(cfg, taken, pv, u);
    }
  }

  lemma SeeClaimKeeps(cfg: Config, s: State, k: ClaimKey, annotations: Annotations, s': State, u: string)
    requires SoundFor(cfg, s, u) && DoSeeClaim(cfg, s, k, annotations) == Some(s')
    ensures SoundFor(cfg, s', u)
  {
    assert View(cfg, s', u) == View(cfg, s, u);
  }

  lemma PassEventKeeps(cfg: Config, s: State, e: Event, s': State, u: string)
    requires WellFormed(cfg) && Placement(cfg, s) && SoundFor(cfg, s, u) && Step(cfg, s, e) == Some(s')
    requires e.SeeClaim? || e.BeginPass? || e.CheckPv? || e.AbortPass? || e.Provision?
    ensures SoundFor(cfg, s', u)
  {
    match e
    case SeeClaim(k, annotations) => SeeClaimKeeps(cfg, s, k, annotations, s', u);
    case BeginPass(k, fits) => BeginPassKeeps(cfg, s, k, fits, s', u);
    case CheckPv(k) => CheckKeeps(cfg, s, k, s', u);
    case AbortPass(k) => AbortKeeps(cfg, s, k, s', u);
    case Provision(k, capacity) => ProvisionKeeps(cfg, s, k, capacity, s', u);
  }

  lemma SaveEventKeeps(cfg: Config, s: State, e: Event, s': State, u: string)
    requires WellFormed(cfg) && Placement(cfg, s) && SoundFor(cfg, s, u) && Step(cfg, s, e) == Some(s')
    requires e.Create? || e.CleanUp? || e.SavePending?
    ensures SoundFor(cfg, s', u)
  {
    match e
    case Create(k, answered) => CreateKeeps(cfg, s, k, answered, s', u);
    case CleanUp(k, ok) => CleanUpKeeps(cfg, s, k, ok, s', u);
    case SavePending(name) => SavePendingKeeps(cfg, s, name, s', u);
  }

  lemma CreateKeeps(cfg: Config, s: State, k: ClaimKey, answered: bool, s': State, u: string)
    requires WellFormed(cfg) && Placement(cfg, s) && SoundFor(cfg, s, u) && DoCreate(cfg, s, k, answered) == Some(s')
    ensures SoundFor(cfg, s', u)
  {
    assert PassPlaced(cfg, k, s.passes[k]);
    PlanDistinct(cfg, u, k.uid);
    if answered {
      CreatedKeeps(cfg, s, k, s', u);
    } else if cfg.background {
      DeferredKeeps(cfg, s, k, s', u);
    } else if k.uid == u && s.passes[k].left <= 1 {
      ExhaustedKeeps(cfg, s, k, s', u);
    } else {
      RefusedKeeps(cfg, s, k, s', u);
    }
  }

  lemma CleanUpKeeps(cfg: Config, s: State, k: ClaimKey, ok: bool, s': State, u: string)
    requires WellFormed(cfg) && Placement(cfg, s) && SoundFor(cfg, s, u) && DoCleanUp(cfg, s, k, ok) == Some(s')
    ensures SoundFor(cfg, s', u)
  {
    assert PassPlaced(cfg, k, s.passes[k]);
    OnlyHomeDeletes(cfg, s.passes[k].pv, k.node);
    PlanDistinct(cfg, u, k.uid);
    RemoveOne(cfg, s.dirs, k.uid);
    if ok {
      CleanedKeeps(cfg, s, k, s', u);
    } else {
      UncleanedKeeps(cfg, s, k, s', u);
    }
  }

  // ---------------------------------------------------------------- volume events

  lemma BeginOpView(cfg: Config, s: State, t: nat, node: string, cached: Volume, s': State, u: string)
    requires u in cfg.plan && DoBeginOp(cfg, s, t, node, cached) == Some(s')
    ensures var l := View(cfg, s, u);
            if VolumeKey(node, cached.name) == VolumeKeyOf(cfg, u)
            then t !in l.ops && !l.busy && View(cfg, s', u) == l.(ops := l.ops[t := AtRead], busy := true)
            else View(cfg, s', u) == l
  {
    WorkersSet(s.ops, t, Op(node, cached, Syncing), VolumeKeyOf(cfg, u));
  }

  lemma BeginOpKeeps(cfg: Config, s: State, t: nat, node: string, cached: Volume, s': State, u: string)
    requires SoundFor(cfg, s, u) && DoBeginOp(cfg, s, t, node, cached) == Some(s')
    ensures SoundFor(cfg, s', u)
  {
    BeginOpView(cfg, s, t, node, cached, s', u);
    if VolumeKey(node, cached.name) == VolumeKeyOf(cfg, u) {
      BeginSound(cfg, View(cfg, s, u), t);
    }
  }

  /** A worker that gives its key back without a further effect. */
  lemma EndOpView(cfg: Config, s: State, t: nat, u: string)
    requires u in cfg.plan && t in s.ops && KeyOfOp(s.ops[t]) == VolumeKeyOf(cfg, u)
    ensures IsAt(View(cfg, s, u), t, WorkOf(s.ops[t].phase))
    ensures View(cfg, EndOp(s, t), u) == Ended(View(cfg, s, u), t)
  {
    WorkersEnd(s.ops, t, VolumeKeyOf(cfg, u));
  }

  lemma OtherEndOpView(cfg: Config, s: State, t: nat, u: string)
    requires u in cfg.plan && t in s.ops && KeyOfOp(s.ops[t]) != VolumeKeyOf(cfg, u)
    ensures View(cfg, EndOp(s, t), u) == View(cfg, s, u)
  {
    WorkersEnd(s.ops, t, VolumeKeyOf(cfg, u));
  }

  lemma EndOpKeeps(cfg: Config, s: State, t: nat, u: string)
    requires SoundFor(cfg, s, u) && t in s.ops
    ensures SoundFor(cfg, EndOp(s, t), u)
  {
    if KeyOfOp(s.ops[t]) == VolumeKeyOf(cfg, u) {
      EndOpView(cfg, s, t, u);
      EndSound(cfg, View(cfg, s, u), t);
    } else {
      OtherEndOpView(cfg, s, t, u);
    }
  }

  lemma ReadPvView(cfg: Config, s: State, t: nat, ok: bool, s': State, u: string)
    requires u in cfg.plan && DoReadPv(cfg, s, t, ok) == Some(s') && t in s'.ops
    ensures var l := View(cfg, s, u);
            if KeyOfOp(s.ops[t]) == VolumeKeyOf(cfg, u)
            then IsAt(l, t, AtRead) && View(cfg, s', u) == l.(ops := l.ops[t := AtRemove])
            else View(cfg, s', u) == l
  {
    WorkersSet(s.ops, t, s'.ops[t], VolumeKeyOf(cfg, u));
  }

  lemma ReadPvKeeps(cfg: Config, s: State, t: nat, ok: bool, s': State, u: string)
    requires cfg.kube.atLeast15 && SoundFor(cfg, s, u) && DoReadPv(cfg, s, t, ok) == Some(s')
    ensures SoundFor(cfg, s', u)
  {
    if t in s'.ops {
      ReadPvView(cfg, s, t, ok, s', u);
      if KeyOfOp(s.ops[t]) == VolumeKeyOf(cfg, u) {
        ApproveSound(cfg, View(cfg, s, u), t);
      }
    } else {
      EndOpKeeps(cfg, s, t, u);
    }
  }

  /** Whose PV a worker has; only the claim's node may delete it. */
  predicate Owns(cfg: Config, op: Op, v: string) {
    && v in cfg.plan && op.pv.name == Name(cfg, v) && op.pv.path == DirOf(cfg, v).path && op.node in cfg.nodes
    && (DeleteVerdictOf(cfg.nodes[op.node], op.pv) == Permitted <==> op.node == cfg.plan[v].node)
  }

  lemma Owner(cfg: Config, s: State, t: nat) returns (v: string)
    requires WellFormed(cfg) && Placement(cfg, s) && t in s.ops
    ensures Genuine(cfg, s.ops[t].pv) && v == Uid(s.ops[t].pv) && Owns(cfg, s.ops[t], v)
    ensures s.ops[t].phase.Removed? ==> s.ops[t].node == cfg.plan[v].node
  {
    assert OpPlaced(cfg, s.versions, s.ops[t]);
    v := Uid(s.ops[t].pv);
    OnlyHomeDeletes(cfg, s.ops[t].pv, s.ops[t].node);
  }

  lemma RemoveDirView(cfg: Config, s: State, t: nat, ok: bool, s': State, u: string)
    requires u in cfg.plan && DoRemoveDir(cfg, s, t, ok) == Some(s') && Owns(cfg, s.ops[t], u) && t in s'.ops
    requires RemoveOn(s.dirs, DirOf(cfg, u)) == s.dirs - {DirOf(cfg, u)}
    ensures var l := View(cfg, s, u);
            IsAt(l, t, AtRemove) && View(cfg, s', u) == l.(dir := false, ops := l.ops[t := AtDelete])
  {
    WorkersSet(s.ops, t, s'.ops[t], VolumeKeyOf(cfg, u));
  }

  lemma OtherRemoveDirView(cfg: Config, s: State, t: nat, ok: bool, s': State, u: string, v: string)
    requires u in cfg.plan && DoRemoveDir(cfg, s, t, ok) == Some(s') && Owns(cfg, s.ops[t], v) && t in s'.ops
    requires Name(cfg, u) != Name(cfg, v) && DirOf(cfg, u) != DirOf(cfg, v)
    requires RemoveOn(s.dirs, DirOf(cfg, v)) == s.dirs - {DirOf(cfg, v)}
    ensures View(cfg, s', u) == View(cfg, s, u)
  {
    WorkersSet(s.ops, t, s'.ops[t], VolumeKeyOf(cfg, u));
  }

  lemma RemoveDirKeeps(cfg: Config, s: State, t: nat, ok: bool, s': State, u: string)
    requires WellFormed(cfg) && Placement(cfg, s) && SoundFor(cfg, s, u) && DoRemoveDir(cfg, s, t, ok) == Some(s')
    ensures SoundFor(cfg, s', u)
  {
    if t in s'.ops {
      var v := Owner(cfg, s, t);
      PlanDistinct(cfg, u, v);
      RemoveOne(cfg, s.dirs, v);
      if v == u {
        RemoveDirView(cfg, s, t, ok, s', u);
        RemoveSound(cfg, View(cfg, s, u), t);
      } else {
        OtherRemoveDirView(cfg, s, t, ok, s', u, v);
      }
    } else {
      EndOpKeeps(cfg, s, t, u);
    }
  }

  lemma GoneView(cfg: Config, s: State, t: nat, s': State, u: string)
    requires u in cfg.plan && DoDeletePv(s, t, Gone) == Some(s') && KeyOfOp(s.ops[t]) == VolumeKeyOf(cfg, u)
    requires Name(cfg, u) in s.api
    ensures var l := View(cfg, s, u);
            IsAt(l, t, AtDelete) && l.pv.Pv? && View(cfg, s', u) == Ended(l, t).(pv := NoPv, deaths := l.deaths + 1)
  {
    EndOpView(cfg, s, t, u);
  }

  lemma MarkedView(cfg: Config, s: State, t: nat, s': State, u: string)
    requires u in cfg.plan && DoDeletePv(s, t, Marked) == Some(s') && KeyOfOp(s.ops[t]) == VolumeKeyOf(cfg, u)
    requires Name(cfg, u) in s.api && ApiPlaced(s.api, s.versions)
    ensures var l := View(cfg, s, u);
            IsAt(l, t, AtDelete) && l.pv.Pv? && View(cfg, s', u) == Ended(l, t).(pv := Pv(l.pv.released, true))
  {
    var name := Name(cfg, u);
    EndOpView(cfg, s, t, u);
    assert s.api[name] in s.versions && s.api[name].name == name;
    SeenMore(s.versions, s.api[name].(deleting := true), name);
  }

  lemma OtherDeleteView(cfg: Config, s: State, t: nat, reply: DeleteReply, s': State, u: string)
    requires u in cfg.plan && DoDeletePv(s, t, reply) == Some(s') && s.ops[t].pv.name != Name(cfg, u)
    requires ApiPlaced(s.api, s.versions)
    ensures View(cfg, s', u) == View(cfg, s, u)
  {
    var name := s.ops[t].pv.name;
    OtherEndOpView(cfg, s, t, u);
    if name in s.api {
      assert s.api[name] in s.versions && s.api[name].name == name;
      SeenMore(s.versions, s.api[name].(deleting := true), Name(cfg, u));
    }
  }

  lemma OwnDeletePvKeeps(cfg: Config, s: State, t: nat, reply: DeleteReply, s': State, u: string)
    requires SoundFor(cfg, s, u) && ApiPlaced(s.api, s.versions) && DoDeletePv(s, t, reply) == Some(s')
    requires KeyOfOp(s.ops[t]) == VolumeKeyOf(cfg, u)
    ensures SoundFor(cfg, s', u)
  {
    if reply == Refused || Name(cfg, u) !in s.api {
      assert s' == EndOp(s, t);
      EndOpKeeps(cfg, s, t, u);
    } else if reply == Gone {
      GoneView(cfg, s, t, s', u);
      DeleteSound(cfg, View(cfg, s, u), t);
    } else {
      MarkedView(cfg, s, t, s', u);
      MarkSound(cfg, View(cfg, s, u), t);
    }
  }

  lemma DeletePvKeeps(cfg: Config, s: State, t: nat, reply: DeleteReply, s': State, u: string)
    requires WellFormed(cfg) && Placement(cfg, s) && SoundFor(cfg, s, u) && DoDeletePv(s, t, reply) == Some(s')
    ensures SoundFor(cfg, s', u)
  {
    var v := Owner(cfg, s, t);
    PlanDistinct(cfg, u, v);
    if v == u {
      OwnDeletePvKeeps(cfg, s, t, reply, s', u);
    } else {
      OtherDeleteView(cfg, s, t, reply, s', u);
    }
  }

  lemma ForgetKeeps(cfg: Config, s: State, vk: VolumeKey, s': State, u: string)
    requires SoundFor(cfg, s, u) && DoForget(s, vk) == Some(s')
    ensures SoundFor(cfg, s', u)
  {
    var l := View(cfg, s, u);
    if vk == VolumeKeyOf(cfg, u) {
      assert View(cfg, s', u) == l.(busy := false, told := true);
      ForgetSound(cfg, l);
    } else {
      assert View(cfg, s', u) == l;
    }
  }

  lemma UpdateView(cfg: Config, s: State, next: Volume, s': State, u: string)
    requires u in cfg.plan && DoUpdatePv(s, Name(cfg, u), next) == Some(s') && ApiPlaced(s.api, s.versions)
    ensures var l, released := View(cfg, s, u), next.phase == Released;
            && l.pv.Pv? && (l.pv.released ==> released)
            && View(cfg, s', u) == l.(pv := Pv(released, l.pv.deleting), released := l.released || released)
  {
    assert s.api[Name(cfg, u)] in s.versions && s.api[Name(cfg, u)].name == Name(cfg, u);
    SeenMore(s.versions, next, Name(cfg, u));
  }

  lemma OtherUpdateView(cfg: Config, s: State, name: string, next: Volume, s': State, u: string)
    requires u in cfg.plan && DoUpdatePv(s, name, next) == Some(s') && ApiPlaced(s.api, s.versions)
    requires name != Name(cfg, u)
    ensures View(cfg, s', u) == View(cfg, s, u)
  {
    assert s.api[name].name == name;
    SeenMore(s.versions, next, Name(cfg, u));
  }

  lemma UpdateKeeps(cfg: Config, s: State, name: string, next: Volume, s': State, u: string)
    requires SoundFor(cfg, s, u) && DoUpdatePv(s, name, next) == Some(s') && ApiPlaced(s.api, s.versions)
    ensures SoundFor(cfg, s', u)
  {
    if name == Name(cfg, u) {
      UpdateView(cfg, s, next, s', u);
      UpdateSound(cfg, View(cfg, s, u), next.phase == Released);
    } else {
      OtherUpdateView(cfg, s, name, next, s', u);
    }
  }

  lemma ReapKeeps(cfg: Config, s: State, name: string, s': State, u: string)
    requires SoundFor(cfg, s, u) && DoReap(s, name) == Some(s')
    ensures SoundFor(cfg, s', u)
  {
    var l := View(cfg, s, u);
    if name == Name(cfg, u) {
      assert View(cfg, s', u) == l.(pv := NoPv, deaths := l.deaths + 1);
      ReapSound(cfg, l);
    } else {
      assert View(cfg, s', u) == l;
    }
  }

  lemma InHandIff(cfg: Config, passes: map<ClaimKey, Pass>, node: string, u: string)
    requires PassesPlaced(cfg, passes) && u in cfg.plan
    ensures u in InHand(passes, node) <==>
            var stage := StageOf(passes, KeyOf(cfg, u));
            node == cfg.plan[u].node && (stage == AtSave || stage == AtCleanUp)
  {
    if u in InHand(passes, node) {
      var k :| k in passes && k.node == node && (passes[k].Saving? || passes[k].Cleaning?) && k.uid == u;
      assert PassPlaced(cfg, k, passes[k]);
    }
  }

  /** The PV that a queue store keeps under the claim's name is the claim's, and its node's. */
  lemma KeptIsOwn(cfg: Config, pending: map<string, Volume>, name: string, u: string)
    requires WellFormed(cfg) && PendingPlaced(cfg, pending) && u in cfg.plan && name in pending
    ensures pending[name].claimRef.Some? && (name == Name(cfg, u) <==> Uid(pending[name]) == u)
    ensures name == Name(cfg, u) ==> pending[name].affinity == cfg.plan[u].node
  {
    MadeIsFresh(cfg, u, 0);
    PlanDistinct(cfg, u, Uid(pending[name]));
  }

  lemma KeptIff(cfg: Config, pending: map<string, Volume>, node: string, u: string)
    requires WellFormed(cfg) && PendingPlaced(cfg, pending) && u in cfg.plan
    ensures u in Kept(pending, node) <==> node == cfg.plan[u].node && Name(cfg, u) in pending
  {
    if u in Kept(pending, node) {
      var name :| name in pending && pending[name].affinity == node && pending[name].claimRef.Some?
                  && Uid(pending[name]) == u;
      KeptIsOwn(cfg, pending, name, u);
    }
    if Name(cfg, u) in pending {
      KeptIsOwn(cfg, pending, Name(cfg, u), u);
    }
  }

  /** Whether a crash of `node` loses a PV of the claim that was made and not saved. */
  ghost predicate CrashTakes(cfg: Config, s: State, node: string, u: string)
    requires u in cfg.plan
  {
    var home := node == cfg.plan[u].node;
    && (Name(cfg, u) in s.pending ==> s.pending[Name(cfg, u)].affinity == cfg.plan[u].node)
    && (u in InHand(s.passes, node) <==> home && Holding(View(cfg, s, u)))
    && (u in Kept(s.pending, node) <==> home && View(cfg, s, u).waiting)
  }

  lemma PlacedCrashTakes(cfg: Config, s: State, node: string, u: string)
    requires WellFormed(cfg) && Placement(cfg, s) && u in cfg.plan
    ensures CrashTakes(cfg, s, node, u)
  {
    InHandIff(cfg, s.passes, node, u);
    KeptIff(cfg, s.pending, node, u);
    if Name(cfg, u) in s.pending {
      KeptIsOwn(cfg, s.pending, Name(cfg, u), u);
    }
  }

  lemma HomeCrashView(cfg: Config, s: State, s': State, u: string)
    requires u in cfg.plan && DoCrash(s, cfg.plan[u].node) == Some(s') && CrashTakes(cfg, s, cfg.plan[u].node, u)
    ensures View(cfg, s', u) == Crashed(View(cfg, s, u))
  {
    assert WorkersOf(s'.ops, VolumeKeyOf(cfg, u)) == map[];
  }

  lemma OtherCrashView(cfg: Config, s: State, node: string, s': State, u: string)
    requires u in cfg.plan && DoCrash(s, node) == Some(s') && node != cfg.plan[u].node && CrashTakes(cfg, s, node, u)
    ensures View(cfg, s', u) == View(cfg, s, u)
  {
    assert WorkersOf(s'.ops, VolumeKeyOf(cfg, u)) == WorkersOf(s.ops, VolumeKeyOf(cfg, u));
  }

  lemma CrashKeeps(cfg: Config, s: State, node: string, s': State, u: string)
    requires SoundFor(cfg, s, u) && DoCrash(s, node) == Some(s') && CrashTakes(cfg, s, node, u)
    ensures SoundFor(cfg, s', u)
  {
    if node == cfg.plan[u].node {
      HomeCrashView(cfg, s, s', u);
      CrashSound(cfg, View(cfg, s, u));
    } else {
      OtherCrashView(cfg, s, node, s', u);
    }
  }

  lemma CrashEventKeeps(cfg: Config, s: State, e: Event, s': State, u: string)
    requires WellFormed(cfg) && Placement(cfg, s) && SoundFor(cfg, s, u) && e.Crash? && Step(cfg, s, e) == Some(s')
    ensures SoundFor(cfg, s', u)
  {
    PlacedCrashTakes(cfg, s, e.node, u);
    CrashKeeps(cfg, s, e.node, s', u);
  }

  lemma VolumeEventKeeps(cfg: Config, s: State, e: Event, s': State, u: string)
    requires WellFormed(cfg) && Placement(cfg, s) && SoundFor(cfg, s, u) && Step(cfg, s, e) == Some(s')
    requires !OfClaim(e) && !e.Crash?
    ensures SoundFor(cfg, s', u)
  {
    match e
    case BeginOp(t, node, cached) => BeginOpKeeps(cfg, s, t, node, cached, s', u);
    case ReadPv(t, ok) => ReadPvKeeps(cfg, s, t, ok, s', u);
    case RemoveDir(t, ok) => RemoveDirKeeps(cfg, s, t, ok, s', u);
    case DeletePv(t, reply) => DeletePvKeeps(cfg, s, t, reply, s', u);
    case Forget(vk) => ForgetKeeps(cfg, s, vk, s', u);
    case UpdatePv(name, next) => UpdateKeeps(cfg, s, name, next, s', u);
    case Reap(name) => ReapKeeps(cfg, s, name, s', u);
  }

  /** Seen from any claim, every state of every run is sound. */
  lemma {:induction false} SoundAlways(cfg: Config, es: seq<Event>, s: State, u: string)
    requires WellFormed(cfg) && Run(cfg, es) == Some(s) && u in cfg.plan
    ensures Sound(cfg, View(cfg, s, u))
  {
    if es != [] {
      var e, before := es[|es| - 1], Run(cfg, es[..|es| - 1]).value;
      PlacementAlways(cfg, es[..|es| - 1], before);
      SoundAlways(cfg, es[..|es| - 1], before, u);
      if e.Create? || e.CleanUp? || e.SavePending? {
        SaveEventKeeps(cfg, before, e, s, u);
      } else if OfClaim(e) {
        PassEventKeeps(cfg, before, e, s, u);
      } else if e.Crash? {
        CrashEventKeeps(cfg, before, e, s, u);
      } else {
        VolumeEventKeeps(cfg, before, e, s, u);
      }
    }
  }
}
