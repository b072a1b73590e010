/**
 The provisioning controllers of all nodes around one API server. Every API call, directory
 operation and informer hand-over is one event, so a run is any interleaving of claim workers,
 volume workers and the rest of the cluster.
 */
module Cluster {
  import opened Common
  import Paths
  import opened HostPath

  /** What a claim's target node makes for it: the node, and the PV that would be saved. */
  datatype Slot = Slot(node: string, template: Volume)

  /**
   What does not change during a run.
   - `claims`: all claims by UID, as they were first seen; their target node does not change.
   - `plan`: the slot of every claim that names a node with a controller.
   - `provisionerName`: the name the controller is made with, which is also the default name that
     the provisioner writes to claims.
   - `background`: PVs that could not be saved are handed to the queue store instead of being
     saved by the blocking back-off store.
   - `steps`: attempts of the blocking store.
   - `informersCurrent`: a claim pass that finds no PV is never working for a claim whose PV was
     already Released (such a claim was bound and deleted).
   */
  datatype Config = Config(
    nodes: map<string, Provisioner>,
    claims: map<string, Claim>,
    plan: map<string, Slot>,
    provisionerName: string,
    kube: KubeVersion,
    addFinalizer: bool,
    background: bool,
    steps: nat,
    informersCurrent: bool)

  function Target(claim: Claim): Option<string> {
    TargetNode(claim.annotations, claim.mode)
  }

  /** The PV provisionClaimOperation saves for a claim on node `p`. */
  function Made(p: Provisioner, claim: Claim, provisionerName: string, capacity: int): Volume {
    Claimed(NewVolume(p, PvName(claim.uid), claim.name, capacity), claim, provisionerName)
  }

  function Name(cfg: Config, uid: string): string
    requires uid in cfg.plan
  {
    cfg.plan[uid].template.name
  }

  function DirOf(cfg: Config, uid: string): Dir
    requires uid in cfg.plan
  {
    Dir(cfg.plan[uid].node, cfg.plan[uid].template.path)
  }

  ghost predicate WellFormed(cfg: Config) {
    && cfg.kube.atLeast15
    && cfg.steps >= 1
    && (forall n | n in cfg.nodes :: cfg.nodes[n].nodeName == n && cfg.nodes[n].identity == cfg.provisionerName)
    && (forall u | u in cfg.claims :: cfg.claims[u].uid == u && (PlannedFor(cfg, u) <==> u in cfg.plan))
    && (forall u | u in cfg.plan :: SlotOk(cfg, u, cfg.plan[u]))
    && (forall u, v {:trigger Apart(DirOf(cfg, u), DirOf(cfg, v))} | u in cfg.plan && v in cfg.plan && u != v ::
          Apart(DirOf(cfg, u), DirOf(cfg, v)))
  }

  predicate PlannedFor(cfg: Config, uid: string)
    requires uid in cfg.claims
  {
    Target(cfg.claims[uid]).Some? && Target(cfg.claims[uid]).value in cfg.nodes
  }

  predicate SlotOk(cfg: Config, uid: string, slot: Slot) {
    && uid in cfg.claims && Target(cfg.claims[uid]) == Some(slot.node)
    && slot.node in cfg.nodes
    && slot.template == Made(cfg.nodes[slot.node], cfg.claims[uid], cfg.provisionerName, 0)
  }

  predicate Apart(d: Dir, root: Dir) {
    !(d.node == root.node && Paths.Under(d.path, root.path))
  }

  datatype Dir = Dir(node: string, path: string)

  /** A claim as one node sees it; the claim queue gives a key to one worker at a time. */
  datatype ClaimKey = ClaimKey(node: string, uid: string)

  /** A PV name in the volume queue of one node. */
  datatype VolumeKey = VolumeKey(node: string, name: string)

  /** Where provisionClaimOperation stands; `left` counts the remaining attempts of the store. */
  datatype Pass = Checking | Cleared | Saving(pv: Volume, left: nat) | Cleaning(pv: Volume, left: nat)

  /** Where deleteVolumeOperation stands; `read` is what the API server returned to it. */
  datatype OpPhase = Syncing | Approved(read: Volume) | Removed(read: Volume)

  /** A volume worker with the PV of its informer cache, which may be any version there ever was. */
  datatype Op = Op(node: string, pv: Volume, phase: OpPhase)

  /**
   - `notes`: the annotations of a claim in a node's informer cache, once they differ from the first ones.
   - `pending`: what the queue stores keep, by PV name.
   - `processing`: the keys that the volume queues have handed out and not got back.
   - `deaths` and `told`: how often a PV name was deleted, and how often a node's informer said so.
   - `versions`, `released`, `leaked` and `cut` are history: every PV value the API server ever held, the
     names that ever were Released, the claims whose directory a failed clean-up left behind, and those
     whose unsaved PV was lost in a crash.
   */
  datatype State = State(
    api: map<string, Volume>,
    dirs: set<Dir>,
    notes: map<ClaimKey, Annotations>,
    passes: map<ClaimKey, Pass>,
    pending: map<string, Volume>,
    ops: map<nat, Op>,
    processing: set<VolumeKey>,
    deaths: map<string, nat>,
    told: map<VolumeKey, nat>,
    versions: set<Volume>,
    released: set<string>,
    leaked: set<string>,
    cut: set<string>)

  function Init(): State {
    State(map[], {}, map[], map[], map[], map[], {}, map[], map[], {}, {}, {}, {})
  }

  datatype DeleteReply = Refused | Gone | Marked

  datatype Event =
    | SeeClaim(key: ClaimKey, annotations: Annotations)
    | BeginPass(key: ClaimKey, fits: bool)
    | CheckPv(key: ClaimKey)
    | AbortPass(key: ClaimKey)
    | Provision(key: ClaimKey, capacity: int)
    | Create(key: ClaimKey, answered: bool)
    | CleanUp(key: ClaimKey, ok: bool)
    | SavePending(name: string)
    | BeginOp(t: nat, node: string, cached: Volume)
    | ReadPv(t: nat, ok: bool)
    | RemoveDir(t: nat, ok: bool)
    | DeletePv(t: nat, reply: DeleteReply)
    | Forget(vk: VolumeKey)
    | UpdatePv(name: string, next: Volume)
    | Reap(name: string)
    | Crash(node: string)

  // ---------------------------------------------------------------- claim passes

  function NotesOf(cfg: Config, s: State, k: ClaimKey): Annotations
    requires k.uid in cfg.claims
  {
    if k in s.notes then s.notes[k] else cfg.claims[k.uid].annotations
  }

  /** The informer of a node sees a claim with changed annotations, but with the same target. */
  function DoSeeClaim(cfg: Config, s: State, k: ClaimKey, annotations: Annotations): (r: Option<State>)
    ensures r.Some? ==> r.value.passes == s.passes && r.value.pending == s.pending
    ensures r.Some? ==> r.value.cut == s.cut && r.value.versions == s.versions
    ensures r.Some? ==> r.value.ops == s.ops && r.value.api == s.api && s.dirs <= r.value.dirs
  {
    if k.uid in cfg.claims && TargetNode(annotations, cfg.claims[k.uid].mode) == Target(cfg.claims[k.uid])
    then Some(s.(notes := s.notes[k := annotations]))
    else None
  }

  /** shouldProvision: the Qualifier, which writes to the cached claim, and then the provisioner annotation. */
  predicate ShouldProvision(cfg: Config, s: State, k: ClaimKey)
    requires k.uid in cfg.claims
  {
    var noted := Noted(NotesOf(cfg, s, k), k.node, cfg.provisionerName);
    && TargetNode(NotesOf(cfg, s, k), cfg.claims[k.uid].mode) == Some(k.node)
    && StorageProvisioner in noted && noted[StorageProvisioner] == cfg.provisionerName
  }

  /** syncClaim on any node, for any claim; `fits` when the pool is readable and large enough. */
  function DoBeginPass(cfg: Config, s: State, k: ClaimKey, fits: bool): (r: Option<State>)
    ensures r.Some? ==> r.value.cut == s.cut && r.value.versions == s.versions
    ensures r.Some? ==> r.value.ops == s.ops && r.value.api == s.api && s.dirs <= r.value.dirs
  {
    if k.node !in cfg.nodes || k.uid !in cfg.claims || k in s.passes then None
    else
      var s' := s.(notes := s.notes[k := Noted(NotesOf(cfg, s, k), k.node, cfg.provisionerName)]);
      Some(if fits && ShouldProvision(cfg, s, k) then s'.(passes := s.passes[k := Checking]) else s')
  }

  /** The Get of provisionClaimOperation, which errs only when the PV is absent. */
  function DoCheckPv(cfg: Config, s: State, k: ClaimKey): (r: Option<State>)
    ensures r.Some? ==> r.value.passes.Keys <= s.passes.Keys && r.value.notes == s.notes
    ensures r.Some? ==> r.value.cut == s.cut && r.value.versions == s.versions
    ensures r.Some? ==> r.value.ops == s.ops && r.value.api == s.api && s.dirs <= r.value.dirs
  {
    if k !in s.passes || s.passes[k] != Checking then None
    else if PvName(k.uid) in s.api then Some(EndPass(s, k))
    else if cfg.informersCurrent && PvName(k.uid) in s.released then None
    else Some(s.(passes := s.passes[k := Cleared]))
  }

  /** Every return between the Get and a successful Provision, the failed Provision included. */
  function DoAbortPass(s: State, k: ClaimKey): (r: Option<State>)
    ensures r.Some? ==> r.value.passes.Keys <= s.passes.Keys && r.value.notes == s.notes
    ensures r.Some? ==> r.value.cut == s.cut && r.value.versions == s.versions
    ensures r.Some? ==> r.value.ops == s.ops && r.value.api == s.api && s.dirs <= r.value.dirs
  {
    if k in s.passes && s.passes[k] == Cleared then Some(EndPass(s, k)) else None
  }

  function DoProvision(cfg: Config, s: State, k: ClaimKey, capacity: int): (r: Option<State>)
    ensures r.Some? ==> r.value.passes.Keys <= s.passes.Keys && r.value.notes == s.notes
    ensures r.Some? ==> r.value.cut == s.cut && r.value.versions == s.versions
    ensures r.Some? ==> r.value.ops == s.ops && r.value.api == s.api && s.dirs <= r.value.dirs
  {
    if k in s.passes && s.passes[k] == Cleared && k.node in cfg.nodes && k.uid in cfg.claims then
      var pv := Made(cfg.nodes[k.node], cfg.claims[k.uid], cfg.provisionerName, capacity);
      Some(s.(dirs := s.dirs + {Dir(k.node, pv.path)}, passes := s.passes[k := Saving(pv, cfg.steps)]))
    else None
  }

  /** The server holds `pv` from now on. */
  function Put(s: State, pv: Volume): State {
    s.(api := s.api[pv.name := pv], versions := s.versions + {pv})
  }

  /** A PV the server accepts under a free name; an existing one is kept (AlreadyExists). */
  function Save(s: State, pv: Volume): State {
    if pv.name in s.api then s else Put(s, pv)
  }

  function EndPass(s: State, k: ClaimKey): State {
    s.(passes := s.passes - {k})
  }

  /** A blocking pass after a Create that was not answered: the next attempt, or the clean-up. */
  function AfterRefusal(cfg: Config, pass: Pass): Pass
    requires pass.Saving?
  {
    if pass.left <= 1 then Cleaning(pass.pv, cfg.steps) else Saving(pass.pv, pass.left - 1)
  }

  /** One Create of StoreVolume. An unanswered one saved nothing. */
  function DoCreate(cfg: Config, s: State, k: ClaimKey, answered: bool): (r: Option<State>)
    ensures r.Some? ==> r.value.passes.Keys <= s.passes.Keys && r.value.notes == s.notes
    ensures r.Some? ==> r.value.cut == s.cut
    ensures r.Some? ==> r.value.ops == s.ops && s.api.Keys <= r.value.api.Keys && s.dirs <= r.value.dirs
  {
    if k !in s.passes || !s.passes[k].Saving? then None
    else
      var pv := s.passes[k].pv;
      if answered then Some(Save(EndPass(s, k), pv))
      else if cfg.background then Some(EndPass(s, k).(pending := s.pending[pv.name := pv]))
      else Some(s.(passes := s.passes[k := AfterRefusal(cfg, s.passes[k])]))
  }

  /** os.RemoveAll on one node. */
  function RemoveOn(dirs: set<Dir>, root: Dir): set<Dir> {
    set d | d in dirs && Apart(d, root)
  }

  /** One Delete of the back-off store's clean-up. */
  function DoCleanUp(cfg: Config, s: State, k: ClaimKey, ok: bool): (r: Option<State>)
    ensures r.Some? ==> r.value.passes.Keys <= s.passes.Keys && r.value.notes == s.notes
    ensures r.Some? ==> r.value.cut == s.cut && r.value.versions == s.versions
    ensures r.Some? ==> r.value.ops == s.ops && r.value.api == s.api
    ensures r.Some? ==>
              && k in s.passes && s.passes[k].Cleaning?
              && (r.value.dirs == s.dirs || r.value.dirs == RemoveOn(s.dirs, Dir(k.node, s.passes[k].pv.path)))
    ensures r.Some? ==> r.value.pending == s.pending && r.value.dirs <= s.dirs
    ensures r.Some? && k !in r.value.passes ==> r.value.passes == s.passes - {k}
    ensures r.Some? && k in r.value.passes ==>
              && r.value.passes == s.passes[k := r.value.passes[k]]
              && r.value.passes[k].Cleaning? && r.value.passes[k].pv == s.passes[k].pv
  {
    if k !in s.passes || !s.passes[k].Cleaning? || k.node !in cfg.nodes then None
    else
      var pv, left := s.passes[k].pv, s.passes[k].left;
      if ok && DeleteVerdictOf(cfg.nodes[k.node], pv) == Permitted then
        Some(EndPass(s, k).(dirs := RemoveOn(s.dirs, Dir(k.node, pv.path))))
      else if left <= 1 then Some(EndPass(s, k).(leaked := s.leaked + {k.uid}))
      else Some(s.(passes := s.passes[k := Cleaning(pv, left - 1)]))
  }

  /** A background save of the queue store that the server answers. */
  function DoSavePending(s: State, name: string): (r: Option<State>)
    ensures r.Some? ==> r.value.passes == s.passes && r.value.notes == s.notes
    ensures r.Some? ==> r.value.cut == s.cut
    ensures r.Some? ==> r.value.ops == s.ops && s.api.Keys <= r.value.api.Keys && s.dirs <= r.value.dirs
  {
    if name in s.pending then Some(Save(s.(pending := s.pending - {name}), s.pending[name])) else None
  }

  // ---------------------------------------------------------------- volume operations

  predicate SameClaims(s: State, s': State) {
    s'.notes == s.notes && s'.passes == s.passes && s'.pending == s.pending
  }

  /** Whether the PV has the finalizer does not matter: the test after the one for it covers that case. */
  predicate Deletable(cfg: Config, pv: Volume) {
    ShouldDelete(cfg.kube, cfg.addFinalizer, true, cfg.provisionerName, pv)
  }

  function KeyOfOp(op: Op): VolumeKey {
    VolumeKey(op.node, op.pv.name)
  }

  /** The queue hands out a key it is not processing, and the cached PV should be deleted. */
  function DoBeginOp(cfg: Config, s: State, t: nat, node: string, cached: Volume): (r: Option<State>)
    ensures r.Some? ==> SameClaims(s, r.value)
    ensures r.Some? ==> r.value.cut == s.cut && r.value.versions == s.versions
    ensures r.Some? ==> r.value.api == s.api && r.value.dirs == s.dirs
  {
    var op := Op(node, cached, Syncing);
    if && t !in s.ops && node in cfg.nodes && cached in s.versions
       && Deletable(cfg, cached) && KeyOfOp(op) !in s.processing
    then Some(s.(ops := s.ops[t := op], processing := s.processing + {KeyOfOp(op)}))
    else None
  }

  /** Done hands the key back, also when somebody else is processing it by now. */
  function EndOp(s: State, t: nat): State
    requires t in s.ops
  {
    s.(ops := s.ops - {t}, processing := s.processing - {KeyOfOp(s.ops[t])})
  }

  /** The fresh Get and the second shouldDelete of deleteVolumeOperation. */
  function DoReadPv(cfg: Config, s: State, t: nat, ok: bool): (r: Option<State>)
    ensures r.Some? ==> SameClaims(s, r.value)
    ensures r.Some? ==> r.value.cut == s.cut && r.value.versions == s.versions
    ensures r.Some? ==> r.value.api == s.api && r.value.dirs == s.dirs
  {
    if t !in s.ops || s.ops[t].phase != Syncing then None
    else
      var op := s.ops[t];
      if ok && op.pv.name in s.api && Deletable(cfg, s.api[op.pv.name])
      then Some(s.(ops := s.ops[t := op.(phase := Approved(s.api[op.pv.name]))]))
      else Some(EndOp(s, t))
  }

  /** provisioner.Delete, called with the cached object. */
  function DoRemoveDir(cfg: Config, s: State, t: nat, ok: bool): (r: Option<State>)
    ensures r.Some? ==> SameClaims(s, r.value)
    ensures r.Some? ==> r.value.cut == s.cut && r.value.versions == s.versions
    ensures r.Some? ==> r.value.api == s.api
  {
    if t !in s.ops || !s.ops[t].phase.Approved? || s.ops[t].node !in cfg.nodes then None
    else
      var op := s.ops[t];
      if ok && DeleteVerdictOf(cfg.nodes[op.node], op.pv) == Permitted then
        Some(s.(dirs := RemoveOn(s.dirs, Dir(op.node, op.pv.path)),
                ops := s.ops[t := op.(phase := Removed(op.phase.read))]))
      else Some(EndOp(s, t))
  }

  function Deaths(s: State, name: string): nat {
    if name in s.deaths then s.deaths[name] else 0
  }

  function Told(s: State, vk: VolumeKey): nat {
    if vk in s.told then s.told[vk] else 0
  }

  /** The server no longer has the PV, and every informer will be told. */
  function Bury(s: State, name: string): State {
    s.(api := s.api - {name}, deaths := s.deaths[name := Deaths(s, name) + 1])
  }

  /** The API Delete: refused, carried out, or only marked while finalizers hold the object. */
  function DoDeletePv(s: State, t: nat, reply: DeleteReply): (r: Option<State>)
    ensures r.Some? ==> SameClaims(s, r.value)
    ensures r.Some? ==> r.value.cut == s.cut
    ensures r.Some? ==> r.value.dirs == s.dirs && r.value.ops == s.ops - {t}
  {
    if t !in s.ops || !s.ops[t].phase.Removed? then None
    else
      var name := s.ops[t].pv.name;
      if reply == Refused || name !in s.api then Some(EndOp(s, t))
      else if reply == Gone then Some(Bury(EndOp(s, t), name))
      else Some(Put(EndOp(s, t), s.api[name].(deleting := true)))
  }

  /** forgetVolume, once for every deletion: it calls Done for whoever is processing the key. */
  function DoForget(s: State, vk: VolumeKey): (r: Option<State>)
    ensures r.Some? ==> SameClaims(s, r.value)
    ensures r.Some? ==> r.value.cut == s.cut && r.value.versions == s.versions
    ensures r.Some? ==> r.value.api == s.api && r.value.ops == s.ops && r.value.dirs == s.dirs
  {
    if Told(s, vk) < Deaths(s, vk.name)
    then Some(s.(processing := s.processing - {vk}, told := s.told[vk := Told(s, vk) + 1]))
    else None
  }

  // ---------------------------------------------------------------- the rest of the cluster

  /** The annotations that the controllers read agree; others may differ. */
  predicate SameMarks(a: Annotations, b: Annotations) {
    && NoteIn(a, Identity) == NoteIn(b, Identity)
    && NoteIn(a, ProvisionOnNode) == NoteIn(b, ProvisionOnNode)
    && NoteIn(a, ProvisionedBy) == NoteIn(b, ProvisionedBy)
  }

  /** Other writers keep what identifies a volume, and Released is final. */
  predicate LegalUpdate(a: Volume, b: Volume) {
    && b.name == a.name && SameMarks(b.annotations, a.annotations) && b.claimRef == a.claimRef
    && b.path == a.path && b.affinity == a.affinity && b.deleting == a.deleting
    && (a.phase == Released ==> b.phase == Released)
  }

  function DoUpdatePv(s: State, name: string, next: Volume): (r: Option<State>)
    ensures r.Some? ==> SameClaims(s, r.value)
    ensures r.Some? ==> r.value.cut == s.cut
    ensures r.Some? ==> s.api.Keys <= r.value.api.Keys && r.value.ops == s.ops && r.value.dirs == s.dirs
  {
    if name in s.api && LegalUpdate(s.api[name], next) then
      Some(Put(s, next).(released := if next.phase == Released then s.released + {name} else s.released))
    else None
  }

  /** The last finalizer of a PV that a controller deleted goes away. */
  function DoReap(s: State, name: string): (r: Option<State>)
    ensures r.Some? ==> SameClaims(s, r.value)
    ensures r.Some? ==> r.value.cut == s.cut && r.value.versions == s.versions
    ensures r.Some? ==> r.value.ops == s.ops && r.value.dirs == s.dirs
  {
    if name in s.api && s.api[name].deleting then Some(Bury(s, name)) else None
  }

  /** The claims for which a node's passes have made a PV. */
  function InHand(passes: map<ClaimKey, Pass>, node: string): set<string> {
    set k | k in passes && k.node == node && (passes[k].Saving? || passes[k].Cleaning?) :: k.uid
  }

  /** The claims for which a node's queue store keeps a PV. */
  function Kept(pending: map<string, Volume>, node: string): set<string> {
    set name | name in pending && pending[name].affinity == node && pending[name].claimRef.Some? :: Uid(pending[name])
  }

  /** A controller restarts: its queues, passes, workers, cached claims and kept PVs are gone. */
  function DoCrash(s: State, node: string): (r: Option<State>)
    ensures r.Some? && r.value.api == s.api && r.value.dirs == s.dirs && r.value.versions == s.versions
    ensures forall t | t in r.value.ops :: t in s.ops && r.value.ops[t] == s.ops[t]
    ensures forall k | k in r.value.passes :: k in s.passes && r.value.passes[k] == s.passes[k]
  {
    Some(s.(notes := (map k | k in s.notes && k.node != node :: s.notes[k]),
            passes := (map k | k in s.passes && k.node != node :: s.passes[k]),
            pending := (map name | name in s.pending && s.pending[name].affinity != node :: s.pending[name]),
            ops := (map t | t in s.ops && s.ops[t].node != node :: s.ops[t]),
            processing := (set vk | vk in s.processing && vk.node != node),
            cut := s.cut + InHand(s.passes, node) + Kept(s.pending, node)))
  }

  function Step(cfg: Config, s: State, e: Event): Option<State> {
    match e
    case SeeClaim(k, annotations) => DoSeeClaim(cfg, s, k, annotations)
    case BeginPass(k, fits) => DoBeginPass(cfg, s, k, fits)
    case CheckPv(k) => DoCheckPv(cfg, s, k)
    case AbortPass(k) => DoAbortPass(s, k)
    case Provision(k, capacity) => DoProvision(cfg, s, k, capacity)
    case Create(k, answered) => DoCreate(cfg, s, k, answered)
    case CleanUp(k, ok) => DoCleanUp(cfg, s, k, ok)
    case SavePending(name) => DoSavePending(s, name)
    case BeginOp(t, node, cached) => DoBeginOp(cfg, s, t, node, cached)
    case ReadPv(t, ok) => DoReadPv(cfg, s, t, ok)
    case RemoveDir(t, ok) => DoRemoveDir(cfg, s, t, ok)
    case DeletePv(t, reply) => DoDeletePv(s, t, reply)
    case Forget(vk) => DoForget(s, vk)
    case UpdatePv(name, next) => DoUpdatePv(s, name, next)
    case Reap(name) => DoReap(s, name)
    case Crash(node) => DoCrash(s, node)
  }

  /** Events of claim workers and of the queue store, as opposed to those about PVs. */
  predicate OfClaim(e: Event) {
    || e.SeeClaim? || e.BeginPass? || e.CheckPv? || e.AbortPass?
    || e.Provision? || e.Create? || e.CleanUp? || e.SavePending?
  }

  /** The state after a run, None when some event is not enabled. */
  function Run(cfg: Config, es: seq<Event>): Option<State> {
    if es == [] then Some(Init())
    else
      var before := Run(cfg, es[..|es| - 1]);
      if before.None? then None else Step(cfg, before.value, es[|es| - 1])
  }

  // ---------------------------------------------------------------- what belongs to a claim

  /** A version of the planned PV: only capacity, policy, class, status and other annotations may differ. */
  predicate Genuine(cfg: Config, pv: Volume) {
    && pv.claimRef.Some?
    && pv.claimRef.value in cfg.plan
    && var t := cfg.plan[pv.claimRef.value].template;
    && pv.name == t.name && SameMarks(pv.annotations, t.annotations) && pv.path == t.path && pv.affinity == t.affinity
  }

  predicate Fresh(cfg: Config, pv: Volume) {
    Genuine(cfg, pv) && pv.phase == Pending && !pv.deleting
  }

  function Uid(pv: Volume): string
    requires pv.claimRef.Some?
  {
    pv.claimRef.value
  }

  /** Delete accepts a version of the claim's PV on the claim's node and nowhere else. */
  lemma OnlyHomeDeletes(cfg: Config, pv: Volume, node: string)
    requires WellFormed(cfg) && Genuine(cfg, pv) && node in cfg.nodes
    ensures DeleteVerdictOf(cfg.nodes[node], pv) == Permitted <==> node == cfg.plan[Uid(pv)].node
  {
    var marks := cfg.plan[Uid(pv)].template.annotations;
    assert SlotOk(cfg, Uid(pv), cfg.plan[Uid(pv)]);
    assert NoteIn(marks, Identity) == Some(cfg.provisionerName);
    assert NoteIn(marks, ProvisionOnNode) == Some(cfg.plan[Uid(pv)].node);
  }

  /** What a claim's node makes for it is a version of the planned PV. */
  lemma MadeIsFresh(cfg: Config, uid: string, capacity: int)
    requires WellFormed(cfg) && uid in cfg.plan
    ensures var slot := cfg.plan[uid];
            && SlotOk(cfg, uid, slot)
            && var pv := Made(cfg.nodes[slot.node], cfg.claims[uid], cfg.provisionerName, capacity);
            && pv == slot.template.(capacity := capacity) && Fresh(cfg, pv) && Uid(pv) == uid
            && Name(cfg, uid) == PvName(uid)
  {
    assert SlotOk(cfg, uid, cfg.plan[uid]);
  }

  // ---------------------------------------------------------------- placement

  /** Everything in the system is a version of a planned PV, and is where the plan puts it. */
  ghost predicate Placement(cfg: Config, s: State) {
    && VersionsPlaced(cfg, s.versions)
    && PendingPlaced(cfg, s.pending)
    && ApiPlaced(s.api, s.versions)
    && DirsPlaced(cfg, s.dirs)
    && AllNotesPlaced(cfg, s.notes)
    && PassesPlaced(cfg, s.passes)
    && OpsPlaced(cfg, s.versions, s.ops)
  }

  ghost predicate VersionsPlaced(cfg: Config, versions: set<Volume>) {
    forall pv | pv in versions :: Genuine(cfg, pv)
  }

  ghost predicate PendingPlaced(cfg: Config, pending: map<string, Volume>) {
    forall name | name in pending :: Fresh(cfg, pending[name]) && pending[name].name == name
  }

  ghost predicate ApiPlaced(api: map<string, Volume>, versions: set<Volume>) {
    forall name | name in api :: api[name] in versions && api[name].name == name
  }

  ghost predicate DirsPlaced(cfg: Config, dirs: set<Dir>) {
    forall d | d in dirs :: exists u | u in cfg.plan :: d == DirOf(cfg, u)
  }

  ghost predicate AllNotesPlaced(cfg: Config, notes: map<ClaimKey, Annotations>) {
    forall k | k in notes && k.uid in cfg.claims :: NotesPlaced(cfg, k, notes[k])
  }

  /** All nodes keep agreeing on the claim's target, although they write to what they read. */
  predicate NotesPlaced(cfg: Config, k: ClaimKey, annotations: Annotations)
    requires k.uid in cfg.claims
  {
    TargetNode(annotations, cfg.claims[k.uid].mode) == Target(cfg.claims[k.uid])
  }

  ghost predicate PassesPlaced(cfg: Config, passes: map<ClaimKey, Pass>) {
    forall k | k in passes :: PassPlaced(cfg, k, passes[k])
  }

  predicate PassPlaced(cfg: Config, k: ClaimKey, pass: Pass) {
    && k.uid in cfg.plan && k.node == cfg.plan[k.uid].node
    && (pass.Saving? || pass.Cleaning? ==> Fresh(cfg, pass.pv) && Uid(pass.pv) == k.uid)
    && (pass.Cleaning? ==> !cfg.background)
  }

  ghost predicate OpsPlaced(cfg: Config, versions: set<Volume>, ops: map<nat, Op>) {
    forall t | t in ops :: OpPlaced(cfg, versions, ops[t])
  }

  predicate OpPlaced(cfg: Config, versions: set<Volume>, op: Op) {
    && op.pv in versions && Deletable(cfg, op.pv)
    && op.node in cfg.nodes
    && (op.phase.Approved? || op.phase.Removed? ==>
          op.phase.read in versions && op.phase.read.name == op.pv.name && Deletable(cfg, op.phase.read))
    && (op.phase.Removed? ==> DeleteVerdictOf(cfg.nodes[op.node], op.pv) == Permitted)
  }

  lemma MoreVersions(cfg: Config, versions: set<Volume>, pv: Volume, ops: map<nat, Op>)
    requires VersionsPlaced(cfg, versions) && Genuine(cfg, pv) && OpsPlaced(cfg, versions, ops)
    ensures VersionsPlaced(cfg, versions + {pv}) && OpsPlaced(cfg, versions + {pv}, ops)
  {
    forall t | t in ops
      ensures OpPlaced(cfg, versions + {pv}, ops[t])
    {
      assert OpPlaced(cfg, versions, ops[t]);
    }
  }

  lemma PutKeepsPlacement(cfg: Config, s: State, pv: Volume)
    requires Placement(cfg, s) && Genuine(cfg, pv)
    ensures Placement(cfg, Put(s, pv))
  {
    MoreVersions(cfg, s.versions, pv, s.ops);
  }

  lemma EndPassKeepsPlacement(cfg: Config, s: State, k: ClaimKey)
    requires Placement(cfg, s)
    ensures Placement(cfg, EndPass(s, k))
  {
  }

  lemma EndOpKeepsPlacement(cfg: Config, s: State, t: nat)
    requires Placement(cfg, s) && t in s.ops
    ensures Placement(cfg, EndOp(s, t))
  {
  }

  lemma SetPass(cfg: Config, passes: map<ClaimKey, Pass>, k: ClaimKey, pass: Pass)
    requires PassesPlaced(cfg, passes) && PassPlaced(cfg, k, pass)
    ensures PassesPlaced(cfg, passes[k := pass])
  {
  }

  lemma SetOp(cfg: Config, versions: set<Volume>, ops: map<nat, Op>, t: nat, op: Op)
    requires OpsPlaced(cfg, versions, ops) && OpPlaced(cfg, versions, op)
    ensures OpsPlaced(cfg, versions, ops[t := op])
  {
  }

  lemma SetNotes(cfg: Config, notes: map<ClaimKey, Annotations>, k: ClaimKey, annotations: Annotations)
    requires AllNotesPlaced(cfg, notes) && k.uid in cfg.claims && NotesPlaced(cfg, k, annotations)
    ensures AllNotesPlaced(cfg, notes[k := annotations])
  {
  }

  lemma SetPending(cfg: Config, pending: map<string, Volume>, pv: Volume)
    requires PendingPlaced(cfg, pending) && Fresh(cfg, pv)
    ensures PendingPlaced(cfg, pending[pv.name := pv])
  {
  }

  lemma AddDir(cfg: Config, dirs: set<Dir>, u: string)
    requires DirsPlaced(cfg, dirs) && u in cfg.plan
    ensures DirsPlaced(cfg, dirs + {DirOf(cfg, u)})
  {
  }

  lemma RemovalKeepsDirsPlaced(cfg: Config, dirs: set<Dir>, root: Dir)
    requires DirsPlaced(cfg, dirs)
    ensures DirsPlaced(cfg, RemoveOn(dirs, root))
  {
  }

  /** Only the claim's target passes the Qualifier, and what it writes leaves the target as it is. */
  lemma OnlyTargetQualifies(cfg: Config, s: State, k: ClaimKey)
    requires WellFormed(cfg) && AllNotesPlaced(cfg, s.notes) && k.uid in cfg.claims && k.node in cfg.nodes
    ensures NotesPlaced(cfg, k, Noted(NotesOf(cfg, s, k), k.node, cfg.provisionerName))
    ensures ShouldProvision(cfg, s, k) ==> PassPlaced(cfg, k, Checking)
  {
    assert NotesPlaced(cfg, k, NotesOf(cfg, s, k));
    if ShouldProvision(cfg, s, k) {
      assert PlannedFor(cfg, k.uid);
      assert SlotOk(cfg, k.uid, cfg.plan[k.uid]);
    }
  }

  lemma BeginPassKeepsPlacement(cfg: Config, s: State, k: ClaimKey, fits: bool, s': State)
    requires WellFormed(cfg) && Placement(cfg, s) && DoBeginPass(cfg, s, k, fits) == Some(s')
    ensures Placement(cfg, s')
  {
    OnlyTargetQualifies(cfg, s, k);
    SetNotes(cfg, s.notes, k, Noted(NotesOf(cfg, s, k), k.node, cfg.provisionerName));
    if ShouldProvision(cfg, s, k) {
      SetPass(cfg, s.passes, k, Checking);
    }
  }

  lemma SeeClaimKeepsPlacement(cfg: Config, s: State, k: ClaimKey, annotations: Annotations, s': State)
    requires Placement(cfg, s) && DoSeeClaim(cfg, s, k, annotations) == Some(s')
    ensures Placement(cfg, s')
  {
    SetNotes(cfg, s.notes, k, annotations);
  }

  lemma CheckKeepsPlacement(cfg: Config, s: State, k: ClaimKey, s': State)
    requires Placement(cfg, s) && (DoCheckPv(cfg, s, k) == Some(s') || DoAbortPass(s, k) == Some(s'))
    ensures Placement(cfg, s')
  {
    EndPassKeepsPlacement(cfg, s, k);
    assert PassPlaced(cfg, k, s.passes[k]);
    SetPass(cfg, s.passes, k, Cleared);
  }

  lemma ProvisionKeepsPlacement(cfg: Config, s: State, k: ClaimKey, capacity: int, s': State)
    requires WellFormed(cfg) && Placement(cfg, s) && DoProvision(cfg, s, k, capacity) == Some(s')
    ensures Placement(cfg, s') && s'.dirs == s.dirs + {DirOf(cfg, k.uid)}
  {
    assert PassPlaced(cfg, k, s.passes[k]);
    MadeIsFresh(cfg, k.uid, capacity);
    var pv := cfg.plan[k.uid].template.(capacity := capacity);
    AddDir(cfg, s.dirs, k.uid);
    assert PassPlaced(cfg, k, Saving(pv, cfg.steps));
    SetPass(cfg, s.passes, k, Saving(pv, cfg.steps));
  }

  lemma CreatedKeepsPlacement(cfg: Config, s: State, k: ClaimKey, s': State)
    requires Placement(cfg, s) && DoCreate(cfg, s, k, true) == Some(s')
    ensures Placement(cfg, s')
  {
    assert PassPlaced(cfg, k, s.passes[k]);
    EndPassKeepsPlacement(cfg, s, k);
    PutKeepsPlacement(cfg, EndPass(s, k), s.passes[k].pv);
  }

  /** The pass after an attempt that failed. */
  lemma FailedAttemptPlaced(cfg: Config, k: ClaimKey, pass: Pass, left: nat)
    requires PassPlaced(cfg, k, pass) && (pass.Saving? || pass.Cleaning?)
    ensures PassPlaced(cfg, k, Saving(pass.pv, left))
    ensures !cfg.background ==> PassPlaced(cfg, k, Cleaning(pass.pv, left))
    ensures Fresh(cfg, pass.pv)
  {
  }

  lemma DeferredKeepsPlacement(cfg: Config, s: State, k: ClaimKey, s': State)
    requires Placement(cfg, s) && cfg.background && DoCreate(cfg, s, k, false) == Some(s')
    ensures Placement(cfg, s')
  {
    var pv := s.passes[k].pv;
    FailedAttemptPlaced(cfg, k, s.passes[k], 0);
    EndPassKeepsPlacement(cfg, s, k);
    SetPending(cfg, s.pending, pv);
  }

  lemma RefusedKeepsPlacement(cfg: Config, s: State, k: ClaimKey, s': State)
    requires Placement(cfg, s) && !cfg.background && DoCreate(cfg, s, k, false) == Some(s')
    ensures Placement(cfg, s')
  {
    var pass := s.passes[k];
    assert PassPlaced(cfg, k, pass);
    FailedAttemptPlaced(cfg, k, pass, AfterRefusal(cfg, pass).left);
    SetPass(cfg, s.passes, k, AfterRefusal(cfg, pass));
  }

  lemma CleanedKeepsPlacement(cfg: Config, s: State, k: ClaimKey, s': State)
    requires Placement(cfg, s) && DoCleanUp(cfg, s, k, true) == Some(s')
    requires DeleteVerdictOf(cfg.nodes[k.node], s.passes[k].pv) == Permitted
    ensures Placement(cfg, s')
  {
    EndPassKeepsPlacement(cfg, s, k);
    RemovalKeepsDirsPlaced(cfg, s.dirs, Dir(k.node, s.passes[k].pv.path));
  }

  lemma UncleanedKeepsPlacement(cfg: Config, s: State, k: ClaimKey, ok: bool, s': State)
    requires Placement(cfg, s) && DoCleanUp(cfg, s, k, ok) == Some(s')
    requires !ok || DeleteVerdictOf(cfg.nodes[k.node], s.passes[k].pv) != Permitted
    ensures Placement(cfg, s')
  {
    var pass := s.passes[k];
    assert PassPlaced(cfg, k, pass);
    if pass.left <= 1 {
      assert s' == EndPass(s, k).(leaked := s.leaked + {k.uid});
      EndPassKeepsPlacement(cfg, s, k);
    } else {
      assert s' == s.(passes := s.passes[k := Cleaning(pass.pv, pass.left - 1)]);
      FailedAttemptPlaced(cfg, k, pass, pass.left - 1);
      SetPass(cfg, s.passes, k, Cleaning(pass.pv, pass.left - 1));
    }
  }

  lemma CreateKeepsPlacement(cfg: Config, s: State, k: ClaimKey, answered: bool, s': State)
    requires Placement(cfg, s) && DoCreate(cfg, s, k, answered) == Some(s')
    ensures Placement(cfg, s')
  {
    if answered {
      CreatedKeepsPlacement(cfg, s, k, s');
    } else if cfg.background {
      DeferredKeepsPlacement(cfg, s, k, s');
    } else {
      RefusedKeepsPlacement(cfg, s, k, s');
    }
  }

  lemma CleanUpKeepsPlacement(cfg: Config, s: State, k: ClaimKey, ok: bool, s': State)
    requires Placement(cfg, s) && DoCleanUp(cfg, s, k, ok) == Some(s')
    ensures Placement(cfg, s')
  {
    if ok && DeleteVerdictOf(cfg.nodes[k.node], s.passes[k].pv) == Permitted {
      CleanedKeepsPlacement(cfg, s, k, s');
    } else {
      UncleanedKeepsPlacement(cfg, s, k, ok, s');
    }
  }

  lemma SavePendingKeepsPlacement(cfg: Config, s: State, name: string, s': State)
    requires Placement(cfg, s) && DoSavePending(s, name) == Some(s')
    ensures Placement(cfg, s')
  {
    PutKeepsPlacement(cfg, s.(pending := s.pending - {name}), s.pending[name]);
  }

  lemma BeginOpKeepsPlacement(cfg: Config, s: State, t: nat, node: string, cached: Volume, s': State)
    requires Placement(cfg, s) && DoBeginOp(cfg, s, t, node, cached) == Some(s')
    ensures Placement(cfg, s')
  {
    SetOp(cfg, s.versions, s.ops, t, Op(node, cached, Syncing));
  }

  lemma OpEventsKeepPlacement(cfg: Config, s: State, t: nat, ok: bool, s': State)
    requires Placement(cfg, s) && (DoReadPv(cfg, s, t, ok) == Some(s') || DoRemoveDir(cfg, s, t, ok) == Some(s'))
    ensures Placement(cfg, s')
  {
    assert OpPlaced(cfg, s.versions, s.ops[t]);
    EndOpKeepsPlacement(cfg, s, t);
    RemovalKeepsDirsPlaced(cfg, s.dirs, Dir(s.ops[t].node, s.ops[t].pv.path));
    if t in s'.ops {
      SetOp(cfg, s.versions, s.ops, t, s'.ops[t]);
    }
  }

  lemma DeletePvKeepsPlacement(cfg: Config, s: State, t: nat, reply: DeleteReply, s': State)
    requires Placement(cfg, s) && DoDeletePv(s, t, reply) == Some(s')
    ensures Placement(cfg, s')
  {
    var name := s.ops[t].pv.name;
    EndOpKeepsPlacement(cfg, s, t);
    if reply == Refused || name !in s.api {
      assert s' == EndOp(s, t);
    } else if reply == Gone {
      assert s' == Bury(EndOp(s, t), name);
    } else {
      assert Genuine(cfg, s.api[name]);
      PutKeepsPlacement(cfg, EndOp(s, t), s.api[name].(deleting := true));
    }
  }

  lemma UpdatesKeepPlacement(cfg: Config, s: State, name: string, next: Volume, s': State)
    requires Placement(cfg, s) && (DoUpdatePv(s, name, next) == Some(s') || DoReap(s, name) == Some(s'))
    ensures Placement(cfg, s')
  {
    if DoUpdatePv(s, name, next) == Some(s') {
      assert Genuine(cfg, s.api[name]);
      PutKeepsPlacement(cfg, s, next);
    }
  }

  lemma CrashKeepsPlacement(cfg: Config, s: State, node: string, s': State)
    requires Placement(cfg, s) && DoCrash(s, node) == Some(s')
    ensures Placement(cfg, s')
  {
    assert AllNotesPlaced(cfg, s'.notes);
    assert PassesPlaced(cfg, s'.passes);
    assert OpsPlaced(cfg, s.versions, s'.ops);
  }

  lemma ClaimEventKeepsPlacement(cfg: Config, s: State, e: Event, s': State)
    requires WellFormed(cfg) && Placement(cfg, s) && OfClaim(e) && Step(cfg, s, e) == Some(s')
    ensures Placement(cfg, s')
  {
    match e
    case SeeClaim(k, annotations) => SeeClaimKeepsPlacement(cfg, s, k, annotations, s');
    case BeginPass(k, fits) => BeginPassKeepsPlacement(cfg, s, k, fits, s');
    case CheckPv(k) => CheckKeepsPlacement(cfg, s, k, s');
    case AbortPass(k) => CheckKeepsPlacement(cfg, s, k, s');
    case Provision(k, capacity) => ProvisionKeepsPlacement(cfg, s, k, capacity, s');
    case Create(k, answered) => CreateKeepsPlacement(cfg, s, k, answered, s');
    case CleanUp(k, ok) => CleanUpKeepsPlacement(cfg, s, k, ok, s');
    case SavePending(name) => SavePendingKeepsPlacement(cfg, s, name, s');
  }

  lemma VolumeEventKeepsPlacement(cfg: Config, s: State, e: Event, s': State)
    requires WellFormed(cfg) && Placement(cfg, s) && !OfClaim(e) && Step(cfg, s, e) == Some(s')
    ensures Placement(cfg, s')
  {
    match e
    case BeginOp(t, node, cached) => BeginOpKeepsPlacement(cfg, s, t, node, cached, s');
    case ReadPv(t, ok) => OpEventsKeepPlacement(cfg, s, t, ok, s');
    case RemoveDir(t, ok) => OpEventsKeepPlacement(cfg, s, t, ok, s');
    case DeletePv(t, reply) => DeletePvKeepsPlacement(cfg, s, t, reply, s');
    case Forget(vk) =>
    case UpdatePv(name, next) => UpdatesKeepPlacement(cfg, s, name, next, s');
    case Reap(name) => UpdatesKeepPlacement(cfg, s, name, s.api[name], s');
    case Crash(node) => CrashKeepsPlacement(cfg, s, node, s');
  }

  lemma {:induction false} PlacementAlways(cfg: Config, es: seq<Event>, s: State)
    requires WellFormed(cfg) && Run(cfg, es) == Some(s)
    ensures Placement(cfg, s)
  {
    if es != [] {
      var before := Run(cfg, es[..|es| - 1]).value;
      PlacementAlways(cfg, es[..|es| - 1], before);
      if OfClaim(es[|es| - 1]) {
        ClaimEventKeepsPlacement(cfg, before, es[|es| - 1], s);
      } else {
        VolumeEventKeepsPlacement(cfg, before, es[|es| - 1], s);
      }
    }
  }
}
