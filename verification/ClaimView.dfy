/**
 The cluster as one claim sees it: one PV, one directory, one claim pass and the volume workers that the
 claim's node has for the PV. What is kept here whatever happens to the claim holds in every run of the
 cluster, as `ClusterSafety` shows.
 */
module ClaimView {
  import opened Cluster

  /** What matters about the claim's PV in the API server. */
  datatype Pv = NoPv | Pv(released: bool, deleting: bool)

  /** The next thing the claim's pass does. */
  datatype Stage = NoPass | AtCheck | AtProvision | AtSave | AtCleanUp

  /** The next thing a volume worker does. */
  datatype Work = AtRead | AtRemove | AtDelete

  /**
   - `waiting`: the queue store keeps a PV for the claim.
   - `ops`: the volume workers of the claim's node that work on its PV.
   - `busy`: the volume queue of that node is processing the PV's name.
   - `deaths`: how often a PV of the name was deleted.
   - `told`, `seen`, `released`, `leaked`, `cut`: the node's informer reported a deletion, a PV of the name
     existed, was Released; a failed clean-up left the directory behind, a crash lost the unsaved PV.
   */
  datatype Local = Local(
    pv: Pv,
    dir: bool,
    pass: Stage,
    waiting: bool,
    ops: map<nat, Work>,
    busy: bool,
    deaths: nat,
    told: bool,
    seen: bool,
    released: bool,
    leaked: bool,
    cut: bool)

  /** A save that the server answers: a new PV, unless there is one already. */
  function WithPv(l: Local): Local {
    if l.pv.Pv? then l else l.(pv := Pv(false, false), seen := true)
  }

  /** Worker `t` gives its key back. */
  function Ended(l: Local, t: nat): Local {
    l.(ops := l.ops - {t}, busy := false)
  }

  /** The claim's node crashes. */
  function Crashed(l: Local): Local {
    l.(pass := NoPass, waiting := false, ops := map[], busy := false, cut := l.cut || Holding(l) || l.waiting)
  }

  predicate IsAt(l: Local, t: nat, w: Work) {
    t in l.ops && l.ops[t] == w
  }

  // ---------------------------------------------------------------- what it always keeps

  predicate IsReleased(l: Local) {
    l.pv.Pv? && l.pv.released
  }

  predicate IsLive(l: Local) {
    l.pv.Pv? && !l.pv.released
  }

  predicate IsDeleting(l: Local) {
    l.pv.Pv? && l.pv.deleting
  }

  /** A worker past its fresh read. */
  predicate Armed(l: Local, t: nat) {
    t in l.ops && l.ops[t] != AtRead
  }

  /** The pass has found no PV and may still create one. */
  predicate Creating(l: Local) {
    l.pass != NoPass && l.pass != AtCheck
  }

  /** The pass has made the directory and not finished with it. */
  predicate Holding(l: Local) {
    l.pass == AtSave || l.pass == AtCleanUp
  }

  function Count(b: bool): nat {
    if b then 1 else 0
  }

  /** How many PVs of the name there have been. */
  function Lives(l: Local): nat {
    l.deaths + Count(l.pv.Pv?)
  }

  /** What the history says about the present, for either store and any informers. */
  ghost predicate Recorded(cfg: Config, l: Local) {
    && (l.waiting ==> cfg.background)
    && (l.pass == AtCleanUp ==> !cfg.background)
    && (IsReleased(l) || IsDeleting(l) ==> l.released)
    && (forall t | Armed(l, t) :: l.released)
    && (l.told ==> l.deaths > 0)
    && (l.deaths > 0 ==> l.released)
    && (l.seen <==> Lives(l) > 0)
  }

  /**
   Until the informer reports a deletion the queue lets one worker at a time have the PV. From
   Kubernetes 1.9 on it then works on a Released PV that nobody has deleted yet.
   */
  ghost predicate Alone(cfg: Config, l: Local) {
    !l.told ==>
      && (forall t | t in l.ops :: l.busy)
      && (forall t, t' | t in l.ops && t' in l.ops :: t == t')
      && (cfg.kube.atLeast19 ==> forall t | Armed(l, t) :: IsReleased(l) && !IsDeleting(l))
  }

  /** The blocking store, and nothing that lets a pass create a PV behind a worker's back. */
  predicate Guarded(cfg: Config, l: Local) {
    !cfg.background && (cfg.informersCurrent || (cfg.kube.atLeast19 && !l.told))
  }

  /** Directory, PV, pass and volume workers of the claim fit together. */
  ghost predicate InStep(cfg: Config, l: Local) {
    && (Creating(l) ==> l.pv == NoPv && (cfg.informersCurrent ==> !l.released))
    && (Holding(l) ==> l.dir)
    && (IsLive(l) ==> l.dir && (cfg.informersCurrent ==> !l.released))
    && (IsDeleting(l) ==> IsReleased(l) && !l.dir)
    && (l.dir ==> l.pv.Pv? || Holding(l) || l.leaked || l.cut)
    && (forall t | Armed(l, t) :: !Creating(l) && !IsLive(l) && (l.ops[t] == AtDelete ==> !l.dir))
  }

  /** How many PVs the blocking store and the queue store save under one name, given current informers. */
  function MaxLives(cfg: Config): nat {
    if cfg.background then 2 else 1
  }

  /** Whoever may still save a PV is counted as well. */
  predicate FewLives(cfg: Config, l: Local) {
    Lives(l) + Count(Creating(l)) + Count(l.waiting) <= MaxLives(cfg)
  }

  /** Nothing will save a PV behind the back of a worker that may remove the directory. */
  ghost predicate NoneBehind(l: Local) {
    l.told ==> forall t | Armed(l, t) :: !IsLive(l) && (l.pv == NoPv ==> !Creating(l) && !l.waiting)
  }

  ghost predicate Sound(cfg: Config, l: Local) {
    && Recorded(cfg, l)
    && Alone(cfg, l)
    && (Guarded(cfg, l) ==> InStep(cfg, l))
    && (cfg.informersCurrent ==> FewLives(cfg, l))
    && (cfg.informersCurrent && cfg.kube.atLeast19 ==> NoneBehind(l))
  }

  // ---------------------------------------------------------------- whatever happens to the claim keeps it

  lemma SameWorkers(l: Local, l': Local)
    requires l'.ops == l.ops
    ensures forall t :: Armed(l', t) <==> Armed(l, t)
  {
  }

  lemma StartSound(cfg: Config, l: Local)
    requires Sound(cfg, l) && l.pass == NoPass
    ensures Sound(cfg, l.(pass := AtCheck))
  {
    SameWorkers(l, l.(pass := AtCheck));
  }

  /** The check finds no PV, which with current informers means that none was Released before. */
  lemma ClearSound(cfg: Config, l: Local)
    requires Sound(cfg, l) && l.pass == AtCheck && l.pv == NoPv && !(cfg.informersCurrent && l.released)
    ensures Sound(cfg, l.(pass := AtProvision))
  {
    SameWorkers(l, l.(pass := AtProvision));
  }

  lemma StopSound(cfg: Config, l: Local)
    requires Sound(cfg, l) && (l.pass == AtCheck || l.pass == AtProvision)
    ensures Sound(cfg, l.(pass := NoPass))
  {
    SameWorkers(l, l.(pass := NoPass));
  }

  lemma MakeSound(cfg: Config, l: Local)
    requires Sound(cfg, l) && l.pass == AtProvision
    ensures Sound(cfg, l.(pass := AtSave, dir := true))
  {
    SameWorkers(l, l.(pass := AtSave, dir := true));
  }

  lemma SavedSound(cfg: Config, l: Local)
    requires Sound(cfg, l) && l.pass == AtSave
    ensures Sound(cfg, WithPv(l.(pass := NoPass)))
  {
    SameWorkers(l, WithPv(l.(pass := NoPass)));
  }

  lemma DeferredSound(cfg: Config, l: Local)
    requires Sound(cfg, l) && l.pass == AtSave && cfg.background
    ensures Sound(cfg, l.(pass := NoPass, waiting := true))
  {
    SameWorkers(l, l.(pass := NoPass, waiting := true));
  }

  lemma ExhaustedSound(cfg: Config, l: Local)
    requires Sound(cfg, l) && l.pass == AtSave && !cfg.background
    ensures Sound(cfg, l.(pass := AtCleanUp))
  {
    SameWorkers(l, l.(pass := AtCleanUp));
  }

  lemma CleanedSound(cfg: Config, l: Local)
    requires Sound(cfg, l) && l.pass == AtCleanUp
    ensures Sound(cfg, l.(pass := NoPass, dir := false))
  {
    SameWorkers(l, l.(pass := NoPass, dir := false));
  }

  lemma UncleanedSound(cfg: Config, l: Local)
    requires Sound(cfg, l) && l.pass == AtCleanUp
    ensures Sound(cfg, l.(pass := NoPass, leaked := true))
  {
    SameWorkers(l, l.(pass := NoPass, leaked := true));
  }

  lemma SavedLaterSound(cfg: Config, l: Local)
    requires Sound(cfg, l) && l.waiting
    ensures Sound(cfg, WithPv(l.(waiting := false)))
  {
    SameWorkers(l, WithPv(l.(waiting := false)));
  }

  /** Workers other than `t` stay as they are. */
  lemma OtherWorkers(l: Local, t: nat, l': Local)
    requires forall t' | t' != t :: (t' in l'.ops <==> t' in l.ops) && (t' in l.ops ==> l'.ops[t'] == l.ops[t'])
    ensures forall t' | t' != t :: Armed(l', t') <==> Armed(l, t')
  {
  }

  lemma BeginSound(cfg: Config, l: Local, t: nat)
    requires Sound(cfg, l) && t !in l.ops && !l.busy
    ensures Sound(cfg, l.(ops := l.ops[t := AtRead], busy := true))
  {
    OtherWorkers(l, t, l.(ops := l.ops[t := AtRead], busy := true));
  }

  lemma ApproveSound(cfg: Config, l: Local, t: nat)
    requires Sound(cfg, l) && IsAt(l, t, AtRead) && IsReleased(l) && !(cfg.kube.atLeast19 && IsDeleting(l))
    ensures Sound(cfg, l.(ops := l.ops[t := AtRemove]))
  {
    OtherWorkers(l, t, l.(ops := l.ops[t := AtRemove]));
  }

  lemma RemoveSound(cfg: Config, l: Local, t: nat)
    requires Sound(cfg, l) && IsAt(l, t, AtRemove)
    ensures Sound(cfg, l.(dir := false, ops := l.ops[t := AtDelete]))
  {
    assert Armed(l, t);
    OtherWorkers(l, t, l.(dir := false, ops := l.ops[t := AtDelete]));
  }

  lemma EndSound(cfg: Config, l: Local, t: nat)
    requires Sound(cfg, l) && t in l.ops
    ensures Sound(cfg, Ended(l, t))
  {
    OtherWorkers(l, t, Ended(l, t));
  }

  lemma DeleteSound(cfg: Config, l: Local, t: nat)
    requires Sound(cfg, l) && IsAt(l, t, AtDelete) && l.pv.Pv?
    ensures Sound(cfg, Ended(l, t).(pv := NoPv, deaths := l.deaths + 1))
  {
    assert Armed(l, t);
    OtherWorkers(l, t, Ended(l, t).(pv := NoPv, deaths := l.deaths + 1));
  }

  lemma MarkSound(cfg: Config, l: Local, t: nat)
    requires Sound(cfg, l) && IsAt(l, t, AtDelete) && l.pv.Pv?
    ensures Sound(cfg, Ended(l, t).(pv := Pv(l.pv.released, true)))
  {
    assert Armed(l, t);
    OtherWorkers(l, t, Ended(l, t).(pv := Pv(l.pv.released, true)));
  }

  lemma ForgetSound(cfg: Config, l: Local)
    requires Sound(cfg, l) && l.deaths > 0
    ensures Sound(cfg, l.(busy := false, told := true))
  {
    SameWorkers(l, l.(busy := false, told := true));
  }

  lemma UpdateSound(cfg: Config, l: Local, toReleased: bool)
    requires Sound(cfg, l) && l.pv.Pv? && (l.pv.released ==> toReleased)
    ensures Sound(cfg, l.(pv := Pv(toReleased, l.pv.deleting), released := l.released || toReleased))
  {
    SameWorkers(l, l.(pv := Pv(toReleased, l.pv.deleting), released := l.released || toReleased));
  }

  lemma ReapSound(cfg: Config, l: Local)
    requires Sound(cfg, l) && IsDeleting(l)
    ensures Sound(cfg, l.(pv := NoPv, deaths := l.deaths + 1))
  {
    SameWorkers(l, l.(pv := NoPv, deaths := l.deaths + 1));
  }

  lemma CrashSound(cfg: Config, l: Local)
    requires Sound(cfg, l)
    ensures Sound(cfg, Crashed(l))
  {
    assert forall t :: !Armed(Crashed(l), t);
  }
}
