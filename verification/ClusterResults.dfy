/** What every run of the cluster guarantees about directories and PVs. */
module ClusterResults {
  import opened Common
  import opened HostPath
  import opened Cluster
  import opened ClaimView
  import opened ClusterSafety

  // ---------------------------------------------------------------- directories and PVs in step

  /** The blocking store, and either current informers or 1.9 with no reported deletion of the PV's name so far. */
  predicate Protected(cfg: Config, s: State, u: string)
    requires u in cfg.plan
  {
    !cfg.background && (cfg.informersCurrent || (cfg.kube.atLeast19 && VolumeKeyOf(cfg, u) !in s.told))
  }

  /** A pass of the claim that has made the directory and not finished with it. */
  predicate HeldByPass(cfg: Config, s: State, u: string)
    requires u in cfg.plan
  {
    var k := KeyOf(cfg, u);
    k in s.passes && (s.passes[k].Saving? || s.passes[k].Cleaning?)
  }

  /** A PV that is not Released has its directory, on its own node. */
  lemma LivePvHasDirectory(cfg: Config, es: seq<Event>, s: State, name: string)
    requires WellFormed(cfg) && Run(cfg, es) == Some(s)
    requires name in s.api && s.api[name].phase != Released
    ensures Genuine(cfg, s.api[name])
    ensures Protected(cfg, s, Uid(s.api[name])) ==> DirOf(cfg, Uid(s.api[name])) in s.dirs
  {
    PlacementAlways(cfg, es, s);
    assert Genuine(cfg, s.api[name]);
    SoundAlways(cfg, es, s, Uid(s.api[name]));
  }

  /** `d` is the claim's directory and, if the claim is protected, somebody answers for it. */
  predicate AccountedFor(cfg: Config, s: State, u: string, d: Dir) {
    && u in cfg.plan && d == DirOf(cfg, u)
    && (Protected(cfg, s, u) ==> Name(cfg, u) in s.api || HeldByPass(cfg, s, u) || u in s.leaked || u in s.cut)
  }

  lemma OwnDirectoryAccountedFor(cfg: Config, es: seq<Event>, s: State, u: string)
    requires WellFormed(cfg) && Run(cfg, es) == Some(s) && u in cfg.plan && DirOf(cfg, u) in s.dirs
    ensures AccountedFor(cfg, s, u, DirOf(cfg, u))
  {
    SoundAlways(cfg, es, s, u);
  }

  /** Conversely every directory has a PV, a pass still working on it, a failed clean-up or a crash on record. */
  lemma DirectoryAccountedFor(cfg: Config, es: seq<Event>, s: State, d: Dir)
    requires WellFormed(cfg) && Run(cfg, es) == Some(s) && d in s.dirs
    ensures exists u :: AccountedFor(cfg, s, u, d)
  {
    PlacementAlways(cfg, es, s);
    var u :| u in cfg.plan && d == DirOf(cfg, u);
    OwnDirectoryAccountedFor(cfg, es, s, u);
  }

  /** Only these two events make an API object go away. */
  predicate Deletes(s: State, e: Event, name: string) {
    || (e.DeletePv? && e.t in s.ops && s.ops[e.t].phase.Removed? && s.ops[e.t].pv.name == name)
    || (e.Reap? && name in s.api && s.api[name].deleting)
  }

  lemma NothingElseDeletes(cfg: Config, s: State, e: Event, s': State)
    requires Step(cfg, s, e) == Some(s') && !e.DeletePv? && !e.Reap?
    ensures s.api.Keys <= s'.api.Keys
  {
  }

  lemma DeletePvDeletes(s: State, t: nat, reply: DeleteReply, s': State, name: string)
    requires DoDeletePv(s, t, reply) == Some(s') && name in s.api && name !in s'.api
    ensures s.ops[t].pv.name == name
  {
  }

  lemma OnlyDeletionsDelete(cfg: Config, s: State, e: Event, s': State, name: string)
    requires Step(cfg, s, e) == Some(s') && name in s.api && name !in s'.api
    ensures Deletes(s, e, name) && s'.dirs == s.dirs
  {
    if e.DeletePv? {
      DeletePvDeletes(s, e.t, e.reply, s', name);
    } else if !e.Reap? {
      NothingElseDeletes(cfg, s, e, s');
    }
  }

  /** A worker that deletes the claim's PV is one of the claim's node. */
  lemma DeleterIsHome(cfg: Config, s: State, t: nat, u: string)
    requires WellFormed(cfg) && Placement(cfg, s) && u in cfg.plan
    requires t in s.ops && s.ops[t].pv.name == Name(cfg, u) && s.ops[t].phase.Removed?
    ensures KeyOfOp(s.ops[t]) == VolumeKeyOf(cfg, u)
  {
    var v := Owner(cfg, s, t);
    PlanDistinct(cfg, u, v);
  }

  lemma DeleterInStep(cfg: Config, l: Local, t: nat)
    requires Sound(cfg, l) && Guarded(cfg, l) && IsAt(l, t, AtDelete)
    ensures !IsLive(l) && !l.dir
  {
    assert Armed(l, t);
  }

  lemma DeletedAfterDirectory(cfg: Config, s: State, t: nat, u: string)
    requires SoundFor(cfg, s, u) && Protected(cfg, s, u) && Name(cfg, u) in s.api
    requires t in s.ops && KeyOfOp(s.ops[t]) == VolumeKeyOf(cfg, u) && s.ops[t].phase.Removed?
    ensures s.api[Name(cfg, u)].phase == Released && DirOf(cfg, u) !in s.dirs
  {
    EndOpView(cfg, s, t, u);
    DeleterInStep(cfg, View(cfg, s, u), t);
  }

  lemma ReapedAfterDirectory(cfg: Config, s: State, u: string)
    requires SoundFor(cfg, s, u) && Protected(cfg, s, u) && Name(cfg, u) in s.api && s.api[Name(cfg, u)].deleting
    ensures s.api[Name(cfg, u)].phase == Released && DirOf(cfg, u) !in s.dirs
  {
    assert IsDeleting(View(cfg, s, u));
  }

  lemma OwnPvGoesAfterDirectory(cfg: Config, es: seq<Event>, s: State, e: Event, u: string)
    requires WellFormed(cfg) && Run(cfg, es) == Some(s) && u in cfg.plan && Protected(cfg, s, u)
    requires Name(cfg, u) in s.api && Deletes(s, e, Name(cfg, u))
    ensures s.api[Name(cfg, u)].phase == Released && DirOf(cfg, u) !in s.dirs
  {
    SoundAlways(cfg, es, s, u);
    if e.DeletePv? {
      PlacementAlways(cfg, es, s);
      DeleterIsHome(cfg, s, e.t, u);
      DeletedAfterDirectory(cfg, s, e.t, u);
    } else {
      ReapedAfterDirectory(cfg, s, u);
    }
  }

  /** A PV object disappears only when it was Released and its directory is already gone. */
  lemma PvGoesAfterDirectory(cfg: Config, es: seq<Event>, s: State, e: Event, s': State, name: string)
    requires WellFormed(cfg) && Run(cfg, es) == Some(s) && Step(cfg, s, e) == Some(s')
    requires name in s.api && name !in s'.api
    ensures Genuine(cfg, s.api[name]) && s'.dirs == s.dirs
    ensures Protected(cfg, s, Uid(s.api[name])) ==>
              s.api[name].phase == Released && DirOf(cfg, Uid(s.api[name])) !in s.dirs
  {
    PlacementAlways(cfg, es, s);
    assert s.api[name] in s.versions && Genuine(cfg, s.api[name]);
    OnlyDeletionsDelete(cfg, s, e, s', name);
    if Protected(cfg, s, Uid(s.api[name])) {
      OwnPvGoesAfterDirectory(cfg, es, s, e, Uid(s.api[name]));
    }
  }

  /** Until its informer reports a deletion of the PV, a node has one worker for it at a time. */
  lemma OneWorkerUntilTold(cfg: Config, es: seq<Event>, s: State, u: string, t: nat, t': nat)
    requires WellFormed(cfg) && Run(cfg, es) == Some(s) && u in cfg.plan && VolumeKeyOf(cfg, u) !in s.told
    requires t in s.ops && t' in s.ops
    requires KeyOfOp(s.ops[t]) == VolumeKeyOf(cfg, u) && KeyOfOp(s.ops[t']) == VolumeKeyOf(cfg, u)
    ensures t == t'
  {
    SoundAlways(cfg, es, s, u);
    EndOpView(cfg, s, t, u);
    EndOpView(cfg, s, t', u);
  }

  /** How many PVs of one name there have been. */
  function LivesOf(s: State, name: string): nat {
    Deaths(s, name) + if name in s.api then 1 else 0
  }

  /** With current informers a claim gets one PV from the blocking store, and two at most from the queue store. */
  lemma LivesBounded(cfg: Config, es: seq<Event>, s: State, u: string)
    requires WellFormed(cfg) && cfg.informersCurrent && Run(cfg, es) == Some(s) && u in cfg.plan
    ensures LivesOf(s, Name(cfg, u)) <= MaxLives(cfg)
  {
    SoundAlways(cfg, es, s, u);
    assert FewLives(cfg, View(cfg, s, u));
  }

  lemma OnlyCrashCuts(cfg: Config, s: State, e: Event, s': State)
    requires Step(cfg, s, e) == Some(s') && !e.Crash?
    ensures s'.cut == s.cut
  {
  }

  /** Nothing but a crash records a lost PV. */
  lemma {:induction false} CutNeedsCrash(cfg: Config, es: seq<Event>, s: State)
    requires Run(cfg, es) == Some(s) && forall i | 0 <= i < |es| :: !es[i].Crash?
    ensures s.cut == {}
  {
    if es != [] {
      var n := |es| - 1;
      var before := Run(cfg, es[..n]).value;
      CutNeedsCrash(cfg, es[..n], before);
      OnlyCrashCuts(cfg, before, es[n], s);
    }
  }

  // ---------------------------------------------------------------- why a directory was removed

  /** A PV whose directory may go, by its own fields. */
  predicate Disposable(cfg: Config, pv: Volume) {
    && pv.phase == Released && pv.policy == Policy.Delete
    && NoteIn(pv.annotations, ProvisionedBy) == Some(cfg.provisionerName)
    && (cfg.kube.atLeast19 ==> !pv.deleting)
  }

  lemma DeletableIff(cfg: Config, pv: Volume)
    requires cfg.kube.atLeast15
    ensures Deletable(cfg, pv) <==> Disposable(cfg, pv)
  {
    ShouldDeleteIff(cfg.kube, cfg.addFinalizer, true, cfg.provisionerName, pv);
  }

  /** Event `j` was the read of worker `t`: the API server held `read`, which was to be deleted. */
  ghost predicate ReadAt(cfg: Config, es: seq<Event>, j: nat, t: nat, read: Volume) {
    && j < |es| && es[j] == ReadPv(t, true)
    && Run(cfg, es[..j]).Some?
    && read.name in Run(cfg, es[..j]).value.api && Run(cfg, es[..j]).value.api[read.name] == read
    && Disposable(cfg, read)
    && (forall i | j < i < |es| :: !(es[i].BeginOp? && es[i].t == t))
  }

  lemma StillReadAt(cfg: Config, es: seq<Event>, j: nat, t: nat, read: Volume)
    requires es != [] && ReadAt(cfg, es[..|es| - 1], j, t, read)
    requires !(es[|es| - 1].BeginOp? && es[|es| - 1].t == t)
    ensures ReadAt(cfg, es, j, t, read)
  {
    var before := es[..|es| - 1];
    assert before[..j] == es[..j];
    assert forall i | j < i < |before| :: es[i] == before[i];
  }

  /** The worker remembers the same read before and after. */
  predicate SameRead(s: State, s': State, t: nat) {
    && t in s.ops && t in s'.ops && !s.ops[t].phase.Syncing? && !s'.ops[t].phase.Syncing?
    && s.ops[t].phase.read == s'.ops[t].phase.read
  }

  lemma ReadingKeepsRead(cfg: Config, s: State, i: nat, ok: bool, s': State, t: nat)
    requires t in s'.ops && !s'.ops[t].phase.Syncing?
    requires DoReadPv(cfg, s, i, ok) == Some(s') && !(i == t && ok)
    ensures SameRead(s, s', t)
  {
  }

  lemma RemovalKeepsRead(cfg: Config, s: State, i: nat, ok: bool, s': State, t: nat)
    requires t in s'.ops && !s'.ops[t].phase.Syncing? && DoRemoveDir(cfg, s, i, ok) == Some(s')
    ensures SameRead(s, s', t)
  {
  }

  lemma BeginKeepsRead(cfg: Config, s: State, i: nat, node: string, cached: Volume, s': State, t: nat)
    requires t in s'.ops && !s'.ops[t].phase.Syncing? && DoBeginOp(cfg, s, i, node, cached) == Some(s')
    ensures SameRead(s, s', t) && i != t
  {
  }

  lemma DeleteKeepsRead(s: State, i: nat, reply: DeleteReply, s': State, t: nat)
    requires t in s'.ops && !s'.ops[t].phase.Syncing? && DoDeletePv(s, i, reply) == Some(s')
    ensures SameRead(s, s', t)
  {
  }

  lemma EventsKeepRead(cfg: Config, s: State, e: Event, s': State, t: nat)
    requires Step(cfg, s, e) == Some(s') && t in s'.ops && !s'.ops[t].phase.Syncing? && e != ReadPv(t, true)
    ensures SameRead(s, s', t) && !(e.BeginOp? && e.t == t)
  {
    if e.RemoveDir? {
      RemovalKeepsRead(cfg, s, e.t, e.ok, s', t);
    } else if e.ReadPv? {
      ReadingKeepsRead(cfg, s, e.t, e.ok, s', t);
    } else if e.BeginOp? {
      BeginKeepsRead(cfg, s, e.t, e.node, e.cached, s', t);
    } else if e.DeletePv? {
      DeleteKeepsRead(s, e.t, e.reply, s', t);
    } else if e.Crash? {
      assert s'.ops[t] == s.ops[t];
    } else {
      assert s'.ops == s.ops;
    }
  }

  lemma ReadNow(cfg: Config, s: State, t: nat, s': State)
    requires ApiPlaced(s.api, s.versions) && DoReadPv(cfg, s, t, true) == Some(s') && t in s'.ops
    ensures s'.ops[t].phase.Approved?
    ensures var read := s'.ops[t].phase.read; read.name in s.api && s.api[read.name] == read && Deletable(cfg, read)
  {
  }

  /** A worker past its fresh read did read, since it began, what it remembers. */
  lemma {:induction false} ReadWasFresh(cfg: Config, es: seq<Event>, s: State, t: nat) returns (j: nat)
    requires WellFormed(cfg) && Run(cfg, es) == Some(s) && t in s.ops && !s.ops[t].phase.Syncing?
    ensures ReadAt(cfg, es, j, t, s.ops[t].phase.read)
  {
    var n := |es| - 1;
    var before := Run(cfg, es[..n]).value;
    if es[n] == ReadPv(t, true) {
      PlacementAlways(cfg, es[..n], before);
      ReadNow(cfg, before, t, s);
      DeletableIff(cfg, s.ops[t].phase.read);
      j := n;
    } else {
      EventsKeepRead(cfg, before, es[n], s, t);
      j := ReadWasFresh(cfg, es[..n], before, t);
      StillReadAt(cfg, es, j, t, s.ops[t].phase.read);
    }
  }

  /** A worker on the claim's node whose cache and whose fresh read of the claim's PV allowed the removal. */
  ghost predicate RemovedByWorker(cfg: Config, es: seq<Event>, s: State, e: Event, u: string)
    requires u in cfg.plan
  {
    && e.RemoveDir? && e.t in s.ops
    && KeyOfOp(s.ops[e.t]) == VolumeKeyOf(cfg, u)
    && Disposable(cfg, s.ops[e.t].pv)
    && s.ops[e.t].phase.Approved?
    && s.ops[e.t].phase.read.name == Name(cfg, u)
    && exists j :: ReadAt(cfg, es, j, e.t, s.ops[e.t].phase.read)
  }

  /** The clean-up of the claim's own pass, after the blocking store failed to save the PV. */
  predicate RemovedByCleanUp(cfg: Config, s: State, e: Event, u: string)
    requires u in cfg.plan
  {
    && e.CleanUp? && e.key == KeyOf(cfg, u) && e.key in s.passes && s.passes[e.key].Cleaning?
    && !cfg.background
  }

  lemma OnlyRemovalsRemove(cfg: Config, s: State, e: Event, s': State, d: Dir)
    requires Step(cfg, s, e) == Some(s') && d in s.dirs && d !in s'.dirs
    ensures e.RemoveDir? || e.CleanUp?
  {
  }

  lemma WorkerRemoves(cfg: Config, s: State, t: nat, ok: bool, s': State, d: Dir) returns (u: string)
    requires WellFormed(cfg) && Placement(cfg, s) && DoRemoveDir(cfg, s, t, ok) == Some(s')
    requires d in s.dirs && d !in s'.dirs
    ensures u in cfg.plan && d == DirOf(cfg, u) && KeyOfOp(s.ops[t]) == VolumeKeyOf(cfg, u)
    ensures s.ops[t].phase.read.name == Name(cfg, u) && s.ops[t].phase.read in s.versions
    ensures Disposable(cfg, s.ops[t].pv)
  {
    assert OpPlaced(cfg, s.versions, s.ops[t]);
    DeletableIff(cfg, s.ops[t].pv);
    u := Owner(cfg, s, t);
    RemoveOne(cfg, s.dirs, u);
  }

  lemma CleaningPlaced(cfg: Config, k: ClaimKey, pass: Pass)
    requires PassPlaced(cfg, k, pass) && pass.Cleaning?
    ensures Dir(k.node, pass.pv.path) == DirOf(cfg, k.uid) && k == KeyOf(cfg, k.uid) && !cfg.background
  {
  }

  lemma CleanUpRemoves(cfg: Config, s: State, k: ClaimKey, ok: bool, s': State, d: Dir)
    requires WellFormed(cfg) && PassesPlaced(cfg, s.passes) && DirsPlaced(cfg, s.dirs)
    requires DoCleanUp(cfg, s, k, ok) == Some(s') && d in s.dirs && d !in s'.dirs
    ensures k.uid in cfg.plan && d == DirOf(cfg, k.uid) && RemovedByCleanUp(cfg, s, CleanUp(k, ok), k.uid)
  {
    CleaningPlaced(cfg, k, s.passes[k]);
    RemoveOne(cfg, s.dirs, k.uid);
  }

  /** With either store and any informers, no other event removes a directory. */
  lemma RemovalJustified(cfg: Config, es: seq<Event>, s: State, e: Event, s': State, d: Dir)
    requires WellFormed(cfg) && Run(cfg, es) == Some(s) && Step(cfg, s, e) == Some(s')
    requires d in s.dirs && d !in s'.dirs
    ensures exists u | u in cfg.plan ::
              d == DirOf(cfg, u) && (RemovedByWorker(cfg, es, s, e, u) || RemovedByCleanUp(cfg, s, e, u))
  {
    PlacementAlways(cfg, es, s);
    OnlyRemovalsRemove(cfg, s, e, s', d);
    if e.RemoveDir? {
      var u := WorkerRemoves(cfg, s, e.t, e.ok, s', d);
      var j := ReadWasFresh(cfg, es, s, e.t);
      assert RemovedByWorker(cfg, es, s, e, u);
    } else {
      CleanUpRemoves(cfg, s, e.key, e.ok, s', d);
    }
  }

  // ---------------------------------------------------------------- PVs that are to be retained

  /** Some PV of the name was Released while its policy was Delete. */
  ghost predicate WasDisposable(versions: set<Volume>, name: string) {
    exists pv | pv in versions && pv.name == name :: pv.phase == Released && pv.policy == Policy.Delete
  }

  /** Only a PV that was to be deleted is ever marked. */
  ghost predicate MarksEarned(versions: set<Volume>) {
    forall pv | pv in versions && pv.deleting :: WasDisposable(versions, pv.name)
  }

  lemma PutKeepsMarksEarned(versions: set<Volume>, pv: Volume)
    requires MarksEarned(versions) && (pv.deleting ==> WasDisposable(versions, pv.name))
    ensures MarksEarned(versions + {pv})
  {
    forall w | w in versions + {pv} && w.deleting
      ensures WasDisposable(versions + {pv}, w.name)
    {
      var x :| x in versions && x.name == w.name && x.phase == Released && x.policy == Policy.Delete;
      assert x in versions + {pv};
    }
  }

  /** A worker past its read has a PV of its name that was to be deleted. */
  lemma WorkerNeedsDisposable(cfg: Config, s: State, t: nat)
    requires WellFormed(cfg) && OpsPlaced(cfg, s.versions, s.ops) && t in s.ops && !s.ops[t].phase.Syncing?
    ensures WasDisposable(s.versions, s.ops[t].pv.name)
  {
    assert OpPlaced(cfg, s.versions, s.ops[t]);
    DeletableIff(cfg, s.ops[t].phase.read);
  }

  lemma SavesKeepMarksEarned(cfg: Config, s: State, e: Event, s': State)
    requires Placement(cfg, s) && MarksEarned(s.versions) && Step(cfg, s, e) == Some(s')
    requires e.Create? || e.SavePending?
    ensures MarksEarned(s'.versions)
  {
    if e.Create? {
      assert PassPlaced(cfg, e.key, s.passes[e.key]);
      PutKeepsMarksEarned(s.versions, s.passes[e.key].pv);
    } else {
      PutKeepsMarksEarned(s.versions, s.pending[e.name]);
    }
  }

  lemma MarkKeepsMarksEarned(s: State, t: nat, reply: DeleteReply, s': State)
    requires ApiPlaced(s.api, s.versions) && MarksEarned(s.versions) && DoDeletePv(s, t, reply) == Some(s')
    requires WasDisposable(s.versions, s.ops[t].pv.name)
    ensures MarksEarned(s'.versions)
  {
    var name := s.ops[t].pv.name;
    if name in s.api {
      assert s.api[name].name == name;
      PutKeepsMarksEarned(s.versions, s.api[name].(deleting := true));
      assert s'.versions == s.versions || s'.versions == s.versions + {s.api[name].(deleting := true)};
    }
  }

  lemma UpdateKeepsMarksEarned(s: State, name: string, next: Volume, s': State)
    requires ApiPlaced(s.api, s.versions) && MarksEarned(s.versions) && DoUpdatePv(s, name, next) == Some(s')
    ensures MarksEarned(s'.versions)
  {
    PutKeepsMarksEarned(s.versions, next);
  }

  lemma NothingElseSaves(cfg: Config, s: State, e: Event, s': State)
    requires Step(cfg, s, e) == Some(s') && !e.Create? && !e.SavePending? && !e.DeletePv? && !e.UpdatePv?
    ensures s'.versions == s.versions
  {
  }

  lemma {:induction false} MarksEarnedAlways(cfg: Config, es: seq<Event>, s: State)
    requires WellFormed(cfg) && Run(cfg, es) == Some(s)
    ensures MarksEarned(s.versions)
  {
    if es != [] {
      var n := |es| - 1;
      var e, before := es[n], Run(cfg, es[..n]).value;
      MarksEarnedAlways(cfg, es[..n], before);
      PlacementAlways(cfg, es[..n], before);
      if e.Create? || e.SavePending? {
        SavesKeepMarksEarned(cfg, before, e, s);
      } else if e.DeletePv? {
        WorkerNeedsDisposable(cfg, before, e.t);
        MarkKeepsMarksEarned(before, e.t, e.reply, s);
      } else if e.UpdatePv? {
        UpdateKeepsMarksEarned(before, e.name, e.next, s);
      } else {
        NothingElseSaves(cfg, before, e, s);
      }
    }
  }

  lemma GoneWasDisposable(cfg: Config, es: seq<Event>, s: State, e: Event, name: string)
    requires WellFormed(cfg) && Run(cfg, es) == Some(s) && name in s.api && Deletes(s, e, name)
    ensures WasDisposable(s.versions, name)
  {
    PlacementAlways(cfg, es, s);
    if e.DeletePv? {
      WorkerNeedsDisposable(cfg, s, e.t);
    } else {
      MarksEarnedAlways(cfg, es, s);
      assert s.api[name] in s.versions && s.api[name].name == name;
    }
  }

  lemma EmptiedWasDisposable(cfg: Config, s: State, t: nat, ok: bool, s': State, u: string)
    requires WellFormed(cfg) && Placement(cfg, s) && DoRemoveDir(cfg, s, t, ok) == Some(s')
    requires u in cfg.plan && DirOf(cfg, u) in s.dirs && DirOf(cfg, u) !in s'.dirs
    ensures WasDisposable(s.versions, Name(cfg, u))
  {
    RemoverOf(cfg, s, t, ok, s', u);
    WorkerNeedsDisposable(cfg, s, t);
  }

  lemma CleanedUpByOwn(cfg: Config, s: State, k: ClaimKey, ok: bool, s': State, u: string)
    requires WellFormed(cfg) && PassesPlaced(cfg, s.passes) && DirsPlaced(cfg, s.dirs) && u in cfg.plan
    requires DoCleanUp(cfg, s, k, ok) == Some(s') && DirOf(cfg, u) in s.dirs && DirOf(cfg, u) !in s'.dirs
    ensures RemovedByCleanUp(cfg, s, CleanUp(k, ok), u)
  {
    CleanUpRemoves(cfg, s, k, ok, s', DirOf(cfg, u));
    PlanDistinct(cfg, u, k.uid);
  }

  /** A PV that had another policy whenever it was Released keeps its object, and its directory from all workers. */
  lemma RetainedVolumeStays(cfg: Config, es: seq<Event>, s: State, e: Event, s': State, u: string)
    requires WellFormed(cfg) && Run(cfg, es) == Some(s) && Step(cfg, s, e) == Some(s') && u in cfg.plan
    requires forall pv | pv in s.versions && pv.name == Name(cfg, u) && pv.phase == Released ::
               pv.policy != Policy.Delete
    ensures Name(cfg, u) in s.api ==> Name(cfg, u) in s'.api
    ensures DirOf(cfg, u) in s.dirs && DirOf(cfg, u) !in s'.dirs ==> RemovedByCleanUp(cfg, s, e, u)
  {
    if Name(cfg, u) in s.api && Name(cfg, u) !in s'.api {
      OnlyDeletionsDelete(cfg, s, e, s', Name(cfg, u));
      GoneWasDisposable(cfg, es, s, e, Name(cfg, u));
    }
    if DirOf(cfg, u) in s.dirs && DirOf(cfg, u) !in s'.dirs {
      RetainedDirectoryStays(cfg, es, s, e, s', u);
    }
  }

  lemma RetainedDirectoryStays(cfg: Config, es: seq<Event>, s: State, e: Event, s': State, u: string)
    requires WellFormed(cfg) && Run(cfg, es) == Some(s) && Step(cfg, s, e) == Some(s') && u in cfg.plan
    requires DirOf(cfg, u) in s.dirs && DirOf(cfg, u) !in s'.dirs && !WasDisposable(s.versions, Name(cfg, u))
    ensures RemovedByCleanUp(cfg, s, e, u)
  {
    PlacementAlways(cfg, es, s);
    OnlyRemovalsRemove(cfg, s, e, s', DirOf(cfg, u));
    if e.CleanUp? {
      CleanedUpByOwn(cfg, s, e.key, e.ok, s', u);
    } else {
      EmptiedWasDisposable(cfg, s, e.t, e.ok, s', u);
    }
  }

  // ---------------------------------------------------------------- removals and live PVs

  /** What keeps a worker from removing the directory of a PV that was saved after its read. */
  predicate Careful(cfg: Config, s: State, u: string)
    requires u in cfg.plan
  {
    || (cfg.kube.atLeast19 && VolumeKeyOf(cfg, u) !in s.told)
    || (cfg.informersCurrent && (!cfg.background || cfg.kube.atLeast19))
  }

  lemma ArmedNotLive(cfg: Config, l: Local, t: nat)
    requires Sound(cfg, l) && IsAt(l, t, AtRemove)
    requires (cfg.kube.atLeast19 && !l.told) || (cfg.informersCurrent && (!cfg.background || cfg.kube.atLeast19))
    ensures !IsLive(l)
  {
    assert Armed(l, t);
  }

  lemma RemoverOf(cfg: Config, s: State, t: nat, ok: bool, s': State, u: string)
    requires WellFormed(cfg) && Placement(cfg, s) && DoRemoveDir(cfg, s, t, ok) == Some(s')
    requires u in cfg.plan && DirOf(cfg, u) in s.dirs && DirOf(cfg, u) !in s'.dirs
    ensures KeyOfOp(s.ops[t]) == VolumeKeyOf(cfg, u)
  {
    var v := WorkerRemoves(cfg, s, t, ok, s', DirOf(cfg, u));
    PlanDistinct(cfg, u, v);
  }

  lemma ApprovedNotLive(cfg: Config, s: State, t: nat, u: string)
    requires SoundFor(cfg, s, u) && Careful(cfg, s, u)
    requires t in s.ops && KeyOfOp(s.ops[t]) == VolumeKeyOf(cfg, u) && s.ops[t].phase.Approved?
    ensures Name(cfg, u) in s.api ==> s.api[Name(cfg, u)].phase == Released
  {
    EndOpView(cfg, s, t, u);
    ArmedNotLive(cfg, View(cfg, s, u), t);
  }

  lemma RemoverNotLive(cfg: Config, s: State, t: nat, ok: bool, s': State, u: string)
    requires WellFormed(cfg) && Placement(cfg, s) && SoundFor(cfg, s, u) && Careful(cfg, s, u)
    requires DoRemoveDir(cfg, s, t, ok) == Some(s') && DirOf(cfg, u) in s.dirs && DirOf(cfg, u) !in s'.dirs
    ensures Name(cfg, u) in s.api ==> s.api[Name(cfg, u)].phase == Released
  {
    RemoverOf(cfg, s, t, ok, s', u);
    ApprovedNotLive(cfg, s, t, u);
  }

  /** Then the PV is Released or gone when a worker removes its directory. */
  lemma RemovalNotLive(cfg: Config, es: seq<Event>, s: State, t: nat, ok: bool, s': State, u: string)
    requires WellFormed(cfg) && Run(cfg, es) == Some(s) && DoRemoveDir(cfg, s, t, ok) == Some(s')
    requires u in cfg.plan && DirOf(cfg, u) in s.dirs && DirOf(cfg, u) !in s'.dirs && Careful(cfg, s, u)
    ensures Name(cfg, u) in s.api ==> s.api[Name(cfg, u)].phase == Released
  {
    PlacementAlways(cfg, es, s);
    SoundAlways(cfg, es, s, u);
    RemoverNotLive(cfg, s, t, ok, s', u);
  }

  lemma CleanUpUnseen(cfg: Config, l: Local)
    requires Sound(cfg, l) && l.pass == AtCleanUp && cfg.informersCurrent
    ensures !l.seen
  {
  }

  /** With current informers no PV was ever saved for a claim that is cleaned up. */
  lemma CleanUpUnsaved(cfg: Config, es: seq<Event>, s: State, u: string)
    requires WellFormed(cfg) && cfg.informersCurrent && Run(cfg, es) == Some(s) && u in cfg.plan
    requires KeyOf(cfg, u) in s.passes && s.passes[KeyOf(cfg, u)].Cleaning?
    ensures forall pv | pv in s.versions :: pv.name != Name(cfg, u)
  {
    SoundAlways(cfg, es, s, u);
    CleanUpUnseen(cfg, View(cfg, s, u));
    assert !Seen(s.versions, Name(cfg, u));
  }
}
