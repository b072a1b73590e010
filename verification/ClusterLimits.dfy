/**
 How far the safety results reach: for each of them a run that breaks it wherever its hypothesis fails,
 and so the exact condition under which it holds in all runs.
 */
module ClusterLimits {
  import opened Common
  import opened HostPath
  import opened Cluster
  import opened ClaimView
  import opened ClusterSafety
  import opened ClusterResults

  // ---------------------------------------------------------------- building runs

  lemma Then(cfg: Config, es: seq<Event>, s: State, e: Event) returns (es': seq<Event>, s': State)
    requires Run(cfg, es) == Some(s) && Step(cfg, s, e).Some?
    ensures Some(s') == Step(cfg, s, e) && Run(cfg, es') == Some(s')
  {
    es', s' := es + [e], Step(cfg, s, e).value;
    assert es'[..|es'| - 1] == es;
  }

  function NewPv(cfg: Config, u: string): Volume
    requires u in cfg.plan
  {
    cfg.plan[u].template
  }

  function ReleasedPv(cfg: Config, u: string): Volume
    requires u in cfg.plan
  {
    NewPv(cfg, u).(phase := Released)
  }

  /** The claim's node can take it up, and makes the planned PV for it. */
  predicate Ready(cfg: Config, u: string) {
    && u in cfg.plan && u in cfg.claims && cfg.plan[u].node in cfg.nodes
    && Target(cfg.claims[u]) == Some(cfg.plan[u].node)
    && Made(cfg.nodes[cfg.plan[u].node], cfg.claims[u], cfg.provisionerName, 0) == NewPv(cfg, u)
    && Name(cfg, u) == PvName(u)
  }

  lemma PlanIsReady(cfg: Config, u: string)
    requires WellFormed(cfg) && u in cfg.plan
    ensures Ready(cfg, u)
  {
    MadeIsFresh(cfg, u, 0);
  }

  /** The PV controller has named the provisioner in the claim, and a pass begins. */
  lemma BeginClaim(cfg: Config, es: seq<Event>, s: State, u: string) returns (es': seq<Event>, s': State)
    requires Ready(cfg, u) && Run(cfg, es) == Some(s) && KeyOf(cfg, u) !in s.passes
    ensures Run(cfg, es') == Some(s')
    ensures s' == s.(notes := s'.notes, passes := s.passes[KeyOf(cfg, u) := Checking])
  {
    var k := KeyOf(cfg, u);
    var notes := cfg.claims[u].annotations[StorageProvisioner := cfg.provisionerName];
    es', s' := Then(cfg, es, s, SeeClaim(k, notes));
    assert s' == s.(notes := s.notes[k := notes]);
    assert ShouldProvision(cfg, s', k);
    es', s' := Then(cfg, es', s', BeginPass(k, true));
  }

  lemma FindNoPv(cfg: Config, es: seq<Event>, s: State, k: ClaimKey) returns (es': seq<Event>, s': State)
    requires Run(cfg, es) == Some(s) && k in s.passes && s.passes[k] == Checking && PvName(k.uid) !in s.api
    requires cfg.informersCurrent ==> PvName(k.uid) !in s.released
    ensures Run(cfg, es') == Some(s') && s' == s.(passes := s.passes[k := Cleared])
  {
    es', s' := Then(cfg, es, s, CheckPv(k));
  }

  /** The pass has found no PV. */
  lemma ClearPass(cfg: Config, es: seq<Event>, s: State, u: string) returns (es': seq<Event>, s': State)
    requires Ready(cfg, u) && Run(cfg, es) == Some(s)
    requires KeyOf(cfg, u) !in s.passes && Name(cfg, u) !in s.api
    requires cfg.informersCurrent ==> Name(cfg, u) !in s.released
    ensures Run(cfg, es') == Some(s')
    ensures s' == s.(notes := s'.notes, passes := s.passes[KeyOf(cfg, u) := Cleared])
  {
    es', s' := BeginClaim(cfg, es, s, u);
    es', s' := FindNoPv(cfg, es', s', KeyOf(cfg, u));
    assert s'.passes == s.passes[KeyOf(cfg, u) := Cleared];
  }

  /** The pass makes the directory. */
  lemma MakeDirectory(cfg: Config, es: seq<Event>, s: State, u: string) returns (es': seq<Event>, s': State)
    requires Ready(cfg, u) && Run(cfg, es) == Some(s)
    requires KeyOf(cfg, u) in s.passes && s.passes[KeyOf(cfg, u)] == Cleared
    ensures Run(cfg, es') == Some(s')
    ensures s' == s.(dirs := s.dirs + {DirOf(cfg, u)},
                     passes := s.passes[KeyOf(cfg, u) := Saving(NewPv(cfg, u), cfg.steps)])
  {
    es', s' := Then(cfg, es, s, Provision(KeyOf(cfg, u), 0));
  }

  /** The server takes the PV, or has one already. */
  lemma SavePv(cfg: Config, es: seq<Event>, s: State, u: string) returns (es': seq<Event>, s': State)
    requires u in cfg.plan && Run(cfg, es) == Some(s)
    requires KeyOf(cfg, u) in s.passes && s.passes[KeyOf(cfg, u)] == Saving(NewPv(cfg, u), cfg.steps)
    ensures Run(cfg, es') == Some(s')
    ensures s' == Save(s.(passes := s.passes - {KeyOf(cfg, u)}), NewPv(cfg, u))
  {
    es', s' := Then(cfg, es, s, Create(KeyOf(cfg, u), true));
  }

  /** What a whole pass adds. */
  function WithLife(cfg: Config, s: State, notes: map<ClaimKey, Annotations>, u: string): State
    requires u in cfg.plan
  {
    Put(s.(notes := notes, dirs := s.dirs + {DirOf(cfg, u)}), NewPv(cfg, u))
  }

  /** A whole pass up to the made directory. */
  lemma Prepared(cfg: Config, es: seq<Event>, s: State, u: string) returns (es': seq<Event>, s': State)
    requires Ready(cfg, u) && Run(cfg, es) == Some(s)
    requires KeyOf(cfg, u) !in s.passes && Name(cfg, u) !in s.api
    requires cfg.informersCurrent ==> Name(cfg, u) !in s.released
    ensures Run(cfg, es') == Some(s')
    ensures s' == s.(notes := s'.notes, dirs := s.dirs + {DirOf(cfg, u)},
                     passes := s.passes[KeyOf(cfg, u) := Saving(NewPv(cfg, u), cfg.steps)])
  {
    es', s' := ClearPass(cfg, es, s, u);
    es', s' := MakeDirectory(cfg, es', s', u);
    assert s'.passes == s.passes[KeyOf(cfg, u) := Saving(NewPv(cfg, u), cfg.steps)];
  }

  lemma Provisioned(cfg: Config, es: seq<Event>, s: State, u: string) returns (es': seq<Event>, s': State)
    requires Ready(cfg, u) && Run(cfg, es) == Some(s)
    requires KeyOf(cfg, u) !in s.passes && Name(cfg, u) !in s.api
    requires cfg.informersCurrent ==> Name(cfg, u) !in s.released
    ensures Run(cfg, es') == Some(s') && s' == WithLife(cfg, s, s'.notes, u)
  {
    es', s' := Prepared(cfg, es, s, u);
    es', s' := SavePv(cfg, es', s', u);
    assert s'.passes == s.passes;
  }

  function WithReleased(cfg: Config, s: State, u: string): State
    requires u in cfg.plan
  {
    Put(s, ReleasedPv(cfg, u)).(released := s.released + {Name(cfg, u)})
  }

  /** The cluster marks the saved PV Released. */
  lemma Release(cfg: Config, es: seq<Event>, s: State, u: string) returns (es': seq<Event>, s': State)
    requires u in cfg.plan && Run(cfg, es) == Some(s)
    requires Name(cfg, u) in s.api && s.api[Name(cfg, u)] == NewPv(cfg, u)
    ensures Run(cfg, es') == Some(s') && s' == WithReleased(cfg, s, u)
  {
    es', s' := Then(cfg, es, s, UpdatePv(Name(cfg, u), ReleasedPv(cfg, u)));
  }

  // ---------------------------------------------------------------- a volume worker

  function OpOf(cfg: Config, u: string, phase: OpPhase): Op
    requires u in cfg.plan
  {
    Op(cfg.plan[u].node, ReleasedPv(cfg, u), phase)
  }

  function WithOp(cfg: Config, s: State, u: string, t: nat, phase: OpPhase): State
    requires u in cfg.plan
  {
    s.(ops := s.ops[t := OpOf(cfg, u, phase)], processing := s.processing + {VolumeKeyOf(cfg, u)})
  }

  lemma ReleasedDeletable(cfg: Config, u: string)
    requires WellFormed(cfg) && u in cfg.plan
    ensures Deletable(cfg, ReleasedPv(cfg, u))
    ensures !cfg.kube.atLeast19 ==> Deletable(cfg, ReleasedPv(cfg, u).(deleting := true))
    ensures DeleteVerdictOf(cfg.nodes[cfg.plan[u].node], ReleasedPv(cfg, u)) == Permitted
  {
    MadeIsFresh(cfg, u, 0);
    OnlyHomeDeletes(cfg, ReleasedPv(cfg, u), cfg.plan[u].node);
  }

  /** The claim's node can take up its Released PV. */
  predicate Workable(cfg: Config, u: string) {
    && u in cfg.plan && cfg.plan[u].node in cfg.nodes
    && Deletable(cfg, ReleasedPv(cfg, u))
    && DeleteVerdictOf(cfg.nodes[cfg.plan[u].node], ReleasedPv(cfg, u)) == Permitted
  }

  lemma PlanIsWorkable(cfg: Config, u: string)
    requires WellFormed(cfg) && u in cfg.plan
    ensures Workable(cfg, u)
  {
    MadeIsFresh(cfg, u, 0);
    ReleasedDeletable(cfg, u);
  }

  lemma BeginWork(cfg: Config, es: seq<Event>, s: State, u: string, t: nat) returns (es': seq<Event>, s': State)
    requires Workable(cfg, u) && Run(cfg, es) == Some(s)
    requires t !in s.ops && VolumeKeyOf(cfg, u) !in s.processing && ReleasedPv(cfg, u) in s.versions
    ensures Run(cfg, es') == Some(s') && s' == WithOp(cfg, s, u, t, Syncing)
  {
    es', s' := Then(cfg, es, s, BeginOp(t, cfg.plan[u].node, ReleasedPv(cfg, u)));
  }

  lemma ReadObject(cfg: Config, es: seq<Event>, s: State, u: string, t: nat) returns (es': seq<Event>, s': State)
    requires u in cfg.plan && Run(cfg, es) == Some(s) && t in s.ops && s.ops[t] == OpOf(cfg, u, Syncing)
    requires Name(cfg, u) in s.api && Deletable(cfg, s.api[Name(cfg, u)])
    ensures Run(cfg, es') == Some(s')
    ensures s' == s.(ops := s.ops[t := OpOf(cfg, u, Approved(s.api[Name(cfg, u)]))])
  {
    es', s' := Then(cfg, es, s, ReadPv(t, true));
  }

  /** A volume worker up to its fresh read. */
  lemma Approve(cfg: Config, es: seq<Event>, s: State, u: string, t: nat) returns (es': seq<Event>, s': State)
    requires Workable(cfg, u) && Run(cfg, es) == Some(s)
    requires t !in s.ops && VolumeKeyOf(cfg, u) !in s.processing && ReleasedPv(cfg, u) in s.versions
    requires Name(cfg, u) in s.api && Deletable(cfg, s.api[Name(cfg, u)])
    ensures Run(cfg, es') == Some(s') && s' == WithOp(cfg, s, u, t, Approved(s.api[Name(cfg, u)]))
  {
    es', s' := BeginWork(cfg, es, s, u, t);
    es', s' := ReadObject(cfg, es', s', u, t);
    assert s.ops[t := OpOf(cfg, u, Syncing)][t := s'.ops[t]] == s.ops[t := s'.ops[t]];
  }

  lemma OwnRemoval(cfg: Config, es: seq<Event>, s: State, u: string)
    requires WellFormed(cfg) && u in cfg.plan && Run(cfg, es) == Some(s)
    ensures RemoveOn(s.dirs, DirOf(cfg, u)) == s.dirs - {DirOf(cfg, u)}
  {
    PlacementAlways(cfg, es, s);
    RemoveOne(cfg, s.dirs, u);
  }

  lemma RemoveOwn(cfg: Config, es: seq<Event>, s: State, u: string, t: nat, read: Volume)
    returns (es': seq<Event>, s': State)
    requires Workable(cfg, u) && Run(cfg, es) == Some(s) && t in s.ops && s.ops[t] == OpOf(cfg, u, Approved(read))
    ensures Run(cfg, es') == Some(s') && Step(cfg, s, RemoveDir(t, true)) == Some(s')
    ensures s' == s.(dirs := RemoveOn(s.dirs, DirOf(cfg, u)), ops := s.ops[t := OpOf(cfg, u, Removed(read))])
  {
    es', s' := Then(cfg, es, s, RemoveDir(t, true));
  }

  /** An approved worker removes the directory. */
  lemma Empty(cfg: Config, es: seq<Event>, s: State, u: string, t: nat, read: Volume)
    returns (es': seq<Event>, s': State)
    requires WellFormed(cfg) && u in cfg.plan && Run(cfg, es) == Some(s)
    requires t in s.ops && s.ops[t] == OpOf(cfg, u, Approved(read))
    ensures Run(cfg, es') == Some(s') && Step(cfg, s, RemoveDir(t, true)) == Some(s')
    ensures s' == s.(dirs := s.dirs - {DirOf(cfg, u)}, ops := s.ops[t := OpOf(cfg, u, Removed(read))])
  {
    PlanIsWorkable(cfg, u);
    OwnRemoval(cfg, es, s, u);
    es', s' := RemoveOwn(cfg, es, s, u, t, read);
  }

  /** A worker that removed the directory deletes the PV. */
  lemma DeleteObject(cfg: Config, es: seq<Event>, s: State, u: string, t: nat, read: Volume)
    returns (es': seq<Event>, s': State)
    requires u in cfg.plan && Run(cfg, es) == Some(s)
    requires t in s.ops && s.ops[t] == OpOf(cfg, u, Removed(read)) && Name(cfg, u) in s.api
    ensures Run(cfg, es') == Some(s') && Step(cfg, s, DeletePv(t, Gone)) == Some(s')
    ensures s' == Bury(s.(ops := s.ops - {t}, processing := s.processing - {VolumeKeyOf(cfg, u)}), Name(cfg, u))
  {
    es', s' := Then(cfg, es, s, DeletePv(t, Gone));
  }

  /** A worker has removed the directory of a Released PV. */
  lemma RemoveVolume(cfg: Config, es: seq<Event>, s: State, u: string, t: nat) returns (es': seq<Event>, s': State)
    requires Workable(cfg, u) && Run(cfg, es) == Some(s)
    requires t !in s.ops && VolumeKeyOf(cfg, u) !in s.processing && ReleasedPv(cfg, u) in s.versions
    requires Name(cfg, u) in s.api && s.api[Name(cfg, u)] == ReleasedPv(cfg, u)
    ensures Run(cfg, es') == Some(s')
    ensures s' == WithOp(cfg, s.(dirs := RemoveOn(s.dirs, DirOf(cfg, u))), u, t, Removed(ReleasedPv(cfg, u)))
  {
    es', s' := Approve(cfg, es, s, u, t);
    es', s' := RemoveOwn(cfg, es', s', u, t, ReleasedPv(cfg, u));
    assert s'.ops == s.ops[t := OpOf(cfg, u, Removed(ReleasedPv(cfg, u)))];
  }

  /** A worker takes a Released PV through to its end. */
  lemma DeleteVolume(cfg: Config, es: seq<Event>, s: State, u: string, t: nat) returns (es': seq<Event>, s': State)
    requires WellFormed(cfg) && u in cfg.plan && Run(cfg, es) == Some(s)
    requires t !in s.ops && VolumeKeyOf(cfg, u) !in s.processing && ReleasedPv(cfg, u) in s.versions
    requires Name(cfg, u) in s.api && s.api[Name(cfg, u)] == ReleasedPv(cfg, u)
    ensures Run(cfg, es') == Some(s')
    ensures s' == Bury(s.(dirs := s.dirs - {DirOf(cfg, u)}), Name(cfg, u))
  {
    PlanIsWorkable(cfg, u);
    OwnRemoval(cfg, es, s, u);
    es', s' := RemoveVolume(cfg, es, s, u, t);
    es', s' := DeleteObject(cfg, es', s', u, t, ReleasedPv(cfg, u));
    assert s'.ops == s.ops && s'.processing == s.processing;
  }

  // ---------------------------------------------------------------- a worker left over from a deleted PV

  /** No PV, no pass, and one worker whose read of an earlier PV still allows it to remove the directory. */
  predicate LeftOver(cfg: Config, s: State, u: string)
    requires u in cfg.plan
  {
    && Name(cfg, u) !in s.api
    && s.ops.Keys == {0} && s.ops[0].phase.Approved? && s.ops[0] == OpOf(cfg, u, s.ops[0].phase)
  }

  /** Nothing else is going on. */
  predicate Calm(s: State) {
    s.passes == map[] && s.pending == map[] && s.leaked == {} && s.cut == {}
  }

  /** The first PV of the claim, saved and Released. */
  lemma FirstLife(cfg: Config, u: string) returns (es: seq<Event>, s: State)
    requires WellFormed(cfg) && u in cfg.plan
    ensures Run(cfg, es) == Some(s)
    ensures s == WithReleased(cfg, WithLife(cfg, Init(), s.notes, u), u)
  {
    PlanIsReady(cfg, u);
    es, s := Provisioned(cfg, [], Init(), u);
    es, s := Release(cfg, es, s, u);
  }

  /** With a stale claim the name gets a PV again, which is Released as well. */
  lemma NextLife(cfg: Config, es: seq<Event>, s: State, u: string) returns (es': seq<Event>, s': State)
    requires WellFormed(cfg) && u in cfg.plan && !cfg.informersCurrent && Run(cfg, es) == Some(s)
    requires KeyOf(cfg, u) !in s.passes && Name(cfg, u) !in s.api
    ensures Run(cfg, es') == Some(s') && s' == WithReleased(cfg, WithLife(cfg, s, s'.notes, u), u)
  {
    PlanIsReady(cfg, u);
    es', s' := Provisioned(cfg, es, s, u);
    es', s' := Release(cfg, es', s', u);
  }

  /** With stale claims one life follows another, each deleted before the next. */
  lemma {:induction false} ManyLives(cfg: Config, u: string, n: nat) returns (es: seq<Event>, s: State)
    requires WellFormed(cfg) && u in cfg.plan && (cfg.informersCurrent ==> n == 0)
    ensures Run(cfg, es) == Some(s) && Calm(s) && s.ops == map[] && s.processing == {} && s.told == map[]
    ensures Name(cfg, u) in s.api && s.api[Name(cfg, u)] == ReleasedPv(cfg, u) && ReleasedPv(cfg, u) in s.versions
    ensures Deaths(s, Name(cfg, u)) == n
  {
    if n == 0 {
      es, s := FirstLife(cfg, u);
    } else {
      es, s := ManyLives(cfg, u, n - 1);
      es, s := DeleteVolume(cfg, es, s, u, 0);
      es, s := NextLife(cfg, es, s, u);
    }
  }

  /**
   The delete notification of the first PV comes while a worker has the second one. It takes the key away
   from that worker, so another worker can delete the second PV before the first worker goes on.
   */
  lemma LeftOverByNotice(cfg: Config, u: string) returns (es: seq<Event>, s: State)
    requires WellFormed(cfg) && u in cfg.plan && !cfg.informersCurrent
    ensures Run(cfg, es) == Some(s) && Calm(s) && LeftOver(cfg, s, u)
  {
    PlanIsWorkable(cfg, u);
    es, s := ManyLives(cfg, u, 1);
    es, s := Approve(cfg, es, s, u, 0);
    es, s := Notice(cfg, es, s, u);
    es, s := DeleteVolume(cfg, es, s, u, 1);
  }

  lemma Notice(cfg: Config, es: seq<Event>, s: State, u: string) returns (es': seq<Event>, s': State)
    requires u in cfg.plan && Run(cfg, es) == Some(s) && s.told == map[] && Deaths(s, Name(cfg, u)) == 1
    ensures Run(cfg, es') == Some(s')
    ensures s' == s.(processing := s.processing - {VolumeKeyOf(cfg, u)}, told := map[VolumeKeyOf(cfg, u) := 1])
  {
    es', s' := Then(cfg, es, s, Forget(VolumeKeyOf(cfg, u)));
  }

  /** The worker only marks the PV, which finalizers still hold. */
  lemma MarkObject(cfg: Config, es: seq<Event>, s: State, u: string, t: nat, read: Volume)
    returns (es': seq<Event>, s': State)
    requires u in cfg.plan && Run(cfg, es) == Some(s)
    requires t in s.ops && s.ops[t] == OpOf(cfg, u, Removed(read))
    requires Name(cfg, u) in s.api && s.api[Name(cfg, u)] == ReleasedPv(cfg, u)
    ensures Run(cfg, es') == Some(s')
    ensures s' == Put(s.(ops := s.ops - {t}, processing := s.processing - {VolumeKeyOf(cfg, u)}),
                      ReleasedPv(cfg, u).(deleting := true))
  {
    es', s' := Then(cfg, es, s, DeletePv(t, Marked));
  }

  lemma ReapObject(cfg: Config, es: seq<Event>, s: State, u: string) returns (es': seq<Event>, s': State)
    requires u in cfg.plan && Run(cfg, es) == Some(s)
    requires Name(cfg, u) in s.api && s.api[Name(cfg, u)].deleting
    ensures Run(cfg, es') == Some(s') && s' == Bury(s, Name(cfg, u))
  {
    es', s' := Then(cfg, es, s, Reap(Name(cfg, u)));
  }

  /** A worker has removed the directory and marked the PV. */
  lemma MarkVolume(cfg: Config, es: seq<Event>, s: State, u: string) returns (es': seq<Event>, s': State)
    requires WellFormed(cfg) && u in cfg.plan && Run(cfg, es) == Some(s)
    requires s.ops == map[] && s.processing == {} && ReleasedPv(cfg, u) in s.versions
    requires Name(cfg, u) in s.api && s.api[Name(cfg, u)] == ReleasedPv(cfg, u)
    ensures Run(cfg, es') == Some(s')
    ensures s' == Put(s.(dirs := s.dirs - {DirOf(cfg, u)}), ReleasedPv(cfg, u).(deleting := true))
  {
    PlanIsWorkable(cfg, u);
    OwnRemoval(cfg, es, s, u);
    es', s' := RemoveVolume(cfg, es, s, u, 1);
    es', s' := MarkObject(cfg, es', s', u, 1, ReleasedPv(cfg, u));
    assert s'.ops == map[] && s'.processing == {};
  }

  /** Before Kubernetes 1.9 a PV that is already marked is approved once more, and then goes away. */
  lemma LeftOverByMark(cfg: Config, es: seq<Event>, s: State, u: string) returns (es': seq<Event>, s': State)
    requires WellFormed(cfg) && u in cfg.plan && !cfg.kube.atLeast19 && Run(cfg, es) == Some(s)
    requires s.ops == map[] && s.processing == {} && ReleasedPv(cfg, u) in s.versions
    requires Name(cfg, u) in s.api && s.api[Name(cfg, u)] == ReleasedPv(cfg, u)
    ensures Run(cfg, es') == Some(s') && LeftOver(cfg, s', u)
    ensures s'.passes == s.passes && s'.pending == s.pending && s'.leaked == s.leaked && s'.told == s.told
    ensures s'.cut == s.cut
  {
    PlanIsWorkable(cfg, u);
    ReleasedDeletable(cfg, u);
    es', s' := MarkVolume(cfg, es, s, u);
    es', s' := Approve(cfg, es', s', u, 0);
    es', s' := ReapObject(cfg, es', s', u);
  }

  /** Runs in which the node's informer may report deletions of the PV, or runs in which it does not. */
  predicate Heard(cfg: Config, s: State, u: string, reports: bool)
    requires u in cfg.plan
  {
    reports || VolumeKeyOf(cfg, u) !in s.told
  }

  lemma StaleLeavesWorker(cfg: Config, u: string, reports: bool) returns (es: seq<Event>, s: State)
    requires WellFormed(cfg) && u in cfg.plan && !cfg.informersCurrent && (reports || !cfg.kube.atLeast19)
    ensures Run(cfg, es) == Some(s) && Calm(s) && LeftOver(cfg, s, u) && Heard(cfg, s, u, reports)
  {
    if reports {
      es, s := LeftOverByNotice(cfg, u);
    } else {
      es, s := FirstLife(cfg, u);
      es, s := LeftOverByMark(cfg, es, s, u);
    }
  }

  // ---------------------------------------------------------------- the queue store

  /** A PV that the queue store keeps, with its directory. */
  lemma LeftPending(cfg: Config, u: string) returns (es: seq<Event>, s: State)
    requires WellFormed(cfg) && u in cfg.plan && cfg.background
    ensures Run(cfg, es) == Some(s)
    ensures s == Init().(notes := s.notes, dirs := {DirOf(cfg, u)}, pending := map[Name(cfg, u) := NewPv(cfg, u)])
  {
    PlanIsReady(cfg, u);
    es, s := Prepared(cfg, [], Init(), u);
    es, s := Defer(cfg, es, s, u);
    assert s.passes == map[] && s.dirs == {DirOf(cfg, u)};
  }

  lemma Defer(cfg: Config, es: seq<Event>, s: State, u: string) returns (es': seq<Event>, s': State)
    requires u in cfg.plan && Run(cfg, es) == Some(s) && cfg.background
    requires KeyOf(cfg, u) in s.passes && s.passes[KeyOf(cfg, u)] == Saving(NewPv(cfg, u), cfg.steps)
    ensures Run(cfg, es') == Some(s')
    ensures s' == s.(passes := s.passes - {KeyOf(cfg, u)}, pending := s.pending[Name(cfg, u) := NewPv(cfg, u)])
  {
    es', s' := Then(cfg, es, s, Create(KeyOf(cfg, u), false));
  }

  lemma SaveInBackground(cfg: Config, es: seq<Event>, s: State, u: string) returns (es': seq<Event>, s': State)
    requires u in cfg.plan && Run(cfg, es) == Some(s)
    requires Name(cfg, u) in s.pending && s.pending[Name(cfg, u)] == NewPv(cfg, u) && Name(cfg, u) !in s.api
    ensures Run(cfg, es') == Some(s')
    ensures s' == Put(s.(pending := s.pending - {Name(cfg, u)}), NewPv(cfg, u))
  {
    es', s' := Then(cfg, es, s, SavePending(Name(cfg, u)));
  }

  /** The claim has a Released PV while a second pass has found none. */
  predicate SecondPass(cfg: Config, s: State, u: string)
    requires u in cfg.plan
  {
    && s.passes == map[KeyOf(cfg, u) := Cleared] && s.pending == map[] && s.leaked == {} && s.cut == {}
    && s.told == map[] && s.deaths == map[]
    && Name(cfg, u) in s.api && s.api[Name(cfg, u)] == ReleasedPv(cfg, u) && ReleasedPv(cfg, u) in s.versions
    && s.ops == map[] && s.processing == {}
  }

  /** A second pass checks before the kept PV is saved in the background, bound and Released. */
  lemma SavedBehindSecondPass(cfg: Config, u: string) returns (es: seq<Event>, s: State)
    requires WellFormed(cfg) && u in cfg.plan && cfg.background
    ensures Run(cfg, es) == Some(s) && SecondPass(cfg, s, u)
  {
    PlanIsReady(cfg, u);
    es, s := LeftPending(cfg, u);
    es, s := ClearPass(cfg, es, s, u);
    es, s := SaveInBackground(cfg, es, s, u);
    es, s := Release(cfg, es, s, u);
    assert s.pending == map[];
  }

  // ---------------------------------------------------------------- live PVs keep their directory

  /** A PV that is not Released while its directory is missing. */
  predicate LostData(cfg: Config, s: State, u: string)
    requires u in cfg.plan
  {
    Name(cfg, u) in s.api && s.api[Name(cfg, u)].phase != Released && DirOf(cfg, u) !in s.dirs
  }

  /** A live PV with its directory, which worker 0 may remove because of what it read earlier. */
  predicate Exposed(cfg: Config, s: State, u: string)
    requires u in cfg.plan
  {
    && Name(cfg, u) in s.api && s.api[Name(cfg, u)] == NewPv(cfg, u) && DirOf(cfg, u) in s.dirs
    && 0 in s.ops && s.ops[0].phase.Approved? && s.ops[0] == OpOf(cfg, u, s.ops[0].phase)
  }

  /** A stale claim gets a PV behind the back of a worker left over from an earlier one. */
  lemma StaleClaimExposes(cfg: Config, u: string, reports: bool) returns (es: seq<Event>, s: State)
    requires WellFormed(cfg) && u in cfg.plan && !cfg.informersCurrent && (reports || !cfg.kube.atLeast19)
    ensures Run(cfg, es) == Some(s) && Exposed(cfg, s, u) && Heard(cfg, s, u, reports)
  {
    PlanIsReady(cfg, u);
    es, s := StaleLeavesWorker(cfg, u, reports);
    es, s := Provisioned(cfg, es, s, u);
  }

  /** Before Kubernetes 1.9 the queue store does the same without a stale claim. */
  lemma QueueStoreExposes(cfg: Config, u: string) returns (es: seq<Event>, s: State)
    requires WellFormed(cfg) && u in cfg.plan && cfg.background && !cfg.kube.atLeast19
    ensures Run(cfg, es) == Some(s) && Exposed(cfg, s, u) && VolumeKeyOf(cfg, u) !in s.told
  {
    PlanIsReady(cfg, u);
    es, s := SavedBehindSecondPass(cfg, u);
    es, s := LeftOverByMark(cfg, es, s, u);
    es, s := MakeDirectory(cfg, es, s, u);
    es, s := SavePv(cfg, es, s, u);
  }

  lemma StaleClaimLosesData(cfg: Config, u: string, reports: bool) returns (es: seq<Event>, s: State)
    requires WellFormed(cfg) && u in cfg.plan && !cfg.informersCurrent && (reports || !cfg.kube.atLeast19)
    ensures Run(cfg, es) == Some(s) && LostData(cfg, s, u) && Heard(cfg, s, u, reports)
  {
    es, s := StaleClaimExposes(cfg, u, reports);
    MadeIsFresh(cfg, u, 0);
    es, s := Empty(cfg, es, s, u, 0, s.ops[0].phase.read);
  }

  /** The second pass saves its PV after the first one's directory, which was also its own, is gone. */
  lemma QueueStoreLosesData(cfg: Config, u: string) returns (es: seq<Event>, s: State)
    requires WellFormed(cfg) && u in cfg.plan && cfg.background
    ensures Run(cfg, es) == Some(s) && LostData(cfg, s, u) && VolumeKeyOf(cfg, u) !in s.told
    ensures LivesOf(s, Name(cfg, u)) == 2
  {
    PlanIsReady(cfg, u);
    es, s := SavedBehindSecondPass(cfg, u);
    es, s := MakeDirectory(cfg, es, s, u);
    es, s := DeleteVolume(cfg, es, s, u, 0);
    es, s := SavePv(cfg, es, s, u);
    MadeIsFresh(cfg, u, 0);
  }

  ghost predicate NeverLoses(cfg: Config, u: string, reports: bool)
    requires u in cfg.plan
  {
    forall es: seq<Event>, s: State | Run(cfg, es) == Some(s) && Heard(cfg, s, u, reports) :: !LostData(cfg, s, u)
  }

  /** The blocking store with current informers; or with 1.9, as long as no deletion is reported. */
  predicate StoreIsSafe(cfg: Config, reports: bool) {
    !cfg.background && (cfg.informersCurrent || (cfg.kube.atLeast19 && !reports))
  }

  lemma ProtectedKeepsData(cfg: Config, es: seq<Event>, s: State, u: string)
    requires WellFormed(cfg) && u in cfg.plan && Run(cfg, es) == Some(s) && Protected(cfg, s, u)
    ensures !LostData(cfg, s, u)
  {
    SoundAlways(cfg, es, s, u);
  }

  /** Exactly when no run loses data, over all runs and over those without reported deletions. */
  lemma NoLossIff(cfg: Config, u: string, reports: bool)
    requires WellFormed(cfg) && u in cfg.plan
    ensures NeverLoses(cfg, u, reports) <==> StoreIsSafe(cfg, reports)
  {
    if StoreIsSafe(cfg, reports) {
      forall es: seq<Event>, s: State | Run(cfg, es) == Some(s) && Heard(cfg, s, u, reports)
        ensures !LostData(cfg, s, u)
      {
        ProtectedKeepsData(cfg, es, s, u);
      }
    } else if cfg.background {
      var es, s := QueueStoreLosesData(cfg, u);
    } else {
      var es, s := StaleClaimLosesData(cfg, u, reports);
    }
  }

  // ---------------------------------------------------------------- PVs go after their directories

  /** The PV goes although it is not Released or its directory is there. */
  predicate GoesEarly(cfg: Config, s: State, s': State, u: string)
    requires u in cfg.plan
  {
    && Name(cfg, u) in s.api && Name(cfg, u) !in s'.api
    && (s.api[Name(cfg, u)].phase != Released || DirOf(cfg, u) in s'.dirs)
  }

  /** A directory without a PV, a pass, a kept PV, a worker or a recorded failed clean-up. */
  predicate Orphaned(cfg: Config, s: State, u: string)
    requires u in cfg.plan
  {
    && DirOf(cfg, u) in s.dirs && Name(cfg, u) !in s.api && KeyOf(cfg, u) !in s.passes
    && Name(cfg, u) !in s.pending && s.ops == map[] && u !in s.leaked
  }

  /** A PV and its directory, and a worker that is about to delete the PV. */
  predicate Doomed(cfg: Config, s: State, u: string)
    requires u in cfg.plan
  {
    && Calm(s) && Name(cfg, u) in s.api && DirOf(cfg, u) in s.dirs
    && s.ops.Keys == {0} && s.ops[0].phase.Removed? && s.ops[0] == OpOf(cfg, u, s.ops[0].phase)
  }

  lemma StaleClaimDooms(cfg: Config, u: string, reports: bool) returns (es: seq<Event>, s: State)
    requires WellFormed(cfg) && u in cfg.plan && !cfg.informersCurrent && (reports || !cfg.kube.atLeast19)
    ensures Run(cfg, es) == Some(s) && Doomed(cfg, s, u) && Heard(cfg, s, u, reports)
  {
    PlanIsReady(cfg, u);
    es, s := StaleLeavesWorker(cfg, u, reports);
    es, s := Empty(cfg, es, s, u, 0, s.ops[0].phase.read);
    es, s := Provisioned(cfg, es, s, u);
  }

  /** The second pass makes the directory again after the worker removed it, and finds the PV still there. */
  lemma QueueStoreDooms(cfg: Config, u: string) returns (es: seq<Event>, s: State)
    requires WellFormed(cfg) && u in cfg.plan && cfg.background
    ensures Run(cfg, es) == Some(s) && Doomed(cfg, s, u) && VolumeKeyOf(cfg, u) !in s.told
  {
    PlanIsReady(cfg, u);
    PlanIsWorkable(cfg, u);
    es, s := SavedBehindSecondPass(cfg, u);
    OwnRemoval(cfg, es, s, u);
    es, s := RemoveVolume(cfg, es, s, u, 0);
    es, s := MakeDirectory(cfg, es, s, u);
    es, s := SavePv(cfg, es, s, u);
    assert s.passes == map[];
  }

  lemma SomeRunDooms(cfg: Config, u: string, reports: bool) returns (es: seq<Event>, s: State)
    requires WellFormed(cfg) && u in cfg.plan && !StoreIsSafe(cfg, reports)
    ensures Run(cfg, es) == Some(s) && Doomed(cfg, s, u) && Heard(cfg, s, u, reports)
  {
    if cfg.background {
      es, s := QueueStoreDooms(cfg, u);
    } else {
      es, s := StaleClaimDooms(cfg, u, reports);
    }
  }

  /** The doomed PV goes early, and leaves its directory behind. */
  lemma DoomedGoesEarly(cfg: Config, es: seq<Event>, s: State, u: string) returns (es': seq<Event>, s': State)
    requires u in cfg.plan && Run(cfg, es) == Some(s) && Doomed(cfg, s, u)
    ensures Step(cfg, s, DeletePv(0, Gone)) == Some(s') && Run(cfg, es') == Some(s') && s'.told == s.told
    ensures GoesEarly(cfg, s, s', u) && Orphaned(cfg, s', u) && s'.cut == {}
  {
    es', s' := DeleteObject(cfg, es, s, u, 0, s.ops[0].phase.read);
    assert s'.ops == map[];
  }

  ghost predicate NeverEarly(cfg: Config, u: string, reports: bool)
    requires u in cfg.plan
  {
    forall es: seq<Event>, s: State, e: Event, s': State
      | Run(cfg, es) == Some(s) && Step(cfg, s, e) == Some(s') && Heard(cfg, s, u, reports) ::
      !GoesEarly(cfg, s, s', u)
  }

  lemma ProtectedNotEarly(cfg: Config, es: seq<Event>, s: State, e: Event, s': State, u: string)
    requires WellFormed(cfg) && u in cfg.plan && Run(cfg, es) == Some(s) && Step(cfg, s, e) == Some(s')
    requires Protected(cfg, s, u)
    ensures !GoesEarly(cfg, s, s', u)
  {
    if Name(cfg, u) in s.api && Name(cfg, u) !in s'.api {
      OnlyDeletionsDelete(cfg, s, e, s', Name(cfg, u));
      OwnPvGoesAfterDirectory(cfg, es, s, e, u);
    }
  }

  /** Exactly when a PV object disappears only after its directory, in all runs. */
  lemma PvGoesAfterDirectoryIff(cfg: Config, u: string, reports: bool)
    requires WellFormed(cfg) && u in cfg.plan
    ensures NeverEarly(cfg, u, reports) <==> StoreIsSafe(cfg, reports)
  {
    if StoreIsSafe(cfg, reports) {
      forall es: seq<Event>, s: State, e: Event, s': State
        | Run(cfg, es) == Some(s) && Step(cfg, s, e) == Some(s') && Heard(cfg, s, u, reports)
        ensures !GoesEarly(cfg, s, s', u)
      {
        ProtectedNotEarly(cfg, es, s, e, s', u);
      }
    } else {
      var es, s := SomeRunDooms(cfg, u, reports);
      var es', s' := DoomedGoesEarly(cfg, es, s, u);
    }
  }

  /** A controller that restarts after it made the directory forgets it, whatever the store and the informers. */
  lemma CrashOrphans(cfg: Config, u: string) returns (es: seq<Event>, s: State)
    requires WellFormed(cfg) && u in cfg.plan
    ensures Run(cfg, es) == Some(s) && Orphaned(cfg, s, u) && s.told == map[]
  {
    PlanIsReady(cfg, u);
    es, s := Prepared(cfg, [], Init(), u);
    es, s := Then(cfg, es, s, Crash(cfg.plan[u].node));
  }

  /** Runs in which a crash may lose an unsaved PV of the claim, or runs in which none does. */
  predicate Survived(s: State, u: string, crashes: bool) {
    crashes || u !in s.cut
  }

  ghost predicate NeverOrphans(cfg: Config, u: string, reports: bool, crashes: bool)
    requires u in cfg.plan
  {
    forall es: seq<Event>, s: State
      | Run(cfg, es) == Some(s) && Heard(cfg, s, u, reports) && Survived(s, u, crashes) ::
      !Orphaned(cfg, s, u)
  }

  /** Exactly when every directory is accounted for, in all runs. */
  lemma DirectoryAccountedForIff(cfg: Config, u: string, reports: bool, crashes: bool)
    requires WellFormed(cfg) && u in cfg.plan
    ensures NeverOrphans(cfg, u, reports, crashes) <==> StoreIsSafe(cfg, reports) && !crashes
  {
    if crashes {
      var es, s := CrashOrphans(cfg, u);
    } else if StoreIsSafe(cfg, reports) {
      forall es: seq<Event>, s: State
        | Run(cfg, es) == Some(s) && Heard(cfg, s, u, reports) && Survived(s, u, crashes)
        ensures !Orphaned(cfg, s, u)
      {
        if DirOf(cfg, u) in s.dirs {
          OwnDirectoryAccountedFor(cfg, es, s, u);
        }
      }
    } else {
      var es, s := SomeRunDooms(cfg, u, reports);
      var es', s' := DoomedGoesEarly(cfg, es, s, u);
    }
  }

  // ---------------------------------------------------------------- removals

  /** A worker removes the directory of a PV that is not Released. */
  predicate RemovesLive(cfg: Config, s: State, s': State, u: string)
    requires u in cfg.plan
  {
    && DirOf(cfg, u) in s.dirs && DirOf(cfg, u) !in s'.dirs
    && Name(cfg, u) in s.api && s.api[Name(cfg, u)].phase != Released
  }

  ghost predicate NeverRemovesLive(cfg: Config, u: string, reports: bool)
    requires u in cfg.plan
  {
    forall es: seq<Event>, s: State, t: nat, ok: bool, s': State
      | Run(cfg, es) == Some(s) && Step(cfg, s, RemoveDir(t, ok)) == Some(s') && Heard(cfg, s, u, reports) ::
      !RemovesLive(cfg, s, s', u)
  }

  /** No reported deletions with 1.9, or current informers with the blocking store or 1.9. */
  predicate WorkersAreSafe(cfg: Config, reports: bool) {
    || (cfg.kube.atLeast19 && !reports)
    || (cfg.informersCurrent && (!cfg.background || cfg.kube.atLeast19))
  }

  lemma SomeRunExposes(cfg: Config, u: string, reports: bool) returns (es: seq<Event>, s: State)
    requires WellFormed(cfg) && u in cfg.plan && !WorkersAreSafe(cfg, reports)
    ensures Run(cfg, es) == Some(s) && Exposed(cfg, s, u) && Heard(cfg, s, u, reports)
  {
    if cfg.informersCurrent {
      es, s := QueueStoreExposes(cfg, u);
    } else {
      es, s := StaleClaimExposes(cfg, u, reports);
    }
  }

  /** Exactly when workers only remove directories of PVs that are Released or gone, in all runs. */
  lemma RemovalNotLiveIff(cfg: Config, u: string, reports: bool)
    requires WellFormed(cfg) && u in cfg.plan
    ensures NeverRemovesLive(cfg, u, reports) <==> WorkersAreSafe(cfg, reports)
  {
    if WorkersAreSafe(cfg, reports) {
      forall es: seq<Event>, s: State, t: nat, ok: bool, s': State
        | Run(cfg, es) == Some(s) && Step(cfg, s, RemoveDir(t, ok)) == Some(s') && Heard(cfg, s, u, reports)
        ensures !RemovesLive(cfg, s, s', u)
      {
        if DirOf(cfg, u) in s.dirs && DirOf(cfg, u) !in s'.dirs {
          RemovalNotLive(cfg, es, s, t, ok, s', u);
        }
      }
    } else {
      var es, s := SomeRunExposes(cfg, u, reports);
      MadeIsFresh(cfg, u, 0);
      var es', s' := Empty(cfg, es, s, u, 0, s.ops[0].phase.read);
      assert RemovesLive(cfg, s, s', u);
    }
  }

  /** The blocking store runs out of attempts. */
  lemma {:induction false} Refuse(cfg: Config, es: seq<Event>, s: State, u: string, left: nat)
    returns (es': seq<Event>, s': State)
    requires u in cfg.plan && !cfg.background && Run(cfg, es) == Some(s)
    requires KeyOf(cfg, u) in s.passes && s.passes[KeyOf(cfg, u)] == Saving(NewPv(cfg, u), left)
    ensures Run(cfg, es') == Some(s')
    ensures s' == s.(passes := s.passes[KeyOf(cfg, u) := Cleaning(NewPv(cfg, u), cfg.steps)])
    decreases left
  {
    var k := KeyOf(cfg, u);
    es', s' := Then(cfg, es, s, Create(k, false));
    if left > 1 {
      es', s' := Refuse(cfg, es', s', u, left - 1);
    }
    assert s'.passes == s.passes[k := Cleaning(NewPv(cfg, u), cfg.steps)];
  }

  /** A stale claim is cleaned up although an earlier PV of it was saved. */
  lemma StaleClaimCleanedUp(cfg: Config, u: string) returns (es: seq<Event>, s: State, s': State)
    requires WellFormed(cfg) && u in cfg.plan && !cfg.background && !cfg.informersCurrent
    ensures Run(cfg, es) == Some(s) && Step(cfg, s, CleanUp(KeyOf(cfg, u), true)) == Some(s')
    ensures DirOf(cfg, u) in s.dirs && DirOf(cfg, u) !in s'.dirs && Seen(s.versions, Name(cfg, u))
  {
    PlanIsReady(cfg, u);
    var k := KeyOf(cfg, u);
    es, s := FirstLife(cfg, u);
    es, s := DeleteVolume(cfg, es, s, u, 0);
    es, s := ClearPass(cfg, es, s, u);
    es, s := MakeDirectory(cfg, es, s, u);
    es, s := Refuse(cfg, es, s, u, cfg.steps);
    assert ReleasedPv(cfg, u) in s.versions && ReleasedPv(cfg, u).name == Name(cfg, u);
    s' := CleanedUp(cfg, es, s, u);
  }

  lemma CleanedUp(cfg: Config, es: seq<Event>, s: State, u: string) returns (s': State)
    requires WellFormed(cfg) && u in cfg.plan && Run(cfg, es) == Some(s)
    requires KeyOf(cfg, u) in s.passes && s.passes[KeyOf(cfg, u)] == Cleaning(NewPv(cfg, u), cfg.steps)
    ensures Step(cfg, s, CleanUp(KeyOf(cfg, u), true)) == Some(s') && DirOf(cfg, u) !in s'.dirs
  {
    MadeIsFresh(cfg, u, 0);
    OnlyHomeDeletes(cfg, NewPv(cfg, u), cfg.plan[u].node);
    PlacementAlways(cfg, es, s);
    RemoveOne(cfg, s.dirs, u);
    s' := Step(cfg, s, CleanUp(KeyOf(cfg, u), true)).value;
  }

  lemma CleansUpUnsaved(cfg: Config, es: seq<Event>, s: State, ok: bool, s': State, u: string)
    requires WellFormed(cfg) && u in cfg.plan && (cfg.background || cfg.informersCurrent) && Run(cfg, es) == Some(s)
    requires DoCleanUp(cfg, s, KeyOf(cfg, u), ok) == Some(s') && DirOf(cfg, u) in s.dirs && DirOf(cfg, u) !in s'.dirs
    ensures !Seen(s.versions, Name(cfg, u))
  {
    PlacementAlways(cfg, es, s);
    CleanUpRemoves(cfg, s, KeyOf(cfg, u), ok, s', DirOf(cfg, u));
    CleanUpUnsaved(cfg, es, s, u);
  }

  ghost predicate CleansUpUnsavedOnly(cfg: Config, u: string)
    requires u in cfg.plan
  {
    forall es: seq<Event>, s: State, ok: bool, s': State
      | Run(cfg, es) == Some(s) && Step(cfg, s, CleanUp(KeyOf(cfg, u), ok)) == Some(s')
        && DirOf(cfg, u) in s.dirs && DirOf(cfg, u) !in s'.dirs ::
      !Seen(s.versions, Name(cfg, u))
  }

  /** Exactly when the clean-up removes directories only of claims for which no PV was ever saved. */
  lemma CleanUpUnsavedIff(cfg: Config, u: string)
    requires WellFormed(cfg) && u in cfg.plan
    ensures CleansUpUnsavedOnly(cfg, u) <==> cfg.background || cfg.informersCurrent
  {
    if cfg.background || cfg.informersCurrent {
      forall es: seq<Event>, s: State, ok: bool, s': State
        | Run(cfg, es) == Some(s) && Step(cfg, s, CleanUp(KeyOf(cfg, u), ok)) == Some(s')
          && DirOf(cfg, u) in s.dirs && DirOf(cfg, u) !in s'.dirs
        ensures !Seen(s.versions, Name(cfg, u))
      {
        CleansUpUnsaved(cfg, es, s, ok, s', u);
      }
    } else {
      var es, s, s' := StaleClaimCleanedUp(cfg, u);
    }
  }

  // ---------------------------------------------------------------- PVs of one name, workers of one key

  ghost predicate NeverMoreLives(cfg: Config, u: string, n: nat)
    requires u in cfg.plan
  {
    forall es: seq<Event>, s: State | Run(cfg, es) == Some(s) :: LivesOf(s, Name(cfg, u)) <= n
  }

  /** Exactly how many PVs a claim can get: one or two by its store, and without bound with stale claims. */
  lemma LivesBoundIff(cfg: Config, u: string, n: nat)
    requires WellFormed(cfg) && u in cfg.plan
    ensures NeverMoreLives(cfg, u, n) <==> cfg.informersCurrent && MaxLives(cfg) <= n
  {
    if !cfg.informersCurrent {
      var es, s := ManyLives(cfg, u, n);
      assert LivesOf(s, Name(cfg, u)) == n + 1;
    } else if MaxLives(cfg) <= n {
      forall es: seq<Event>, s: State | Run(cfg, es) == Some(s)
        ensures LivesOf(s, Name(cfg, u)) <= n
      {
        LivesBounded(cfg, es, s, u);
      }
    } else if cfg.background {
      var es, s := QueueStoreLosesData(cfg, u);
    } else {
      var es, s := ManyLives(cfg, u, 0);
      assert LivesOf(s, Name(cfg, u)) == 1;
    }
  }

  predicate WorksOn(cfg: Config, s: State, u: string, t: nat)
    requires u in cfg.plan
  {
    t in s.ops && KeyOfOp(s.ops[t]) == VolumeKeyOf(cfg, u)
  }

  /** The delete notification comes late and takes the key from a worker that a stale cache started. */
  lemma NoticeAddsWorker(cfg: Config, u: string) returns (es: seq<Event>, s: State)
    requires WellFormed(cfg) && u in cfg.plan
    ensures Run(cfg, es) == Some(s) && WorksOn(cfg, s, u, 0) && WorksOn(cfg, s, u, 1)
  {
    PlanIsWorkable(cfg, u);
    es, s := FirstLife(cfg, u);
    es, s := DeleteVolume(cfg, es, s, u, 0);
    es, s := BeginWork(cfg, es, s, u, 0);
    es, s := Notice(cfg, es, s, u);
    es, s := BeginWork(cfg, es, s, u, 1);
  }

  ghost predicate NeverTwoWorkers(cfg: Config, u: string, reports: bool)
    requires u in cfg.plan
  {
    forall es: seq<Event>, s: State, t: nat, t': nat
      | Run(cfg, es) == Some(s) && Heard(cfg, s, u, reports) && WorksOn(cfg, s, u, t) && WorksOn(cfg, s, u, t') ::
      t == t'
  }

  /** Exactly when a PV has one worker of its node at a time, in all runs. */
  lemma OneWorkerIff(cfg: Config, u: string, reports: bool)
    requires WellFormed(cfg) && u in cfg.plan
    ensures NeverTwoWorkers(cfg, u, reports) <==> !reports
  {
    if reports {
      var es, s := NoticeAddsWorker(cfg, u);
      assert WorksOn(cfg, s, u, 0) && WorksOn(cfg, s, u, 1);
    } else {
      forall es: seq<Event>, s: State, t: nat, t': nat
        | Run(cfg, es) == Some(s) && Heard(cfg, s, u, reports) && WorksOn(cfg, s, u, t) && WorksOn(cfg, s, u, t')
        ensures t == t'
      {
        OneWorkerUntilTold(cfg, es, s, u, t, t');
      }
    }
  }
}
