/** Which claims the controllers take up, and what they save for them. */
module ClusterOrigins {
  import opened Common
  import opened HostPath
  import opened Cluster
  import opened ClusterSafety

  // ---------------------------------------------------------------- which claims are taken up

  /** The claim asks for this node by name, or was scheduled to it and is left to this provisioner. */
  predicate Accepts(cfg: Config, notes: Annotations, mode: BindingMode, node: string) {
    || NoteIn(notes, ProvisionOnNode) == Some(node)
    || (&& NoteIn(notes, ProvisionOnNode) == None && mode == WaitForFirstConsumer
        && NoteIn(notes, SelectedNode) == Some(node)
        && NoteIn(notes, StorageProvisioner) == Some(cfg.provisionerName))
  }

  lemma ShouldProvisionIff(cfg: Config, s: State, k: ClaimKey)
    requires k.uid in cfg.claims
    ensures ShouldProvision(cfg, s, k) <==> Accepts(cfg, NotesOf(cfg, s, k), cfg.claims[k.uid].mode, k.node)
  {
  }

  lemma OtherEventsBeginNothing(cfg: Config, s: State, e: Event, s': State)
    requires Step(cfg, s, e) == Some(s') && !e.BeginPass?
    ensures s'.passes.Keys <= s.passes.Keys
  {
  }

  lemma BeginPassBeginsIff(cfg: Config, s: State, j: ClaimKey, fits: bool, s': State, k: ClaimKey)
    requires DoBeginPass(cfg, s, j, fits) == Some(s') && k !in s.passes
    ensures k in s'.passes <==> j == k && fits && Accepts(cfg, NotesOf(cfg, s, j), cfg.claims[j.uid].mode, j.node)
    ensures k in s'.passes ==> s'.passes[k] == Checking && k.node in cfg.nodes && ShouldProvision(cfg, s, k)
  {
    ShouldProvisionIff(cfg, s, j);
  }

  /**
   In every run, a pass begins for a claim on a node exactly when the node takes the claim up, its pool fits, and
   the claim's annotations there ask for the node by name, or say that it was scheduled there and is left to this
   provisioner. The node is then the one that the claim names to all nodes.
   */
  lemma PassBeginsIff(cfg: Config, es: seq<Event>, s: State, e: Event, s': State, k: ClaimKey)
    requires WellFormed(cfg) && Run(cfg, es) == Some(s) && Step(cfg, s, e) == Some(s') && k !in s.passes
    ensures k in s'.passes <==>
            && e == BeginPass(k, true) && k.uid in cfg.claims
            && Accepts(cfg, NotesOf(cfg, s, k), cfg.claims[k.uid].mode, k.node)
    ensures k in s'.passes ==> s'.passes[k] == Checking && k.uid in cfg.plan && cfg.plan[k.uid].node == k.node
  {
    if e.BeginPass? {
      BeginPassBeginsIff(cfg, s, e.key, e.fits, s', k);
      if k in s'.passes {
        PlacementAlways(cfg, es, s);
        OnlyTargetQualifies(cfg, s, k);
      }
    } else {
      OtherEventsBeginNothing(cfg, s, e, s');
    }
  }

  /** Taking a claim up on the node it asks for leaves our name in that node's cache, and no other note changes. */
  lemma TakingUpWritesNote(cfg: Config, s: State, k: ClaimKey, fits: bool, s': State, j: ClaimKey, key: AnnotationKey)
    requires DoBeginPass(cfg, s, k, fits) == Some(s') && j.uid in cfg.claims
    ensures NoteIn(NotesOf(cfg, s', j), key) ==
            if j == k && key == StorageProvisioner && NoteIn(NotesOf(cfg, s, k), ProvisionOnNode) == Some(k.node)
            then Some(cfg.provisionerName)
            else NoteIn(NotesOf(cfg, s, j), key)
  {
  }

  // ---------------------------------------------------------------- claims of other provisioners

  /** Annotations of a claim that asks for no node by name and is left to another provisioner, or to none. */
  predicate Foreign(cfg: Config, notes: Annotations) {
    NoteIn(notes, ProvisionOnNode) == None && NoteIn(notes, StorageProvisioner) != Some(cfg.provisionerName)
  }

  ghost predicate NotesForeign(cfg: Config, notes: map<ClaimKey, Annotations>, u: string) {
    forall k | k in notes && k.uid == u :: Foreign(cfg, notes[k])
  }

  ghost predicate NoPasses(passes: map<ClaimKey, Pass>, u: string) {
    forall k | k in passes :: k.uid != u
  }

  ghost predicate NoneOf(pvs: set<Volume>, u: string) {
    forall pv | pv in pvs :: pv.claimRef != Some(u)
  }

  ghost predicate NonePending(pending: map<string, Volume>, u: string) {
    forall name | name in pending :: pending[name].claimRef != Some(u)
  }

  /** Nothing was ever done for the claim. */
  ghost predicate LeftAlone(cfg: Config, s: State, u: string)
    requires u in cfg.plan
  {
    && NotesForeign(cfg, s.notes, u) && NoPasses(s.passes, u)
    && NoneOf(s.versions, u) && NonePending(s.pending, u)
    && DirOf(cfg, u) !in s.dirs
  }

  /** What the informers show of the claim stays foreign. */
  predicate ShowsForeign(cfg: Config, e: Event, u: string) {
    e.SeeClaim? && e.key.uid == u ==> Foreign(cfg, e.annotations)
  }

  lemma BeginPassLeavesAlone(cfg: Config, s: State, k: ClaimKey, fits: bool, s': State, u: string)
    requires u in cfg.plan && u in cfg.claims && Foreign(cfg, cfg.claims[u].annotations) && LeftAlone(cfg, s, u)
    requires DoBeginPass(cfg, s, k, fits) == Some(s')
    ensures LeftAlone(cfg, s', u)
  {
    ShouldProvisionIff(cfg, s, k);
    if k.uid == u {
      assert Foreign(cfg, NotesOf(cfg, s, k));
    }
  }

  lemma ProvisionLeavesAlone(cfg: Config, s: State, k: ClaimKey, capacity: int, s': State, u: string)
    requires WellFormed(cfg) && Placement(cfg, s) && u in cfg.plan && LeftAlone(cfg, s, u)
    requires DoProvision(cfg, s, k, capacity) == Some(s')
    ensures LeftAlone(cfg, s', u)
  {
    assert PassPlaced(cfg, k, s.passes[k]);
    PlanDistinct(cfg, u, k.uid);
    ProvisionKeepsPlacement(cfg, s, k, capacity, s');
  }

  lemma SeeClaimLeavesAlone(cfg: Config, s: State, k: ClaimKey, annotations: Annotations, s': State, u: string)
    requires u in cfg.plan && LeftAlone(cfg, s, u) && DoSeeClaim(cfg, s, k, annotations) == Some(s')
    requires k.uid == u ==> Foreign(cfg, annotations)
    ensures LeftAlone(cfg, s', u)
  {
  }

  lemma CheckLeavesAlone(cfg: Config, s: State, k: ClaimKey, s': State, u: string)
    requires u in cfg.plan && LeftAlone(cfg, s, u)
    requires DoCheckPv(cfg, s, k) == Some(s') || DoAbortPass(s, k) == Some(s')
    ensures LeftAlone(cfg, s', u)
  {
    assert s'.passes.Keys <= s.passes.Keys;
  }

  lemma CleanUpLeavesAlone(cfg: Config, s: State, k: ClaimKey, ok: bool, s': State, u: string)
    requires u in cfg.plan && LeftAlone(cfg, s, u) && DoCleanUp(cfg, s, k, ok) == Some(s')
    ensures LeftAlone(cfg, s', u)
  {
    assert s'.passes.Keys <= s.passes.Keys && s'.pending == s.pending && s'.notes == s.notes;
    assert s'.dirs <= s.dirs && s'.versions == s.versions;
  }

  lemma CreateLeavesAlone(cfg: Config, s: State, k: ClaimKey, answered: bool, s': State, u: string)
    requires PassesPlaced(cfg, s.passes) && u in cfg.plan && LeftAlone(cfg, s, u)
    requires DoCreate(cfg, s, k, answered) == Some(s')
    ensures LeftAlone(cfg, s', u)
  {
    assert PassPlaced(cfg, k, s.passes[k]);
  }

  lemma SavePendingLeavesAlone(cfg: Config, s: State, name: string, s': State, u: string)
    requires u in cfg.plan && LeftAlone(cfg, s, u) && DoSavePending(s, name) == Some(s')
    ensures LeftAlone(cfg, s', u)
  {
  }

  lemma WorkerLeavesAlone(cfg: Config, s: State, t: nat, ok: bool, s': State, u: string)
    requires u in cfg.plan && LeftAlone(cfg, s, u)
    requires DoReadPv(cfg, s, t, ok) == Some(s') || DoRemoveDir(cfg, s, t, ok) == Some(s')
    ensures LeftAlone(cfg, s', u)
  {
    assert SameClaims(s, s') && s'.dirs <= s.dirs;
  }

  lemma DeletePvLeavesAlone(cfg: Config, s: State, t: nat, reply: DeleteReply, s': State, u: string)
    requires ApiPlaced(s.api, s.versions) && u in cfg.plan && LeftAlone(cfg, s, u)
    requires DoDeletePv(s, t, reply) == Some(s')
    ensures LeftAlone(cfg, s', u)
  {
    assert SameClaims(s, s');
  }

  lemma UpdateLeavesAlone(cfg: Config, s: State, name: string, next: Volume, s': State, u: string)
    requires ApiPlaced(s.api, s.versions) && u in cfg.plan && LeftAlone(cfg, s, u)
    requires DoUpdatePv(s, name, next) == Some(s')
    ensures LeftAlone(cfg, s', u)
  {
    assert SameClaims(s, s');
  }

  lemma CrashLeavesAlone(cfg: Config, s: State, node: string, s': State, u: string)
    requires u in cfg.plan && LeftAlone(cfg, s, u) && DoCrash(s, node) == Some(s')
    ensures LeftAlone(cfg, s', u)
  {
  }

  lemma ClaimEventsLeaveAlone(cfg: Config, s: State, e: Event, s': State, u: string)
    requires WellFormed(cfg) && Placement(cfg, s) && u in cfg.plan && u in cfg.claims
    requires Foreign(cfg, cfg.claims[u].annotations) && ShowsForeign(cfg, e, u)
    requires LeftAlone(cfg, s, u) && OfClaim(e) && Step(cfg, s, e) == Some(s')
    ensures LeftAlone(cfg, s', u)
  {
    match e
    case SeeClaim(k, annotations) => SeeClaimLeavesAlone(cfg, s, k, annotations, s', u);
    case BeginPass(k, fits) => BeginPassLeavesAlone(cfg, s, k, fits, s', u);
    case CheckPv(k) => CheckLeavesAlone(cfg, s, k, s', u);
    case AbortPass(k) => CheckLeavesAlone(cfg, s, k, s', u);
    case Provision(k, capacity) => ProvisionLeavesAlone(cfg, s, k, capacity, s', u);
    case Create(k, answered) => CreateLeavesAlone(cfg, s, k, answered, s', u);
    case CleanUp(k, ok) => CleanUpLeavesAlone(cfg, s, k, ok, s', u);
    case SavePending(name) => SavePendingLeavesAlone(cfg, s, name, s', u);
  }

  lemma VolumeEventsLeaveAlone(cfg: Config, s: State, e: Event, s': State, u: string)
    requires ApiPlaced(s.api, s.versions) && u in cfg.plan && LeftAlone(cfg, s, u)
    requires !OfClaim(e) && Step(cfg, s, e) == Some(s')
    ensures LeftAlone(cfg, s', u)
  {
    match e
    case BeginOp(_, _, _) =>
    case ReadPv(t, ok) => WorkerLeavesAlone(cfg, s, t, ok, s', u);
    case RemoveDir(t, ok) => WorkerLeavesAlone(cfg, s, t, ok, s', u);
    case DeletePv(t, reply) => DeletePvLeavesAlone(cfg, s, t, reply, s', u);
    case Forget(_) =>
    case UpdatePv(name, next) => UpdateLeavesAlone(cfg, s, name, next, s', u);
    case Reap(_) =>
    case Crash(node) => CrashLeavesAlone(cfg, s, node, s', u);
  }

  lemma {:induction false} LeftAloneAlways(cfg: Config, es: seq<Event>, s: State, u: string)
    requires WellFormed(cfg) && Run(cfg, es) == Some(s) && u in cfg.plan && u in cfg.claims
    requires Foreign(cfg, cfg.claims[u].annotations) && forall i | 0 <= i < |es| :: ShowsForeign(cfg, es[i], u)
    ensures LeftAlone(cfg, s, u)
  {
    if es != [] {
      var n := |es| - 1;
      var before := Run(cfg, es[..n]).value;
      LeftAloneAlways(cfg, es[..n], before, u);
      PlacementAlways(cfg, es[..n], before);
      assert ShowsForeign(cfg, es[n], u);
      if OfClaim(es[n]) {
        ClaimEventsLeaveAlone(cfg, before, es[n], s, u);
      } else {
        VolumeEventsLeaveAlone(cfg, before, es[n], s, u);
      }
    }
  }

  /** A claim that every informer always shows as another provisioner's never gets a directory or a PV. */
  lemma ForeignClaimLeftAlone(cfg: Config, es: seq<Event>, s: State, u: string)
    requires WellFormed(cfg) && Run(cfg, es) == Some(s) && u in cfg.plan && u in cfg.claims
    requires Foreign(cfg, cfg.claims[u].annotations) && forall i | 0 <= i < |es| :: ShowsForeign(cfg, es[i], u)
    ensures DirOf(cfg, u) !in s.dirs
    ensures forall pv | pv in s.versions :: pv.claimRef != Some(u) && pv.name != Name(cfg, u)
  {
    LeftAloneAlways(cfg, es, s, u);
    PlacementAlways(cfg, es, s);
    forall pv | pv in s.versions
      ensures pv.claimRef != Some(u) && pv.name != Name(cfg, u)
    {
      assert Genuine(cfg, pv);
      PlanDistinct(cfg, u, Uid(pv));
    }
  }

  // ---------------------------------------------------------------- what is saved

  /** The planned PV with the capacity that its claim's node found when it made the directory. */
  ghost predicate MadeIn(cfg: Config, es: seq<Event>, pv: Volume) {
    && pv.claimRef.Some? && Uid(pv) in cfg.plan
    && pv == cfg.plan[Uid(pv)].template.(capacity := pv.capacity)
    && Provision(KeyOf(cfg, Uid(pv)), pv.capacity) in es
  }

  ghost predicate PassesMadeIn(cfg: Config, es: seq<Event>, passes: map<ClaimKey, Pass>) {
    forall k | k in passes && (passes[k].Saving? || passes[k].Cleaning?) :: MadeIn(cfg, es, passes[k].pv)
  }

  ghost predicate PendingMadeIn(cfg: Config, es: seq<Event>, pending: map<string, Volume>) {
    forall name | name in pending :: MadeIn(cfg, es, pending[name])
  }

  lemma StillMadeIn(cfg: Config, es: seq<Event>, s: State)
    requires es != [] && PassesMadeIn(cfg, es[..|es| - 1], s.passes) && PendingMadeIn(cfg, es[..|es| - 1], s.pending)
    ensures PassesMadeIn(cfg, es, s.passes) && PendingMadeIn(cfg, es, s.pending)
  {
    assert forall e | e in es[..|es| - 1] :: e in es;
  }

  lemma ProvisionMadeIn(cfg: Config, es: seq<Event>, s: State, k: ClaimKey, capacity: int, s': State)
    requires WellFormed(cfg) && PassesPlaced(cfg, s.passes) && DoProvision(cfg, s, k, capacity) == Some(s')
    requires PassesMadeIn(cfg, es, s.passes) && PendingMadeIn(cfg, es, s.pending) && Provision(k, capacity) in es
    ensures PassesMadeIn(cfg, es, s'.passes) && PendingMadeIn(cfg, es, s'.pending)
  {
    assert PassPlaced(cfg, k, s.passes[k]);
    MadeIsFresh(cfg, k.uid, capacity);
    assert MadeIn(cfg, es, s'.passes[k].pv);
  }

  lemma CreateMadeIn(cfg: Config, es: seq<Event>, s: State, k: ClaimKey, answered: bool, s': State)
    requires DoCreate(cfg, s, k, answered) == Some(s')
    requires PassesMadeIn(cfg, es, s.passes) && PendingMadeIn(cfg, es, s.pending)
    ensures PassesMadeIn(cfg, es, s'.passes) && PendingMadeIn(cfg, es, s'.pending)
  {
    assert MadeIn(cfg, es, s.passes[k].pv);
  }

  lemma CleanUpMadeIn(cfg: Config, es: seq<Event>, s: State, k: ClaimKey, ok: bool, s': State)
    requires DoCleanUp(cfg, s, k, ok) == Some(s')
    requires PassesMadeIn(cfg, es, s.passes) && PendingMadeIn(cfg, es, s.pending)
    ensures PassesMadeIn(cfg, es, s'.passes) && PendingMadeIn(cfg, es, s'.pending)
  {
    if k in s'.passes {
      SetPassMadeIn(cfg, es, s.passes, k, s'.passes[k]);
    }
  }

  lemma SetPassMadeIn(cfg: Config, es: seq<Event>, passes: map<ClaimKey, Pass>, k: ClaimKey, pass: Pass)
    requires PassesMadeIn(cfg, es, passes) && k in passes && passes[k].Cleaning? && pass.Cleaning?
    requires pass.pv == passes[k].pv
    ensures PassesMadeIn(cfg, es, passes[k := pass])
  {
    assert MadeIn(cfg, es, passes[k].pv);
  }

  lemma BeginPassMadeIn(cfg: Config, es: seq<Event>, s: State, k: ClaimKey, fits: bool, s': State)
    requires DoBeginPass(cfg, s, k, fits) == Some(s')
    requires PassesMadeIn(cfg, es, s.passes) && PendingMadeIn(cfg, es, s.pending)
    ensures PassesMadeIn(cfg, es, s'.passes) && PendingMadeIn(cfg, es, s'.pending)
  {
  }

  lemma CheckMadeIn(cfg: Config, es: seq<Event>, s: State, k: ClaimKey, s': State)
    requires DoCheckPv(cfg, s, k) == Some(s') || DoAbortPass(s, k) == Some(s')
    requires PassesMadeIn(cfg, es, s.passes) && PendingMadeIn(cfg, es, s.pending)
    ensures PassesMadeIn(cfg, es, s'.passes) && PendingMadeIn(cfg, es, s'.pending)
  {
  }

  lemma SavePendingMadeIn(cfg: Config, es: seq<Event>, s: State, name: string, s': State)
    requires DoSavePending(s, name) == Some(s') && PendingMadeIn(cfg, es, s.pending)
    ensures PendingMadeIn(cfg, es, s'.pending)
  {
  }

  lemma CrashMadeIn(cfg: Config, es: seq<Event>, s: State, node: string, s': State)
    requires DoCrash(s, node) == Some(s')
    requires PassesMadeIn(cfg, es, s.passes) && PendingMadeIn(cfg, es, s.pending)
    ensures PassesMadeIn(cfg, es, s'.passes) && PendingMadeIn(cfg, es, s'.pending)
  {
  }

  lemma EventMadeIn(cfg: Config, es: seq<Event>, s: State, e: Event, s': State)
    requires WellFormed(cfg) && PassesPlaced(cfg, s.passes) && Step(cfg, s, e) == Some(s') && e in es
    requires PassesMadeIn(cfg, es, s.passes) && PendingMadeIn(cfg, es, s.pending)
    ensures PassesMadeIn(cfg, es, s'.passes) && PendingMadeIn(cfg, es, s'.pending)
  {
    match e
    case SeeClaim(_, _) =>
    case BeginPass(k, fits) => BeginPassMadeIn(cfg, es, s, k, fits, s');
    case CheckPv(k) => CheckMadeIn(cfg, es, s, k, s');
    case AbortPass(k) => CheckMadeIn(cfg, es, s, k, s');
    case Provision(k, capacity) => ProvisionMadeIn(cfg, es, s, k, capacity, s');
    case Create(k, answered) => CreateMadeIn(cfg, es, s, k, answered, s');
    case CleanUp(k, ok) => CleanUpMadeIn(cfg, es, s, k, ok, s');
    case SavePending(name) => SavePendingMadeIn(cfg, es, s, name, s');
    case Crash(node) => CrashMadeIn(cfg, es, s, node, s');
    case _ => assert SameClaims(s, s');
  }

  lemma {:induction false} MadeInAlways(cfg: Config, es: seq<Event>, s: State)
    requires WellFormed(cfg) && Run(cfg, es) == Some(s)
    ensures PassesMadeIn(cfg, es, s.passes) && PendingMadeIn(cfg, es, s.pending)
  {
    if es != [] {
      var n := |es| - 1;
      var e, before := es[n], Run(cfg, es[..n]).value;
      MadeInAlways(cfg, es[..n], before);
      StillMadeIn(cfg, es, before);
      PlacementAlways(cfg, es[..n], before);
      EventMadeIn(cfg, es, before, e, s);
    }
  }

  /** Every field of the PV that node `p` saves for a claim. */
  predicate SavedFor(p: Provisioner, claim: Claim, provisionerName: string, pv: Volume) {
    && pv.name == "pvc-" + claim.uid && pv.claimRef == Some(claim.uid)
    && pv.annotations == map[Identity := p.identity, ProvisionOnNode := p.nodeName, ProvisionedBy := provisionerName]
    && pv.affinity == p.nodeName
    && pv.path == p.pvDir + "/" + (if p.useNamingPrefix then claim.name + "-pvc-" + claim.uid else "pvc-" + claim.uid)
    && pv.policy == Policy.Delete && pv.className == claim.className && pv.phase == Pending && !pv.deleting
  }

  lemma MadeIsSavedFor(p: Provisioner, claim: Claim, provisionerName: string, capacity: int)
    ensures SavedFor(p, claim, provisionerName, Made(p, claim, provisionerName, capacity))
  {
    assert "-" + ("pvc-" + claim.uid) == "-pvc-" + claim.uid;
    assert claim.name + "-" + ("pvc-" + claim.uid) == claim.name + "-pvc-" + claim.uid;
    var pv := Made(p, claim, provisionerName, capacity);
    assert pv.annotations ==
           map[Identity := p.identity, ProvisionOnNode := p.nodeName, ProvisionedBy := provisionerName];
  }

  lemma DeletionAddsNothing(s: State, t: nat, reply: DeleteReply, s': State)
    requires ApiPlaced(s.api, s.versions) && DoDeletePv(s, t, reply) == Some(s')
    ensures s'.api.Keys <= s.api.Keys
  {
    var name := s.ops[t].pv.name;
    assert name in s.api ==> s.api[name].name == name;
  }

  lemma OnlySavesAdd(cfg: Config, s: State, e: Event, s': State)
    requires ApiPlaced(s.api, s.versions) && Step(cfg, s, e) == Some(s') && !e.Create? && !e.SavePending?
    ensures s'.api.Keys <= s.api.Keys
  {
    if e.DeletePv? {
      DeletionAddsNothing(s, e.t, e.reply, s');
    } else if e.UpdatePv? {
      assert s.api[e.name].name == e.name;
    }
  }

  lemma CreatedAsMade(cfg: Config, es: seq<Event>, s: State, k: ClaimKey, answered: bool, s': State, name: string)
    requires PassesMadeIn(cfg, es, s.passes) && DoCreate(cfg, s, k, answered) == Some(s')
    requires name !in s.api && name in s'.api
    ensures MadeIn(cfg, es, s'.api[name])
  {
    assert MadeIn(cfg, es, s.passes[k].pv);
  }

  lemma SavedLaterAsMade(cfg: Config, es: seq<Event>, s: State, from: string, s': State, name: string)
    requires PendingMadeIn(cfg, es, s.pending) && DoSavePending(s, from) == Some(s')
    requires name !in s.api && name in s'.api
    ensures MadeIn(cfg, es, s'.api[name])
  {
    assert MadeIn(cfg, es, s.pending[from]);
  }

  lemma AppearsAsMade(cfg: Config, es: seq<Event>, s: State, e: Event, s': State, name: string)
    requires WellFormed(cfg) && Run(cfg, es) == Some(s) && Step(cfg, s, e) == Some(s')
    requires name !in s.api && name in s'.api
    ensures MadeIn(cfg, es, s'.api[name])
  {
    PlacementAlways(cfg, es, s);
    MadeInAlways(cfg, es, s);
    if e.Create? {
      CreatedAsMade(cfg, es, s, e.key, e.answered, s', name);
    } else if e.SavePending? {
      SavedLaterAsMade(cfg, es, s, e.name, s', name);
    } else {
      OnlySavesAdd(cfg, s, e, s');
    }
  }

  /**
   Whatever event makes a PV appear in the API server, every field of it is what its claim's target node makes
   for the claim, with the capacity that this node found when it made the directory.
   */
  lemma PvSavedAsMade(cfg: Config, es: seq<Event>, s: State, e: Event, s': State, name: string)
    requires WellFormed(cfg) && Run(cfg, es) == Some(s) && Step(cfg, s, e) == Some(s')
    requires name !in s.api && name in s'.api
    ensures exists u, n | u in cfg.claims && n in cfg.nodes ::
              && Target(cfg.claims[u]) == Some(n)
              && SavedFor(cfg.nodes[n], cfg.claims[u], cfg.provisionerName, s'.api[name])
              && Provision(ClaimKey(n, u), s'.api[name].capacity) in es
  {
    AppearsAsMade(cfg, es, s, e, s', name);
    var pv := s'.api[name];
    var u, n := Uid(pv), cfg.plan[Uid(pv)].node;
    MadeIsFresh(cfg, u, pv.capacity);
    MadeIsSavedFor(cfg.nodes[n], cfg.claims[u], cfg.provisionerName, pv.capacity);
    assert pv == Made(cfg.nodes[n], cfg.claims[u], cfg.provisionerName, pv.capacity);
  }
}
