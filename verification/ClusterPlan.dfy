/**
 The cluster model for given nodes and claims: which slot every claim gets, and where its directory and
 PV can therefore be.
 */
module ClusterPlan {
  import opened Common
  import Paths
  import opened HostPath
  import opened Cluster

  function PlanOf(nodes: map<string, Provisioner>, claims: map<string, Claim>, provisionerName: string)
    : map<string, Slot>
  {
    map u | u in claims && Target(claims[u]).Some? && Target(claims[u]).value in nodes ::
      Slot(Target(claims[u]).value, Made(nodes[Target(claims[u]).value], claims[u], provisionerName, 0))
  }

  /** Claims are keyed by their UIDs; neither UIDs nor claim names hold a slash. */
  ghost predicate ClaimsOk(claims: map<string, Claim>) {
    forall u | u in claims :: claims[u].uid == u && '/' !in u && '/' !in claims[u].name
  }

  ghost predicate NoneEntangled(claims: map<string, Claim>) {
    forall u, v {:trigger Entangled(u, v)} | u in claims && v in claims && u != v :: !Entangled(u, v)
  }

  /** Where some node uses the naming prefix, no two UIDs may be entangled. */
  ghost predicate Planned(cfg: Config) {
    && ClaimsOk(cfg.claims)
    && (forall n | n in cfg.nodes && cfg.nodes[n].useNamingPrefix :: NoneEntangled(cfg.claims))
    && (forall n | n in cfg.nodes :: cfg.nodes[n].nodeName == n && cfg.nodes[n].identity == cfg.provisionerName)
    && cfg.plan == PlanOf(cfg.nodes, cfg.claims, cfg.provisionerName)
    && cfg.kube.atLeast15
    && cfg.steps >= 1
  }

  lemma SlotPlanned(cfg: Config, u: string)
    requires Planned(cfg) && u in cfg.plan
    ensures SlotOk(cfg, u, cfg.plan[u])
    ensures Name(cfg, u) == PvName(u)
    ensures DirOf(cfg, u).path == VolumePath(cfg.nodes[DirOf(cfg, u).node], cfg.claims[u].name, PvName(u))
  {
  }

  lemma PathsApart(cfg: Config, n: string, u: string, v: string)
    requires Planned(cfg) && n in cfg.nodes && u in cfg.claims && v in cfg.claims && u != v
    ensures !Paths.Under(VolumePath(cfg.nodes[n], cfg.claims[u].name, PvName(u)),
                         VolumePath(cfg.nodes[n], cfg.claims[v].name, PvName(v)))
  {
    VolumePathsApart(cfg.nodes[n], cfg.claims[u], cfg.claims[v]);
  }

  lemma SlotsApart(cfg: Config, u: string, v: string)
    requires Planned(cfg) && u in cfg.plan && v in cfg.plan && u != v
    ensures Apart(DirOf(cfg, u), DirOf(cfg, v))
  {
    SlotPlanned(cfg, u);
    SlotPlanned(cfg, v);
    PathsApart(cfg, DirOf(cfg, u).node, u, v);
  }

  lemma AllSlotsOk(cfg: Config)
    requires Planned(cfg)
    ensures forall u | u in cfg.plan :: SlotOk(cfg, u, cfg.plan[u])
    ensures forall u | u in cfg.claims :: cfg.claims[u].uid == u && (PlannedFor(cfg, u) <==> u in cfg.plan)
  {
    forall u | u in cfg.plan
      ensures SlotOk(cfg, u, cfg.plan[u])
    {
      SlotPlanned(cfg, u);
    }
  }

  lemma AllDirsApart(cfg: Config)
    requires Planned(cfg)
    ensures forall u, v | u in cfg.plan && v in cfg.plan && u != v :: Apart(DirOf(cfg, u), DirOf(cfg, v))
  {
    forall u, v | u in cfg.plan && v in cfg.plan && u != v
      ensures Apart(DirOf(cfg, u), DirOf(cfg, v))
    {
      SlotsApart(cfg, u, v);
    }
  }

  /** Real nodes and claims give a configuration to which all results about runs apply. */
  lemma PlanIsWellFormed(cfg: Config)
    requires Planned(cfg)
    ensures WellFormed(cfg)
  {
    AllSlotsOk(cfg);
    AllDirsApart(cfg);
  }

  /** There are such configurations for both stores, with either kind of informers. */
  lemma SomeClusterIsPlanned(kube: KubeVersion, background: bool, steps: nat, current: bool) returns (cfg: Config)
    requires kube.atLeast15 && steps >= 1
    ensures Planned(cfg) && cfg.plan != map[]
    ensures cfg.kube == kube && cfg.background == background && cfg.steps == steps && cfg.informersCurrent == current
  {
    var nodes := map["node" := Provisioner("dir", "name", "node", true)];
    var claims := map["uid" := Claim("uid", "claim", map[ProvisionOnNode := "node"], Immediate, "class")];
    cfg := Config(nodes, claims, PlanOf(nodes, claims, "name"), "name", kube, false, background, steps, current);
    assert Target(claims["uid"]) == Some("node");
    assert "uid" in cfg.plan;
  }

  /**
   Any node may take up any claim at any time, yet a directory that could be the claim's is on its target
   node, whatever the retries and the store.
   */
  lemma DirectoryOnTargetOnly(cfg: Config, es: seq<Event>, s: State, u: string, n: string)
    requires Planned(cfg) && Run(cfg, es) == Some(s) && u in cfg.claims && n in cfg.nodes
    requires Dir(n, VolumePath(cfg.nodes[n], cfg.claims[u].name, PvName(u))) in s.dirs
    ensures Target(cfg.claims[u]) == Some(n)
  {
    PlanIsWellFormed(cfg);
    PlacementAlways(cfg, es, s);
    var v :| v in cfg.plan && DirOf(cfg, v) == Dir(n, VolumePath(cfg.nodes[n], cfg.claims[u].name, PvName(u)));
    SlotPlanned(cfg, v);
    if v != u {
      PathsApart(cfg, n, u, v);
    }
  }

  /** Name, annotations, affinity and path of `pv` all name one claim and its target node. */
  predicate Denotes(cfg: Config, pv: Volume) {
    && pv.claimRef.Some? && pv.claimRef.value in cfg.claims
    && pv.name == PvName(pv.claimRef.value)
    && Target(cfg.claims[pv.claimRef.value]) == Some(pv.affinity)
    && pv.affinity in cfg.nodes
    && NoteIn(pv.annotations, Identity) == Some(cfg.provisionerName)
    && NoteIn(pv.annotations, ProvisionOnNode) == Some(pv.affinity)
    && NoteIn(pv.annotations, ProvisionedBy) == Some(cfg.provisionerName)
    && pv.path == VolumePath(cfg.nodes[pv.affinity], cfg.claims[pv.claimRef.value].name, PvName(pv.claimRef.value))
  }

  lemma GenuineDenotes(cfg: Config, pv: Volume)
    requires Planned(cfg) && Genuine(cfg, pv)
    ensures Denotes(cfg, pv)
  {
    SlotPlanned(cfg, Uid(pv));
  }

  /** Every PV in the API denotes its claim, so a claim has at most one: the names coincide. */
  lemma PvDenotesClaim(cfg: Config, es: seq<Event>, s: State, name: string)
    requires Planned(cfg) && Run(cfg, es) == Some(s) && name in s.api
    ensures Denotes(cfg, s.api[name]) && name == PvName(s.api[name].claimRef.value)
  {
    PlanIsWellFormed(cfg);
    PlacementAlways(cfg, es, s);
    GenuineDenotes(cfg, s.api[name]);
  }
}
