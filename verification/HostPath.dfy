/**
 The provisioner of cmd/provisioner/hostpath-provisioner.go: which node a claim belongs to,
 the volume object and directory Provision makes for it, and what Delete removes.
 */
module HostPath {
  import opened Common
  import opened Paths

  /**
   Annotation keys. The named ones stand for kubevirt.io/provisionOnNode,
   volume.kubernetes.io/selected-node, volume.beta.kubernetes.io/storage-provisioner,
   hostPathProvisionerIdentity and pv.kubernetes.io/provisioned-by.
   */
  datatype AnnotationKey =
    | ProvisionOnNode
    | SelectedNode
    | StorageProvisioner
    | Identity
    | ProvisionedBy
    | Other(text: string)

  type Annotations = map<AnnotationKey, string>

  function NoteIn(annotations: Annotations, key: AnnotationKey): Option<string> {
    if key in annotations then Some(annotations[key]) else None
  }

  datatype BindingMode = Immediate | WaitForFirstConsumer

  datatype Phase = Pending | Available | Bound | Released | Failed

  datatype Policy = Retain | Recycle | Delete

  datatype Volume = Volume(
    name: string,
    annotations: Annotations,
    claimRef: Option<string>,
    path: string,
    affinity: string,
    capacity: int,
    policy: Policy,
    className: string,
    phase: Phase,
    deleting: bool)

  datatype Claim = Claim(uid: string, name: string, annotations: Annotations, mode: BindingMode, className: string)

  /** The fields of hostPathProvisioner; one value per node. */
  datatype Provisioner = Provisioner(pvDir: string, identity: string, nodeName: string, useNamingPrefix: bool)

  // ---------------------------------------------------------------- node selection

  predicate IsCorrectNode(annotations: Annotations, nodeName: string, key: AnnotationKey) {
    key in annotations && annotations[key] == nodeName
  }

  /** The only node that may provision a claim with these annotations. */
  function TargetNode(annotations: Annotations, mode: BindingMode): Option<string> {
    if ProvisionOnNode in annotations then Some(annotations[ProvisionOnNode])
    else if mode == WaitForFirstConsumer && SelectedNode in annotations then Some(annotations[SelectedNode])
    else None
  }

  /** The annotations after a node named `nodeName` has looked at them. */
  function Noted(annotations: Annotations, nodeName: string, defaultName: string): Annotations {
    if IsCorrectNode(annotations, nodeName, ProvisionOnNode) then annotations[StorageProvisioner := defaultName]
    else annotations
  }

  /** A claim as the informer caches it: every reader shares the annotation map. */
  class ClaimObject {
    var annotations: Annotations

    constructor (annotations: Annotations)
      ensures this.annotations == annotations
    {
      this.annotations := annotations;
    }
  }

  /**
   Answers whether this node is the claim's target. It writes to the shared annotation map,
   but never to an annotation that decides the target, so the answers of all nodes stay consistent.
   */
  method IsCorrectNodeByBindingMode(claim: ClaimObject, nodeName: string, mode: BindingMode, defaultName: string)
    returns (correct: bool)
    modifies claim
    ensures correct <==> TargetNode(old(claim.annotations), mode) == Some(nodeName)
    ensures correct <==>
            || NoteIn(old(claim.annotations), ProvisionOnNode) == Some(nodeName)
            || (NoteIn(old(claim.annotations), ProvisionOnNode) == None && mode == WaitForFirstConsumer
                && NoteIn(old(claim.annotations), SelectedNode) == Some(nodeName))
    ensures TargetNode(claim.annotations, mode) == TargetNode(old(claim.annotations), mode)
    ensures forall key | key != StorageProvisioner ::
              NoteIn(claim.annotations, key) == NoteIn(old(claim.annotations), key)
    ensures claim.annotations == Noted(old(claim.annotations), nodeName, defaultName)
  {
    if ProvisionOnNode in claim.annotations {
      if IsCorrectNode(claim.annotations, nodeName, ProvisionOnNode) {
        claim.annotations := claim.annotations[StorageProvisioner := defaultName];
        return true;
      }
      return false;
    } else if mode == WaitForFirstConsumer {
      return IsCorrectNode(claim.annotations, nodeName, SelectedNode);
    }
    return false;
  }

  // ---------------------------------------------------------------- names and paths

  /** getProvisionedVolumeNameForClaim */
  function PvName(uid: string): string {
    "pvc-" + uid
  }

  /** The directory name below pvDir. */
  function DirName(p: Provisioner, claimName: string, pvName: string): string {
    if p.useNamingPrefix then claimName + "-" + pvName else pvName
  }

  function VolumePath(p: Provisioner, claimName: string, pvName: string): string {
    Join(p.pvDir, DirName(p, claimName, pvName))
  }

  lemma PvNameInjective(a: string, b: string)
    requires PvName(a) == PvName(b)
    ensures a == b
  {
    assert PvName(a)[4..] == a;
    assert PvName(b)[4..] == b;
  }

  /** What a directory name ends with under the naming prefix. */
  function Tail(uid: string): string {
    "-" + PvName(uid)
  }

  predicate EndsWith(s: string, t: string) {
    |t| <= |s| && s[|s| - |t|..] == t
  }

  /** One tail ends with the other, as for the UIDs "b" and "a-pvc-b". */
  predicate Entangled(u: string, v: string) {
    EndsWith(Tail(u), Tail(v)) || EndsWith(Tail(v), Tail(u))
  }

  lemma SameNameEntangles(a: string, u: string, b: string, v: string)
    requires a + Tail(u) == b + Tail(v) && |u| <= |v|
    ensures EndsWith(Tail(v), Tail(u))
  {
    var d := a + Tail(u);
    assert d[|d| - |Tail(u)|..] == Tail(u);
    assert d[|d| - |Tail(v)|..] == Tail(v);
    assert Tail(v)[|Tail(v)| - |Tail(u)|..] == d[|d| - |Tail(u)|..];
  }

  /** Entangled UIDs collide under the names "n" and "n" with the start of the longer tail. */
  lemma EntangledCollide(p: Provisioner, u: string, v: string)
    requires p.useNamingPrefix && '/' !in u && '/' !in v && EndsWith(Tail(v), Tail(u))
    ensures exists a, b | IsComponent(a) && IsComponent(b) ::
              VolumePath(p, a, PvName(u)) == VolumePath(p, b, PvName(v))
  {
    var start := Tail(v)[..|Tail(v)| - |Tail(u)|];
    var a, b := "n" + start, "n";
    assert a + Tail(u) == b + Tail(v);
    assert a + "-" + PvName(u) == a + Tail(u) && b + "-" + PvName(v) == b + Tail(v);
    assert '/' !in Tail(v);
    assert IsComponent(a) && IsComponent(b);
    assert VolumePath(p, a, PvName(u)) == VolumePath(p, b, PvName(v));
  }

  /** Under the naming prefix two UIDs share a directory for some claim names exactly when they are entangled. */
  lemma NamingPrefixCollidesIff(p: Provisioner, u: string, v: string)
    requires p.useNamingPrefix && '/' !in u && '/' !in v
    ensures (exists a, b | IsComponent(a) && IsComponent(b) ::
               VolumePath(p, a, PvName(u)) == VolumePath(p, b, PvName(v))) <==> Entangled(u, v)
  {
    if a, b :| IsComponent(a) && IsComponent(b) && VolumePath(p, a, PvName(u)) == VolumePath(p, b, PvName(v)) {
      NamesEntangle(p, a, u, b, v);
    }
    if EndsWith(Tail(v), Tail(u)) {
      EntangledCollide(p, u, v);
    } else if EndsWith(Tail(u), Tail(v)) {
      EntangledCollide(p, v, u);
      var b, a :| IsComponent(b) && IsComponent(a) && VolumePath(p, b, PvName(v)) == VolumePath(p, a, PvName(u));
      assert VolumePath(p, a, PvName(u)) == VolumePath(p, b, PvName(v));
    }
  }

  lemma NamesEntangle(p: Provisioner, a: string, u: string, b: string, v: string)
    requires p.useNamingPrefix && VolumePath(p, a, PvName(u)) == VolumePath(p, b, PvName(v))
    ensures Entangled(u, v)
  {
    JoinInjective(p.pvDir, DirName(p, a, PvName(u)), DirName(p, b, PvName(v)));
    assert a + "-" + PvName(u) == a + Tail(u) && b + "-" + PvName(v) == b + Tail(v);
    if |u| <= |v| {
      SameNameEntangles(a, u, b, v);
    } else {
      SameNameEntangles(b, v, a, u);
    }
  }

  /** UIDs of one length, as Kubernetes gives them, are never entangled. */
  lemma OneLengthNotEntangled(u: string, v: string)
    requires |u| == |v| && u != v
    ensures !Entangled(u, v)
  {
    assert Tail(u)[5..] == u && Tail(v)[5..] == v;
    assert Tail(u)[0..] == Tail(u) && Tail(v)[0..] == Tail(v);
  }

  /**
   Claims with different UIDs get different directories, none inside another, so removing one leaves
   all others alone. With the naming prefix this needs UIDs that are not entangled.
   */
  lemma VolumePathsApart(p: Provisioner, a: Claim, b: Claim)
    requires a.uid != b.uid
    requires '/' !in a.uid && '/' !in b.uid && '/' !in a.name && '/' !in b.name
    requires p.useNamingPrefix ==> !Entangled(a.uid, b.uid)
    ensures !Under(VolumePath(p, a.name, PvName(a.uid)), VolumePath(p, b.name, PvName(b.uid)))
  {
    var na, nb := DirName(p, a.name, PvName(a.uid)), DirName(p, b.name, PvName(b.uid));
    if na == nb {
      if p.useNamingPrefix {
        NamesEntangle(p, a.name, a.uid, b.name, b.uid);
      } else {
        PvNameInjective(a.uid, b.uid);
      }
    }
    SiblingsApart(p.pvDir, na, nb);
  }

  // ---------------------------------------------------------------- Provision and Delete

  /** The object Provision returns. */
  function NewVolume(p: Provisioner, pvName: string, claimName: string, capacity: int): Volume {
    Volume(pvName, map[Identity := p.identity, ProvisionOnNode := p.nodeName], None,
           VolumePath(p, claimName, pvName), p.nodeName, capacity, Delete, "", Pending, false)
  }

  /** What provisionClaimOperation sets on that object before saving it (Kubernetes 1.6 and later). */
  function Claimed(pv: Volume, claim: Claim, provisionerName: string): Volume {
    pv.(claimRef := Some(claim.uid),
        annotations := pv.annotations[ProvisionedBy := provisionerName],
        className := claim.className)
  }

  datatype DeleteVerdict = NoIdentity | IgnoredIdentity | IgnoredNode | Permitted

  /** The guards of Delete, in order; everything but Permitted leaves the disk alone. */
  function DeleteVerdictOf(p: Provisioner, pv: Volume): DeleteVerdict {
    if Identity !in pv.annotations then NoIdentity
    else if pv.annotations[Identity] != p.identity then IgnoredIdentity
    else if !IsCorrectNode(pv.annotations, p.nodeName, ProvisionOnNode) then IgnoredNode
    else Permitted
  }

  /** Which PVs Delete touches and what it answers to the others, by their annotations. */
  lemma DeleteVerdictIff(p: Provisioner, pv: Volume)
    ensures DeleteVerdictOf(p, pv) == Permitted <==>
            && NoteIn(pv.annotations, Identity) == Some(p.identity)
            && NoteIn(pv.annotations, ProvisionOnNode) == Some(p.nodeName)
    ensures DeleteVerdictOf(p, pv) == NoIdentity <==> NoteIn(pv.annotations, Identity) == None
    ensures DeleteVerdictOf(p, pv) == IgnoredIdentity <==>
            NoteIn(pv.annotations, Identity).Some? && NoteIn(pv.annotations, Identity).value != p.identity
  {
  }

  /** os.RemoveAll on a set of paths. */
  function RemoveAll(paths: set<string>, root: string): set<string> {
    set path | path in paths && !Under(path, root)
  }

  /** One node's provisioner with the paths below its pvDir. */
  class ProvisionerObject {
    const config: Provisioner
    var paths: set<string>

    constructor (config: Provisioner)
      ensures this.config == config && paths == {}
    {
      this.config := config;
      paths := {};
    }

    /** `capacity` is None when statfs fails; `mkdirOk` is the answer of os.MkdirAll. */
    method Provision(pvName: string, claimName: string, capacity: Option<int>, mkdirOk: bool)
      returns (r: Result<Volume>)
      modifies this`paths
      ensures r.Ok? <==> capacity.Some? && mkdirOk
      ensures r.Ok? ==> r.value == NewVolume(config, pvName, claimName, capacity.value)
      ensures r.Ok? ==> r.value.path in paths
      ensures paths == if r.Ok? then old(paths) + {r.value.path} else old(paths)
    {
      var path := Join(config.pvDir, pvName);
      if config.useNamingPrefix {
        path := Join(config.pvDir, claimName + "-" + pvName);
      }
      if capacity.Some? {
        if !mkdirOk {
          return Err;
        }
        paths := paths + {path};
        return Ok(Volume(pvName, map[Identity := config.identity, ProvisionOnNode := config.nodeName], None,
                         path, config.nodeName, capacity.value, Policy.Delete, "", Pending, false));
      }
      return Err;
    }

    /** `removeOk` is the answer of os.RemoveAll; a failed one may still have removed part of the tree. */
    method Delete(pv: Volume, removeOk: bool, kept: set<string>) returns (verdict: DeleteVerdict, ok: bool)
      requires RemoveAll(paths, pv.path) <= kept <= paths
      modifies this`paths
      ensures verdict == DeleteVerdictOf(config, pv)
      ensures paths != old(paths) ==>
                && NoteIn(pv.annotations, Identity) == Some(config.identity)
                && NoteIn(pv.annotations, ProvisionOnNode) == Some(config.nodeName)
      ensures ok <==> verdict == Permitted && removeOk
      ensures verdict != Permitted ==> paths == old(paths)
      ensures ok ==> paths == RemoveAll(old(paths), pv.path)
      ensures verdict == Permitted && !ok ==> paths == kept
    {
      if Identity !in pv.annotations {
        return NoIdentity, false;
      }
      if pv.annotations[Identity] != config.identity {
        return IgnoredIdentity, false;
      }
      if !IsCorrectNode(pv.annotations, config.nodeName, ProvisionOnNode) {
        return IgnoredNode, false;
      }
      if !removeOk {
        paths := kept;
        return Permitted, false;
      }
      paths := set path | path in paths && !Under(path, pv.path);
      return Permitted, true;
    }
  }

  /**
   The saved object of a claim passes every guard of Delete on its own node and on no other, and
   Delete then undoes Provision and all later writes below the directory, and nothing else.
   */
  lemma ProvisionDeleteRoundTrip(p: Provisioner, claim: Claim, capacity: int, provisionerName: string,
                                 before: set<string>, written: set<string>, other: Provisioner)
    requires forall path | path in before :: !Under(path, VolumePath(p, claim.name, PvName(claim.uid)))
    requires forall path | path in written :: Under(path, VolumePath(p, claim.name, PvName(claim.uid)))
    requires other.identity == p.identity && other.nodeName != p.nodeName
    ensures var pv := Claimed(NewVolume(p, PvName(claim.uid), claim.name, capacity), claim, provisionerName);
            && DeleteVerdictOf(p, pv) == Permitted
            && DeleteVerdictOf(other, pv) == IgnoredNode
            && RemoveAll(before + {pv.path} + written, pv.path) == before
  {
    var pv := Claimed(NewVolume(p, PvName(claim.uid), claim.name, capacity), claim, provisionerName);
    var after := RemoveAll(before + {pv.path} + written, pv.path);
    forall path
      ensures path in after <==> path in before
    {
    }
  }

  // ---------------------------------------------------------------- shouldDelete

  datatype KubeVersion = KubeVersion(atLeast15: bool, atLeast19: bool)

  /** shouldDelete of the controller, for a provisioner without a DeletionGuard. */
  predicate ShouldDelete(kube: KubeVersion, addFinalizer: bool, hasFinalizer: bool, provisionerName: string, pv: Volume)
  {
    if kube.atLeast19 && addFinalizer && !hasFinalizer && pv.deleting then false
    else if kube.atLeast19 && pv.deleting then false
    else if kube.atLeast15 && pv.phase != Released then false
    else if !kube.atLeast15 && pv.phase != Released && pv.phase != Failed then false
    else if pv.policy != Policy.Delete then false
    else ProvisionedBy in pv.annotations && pv.annotations[ProvisionedBy] == provisionerName
  }

  /** From 1.5 on Released, before also Failed; from 1.9 on not yet marked; to be deleted, and made by us. */
  lemma ShouldDeleteIff(kube: KubeVersion, addFinalizer: bool, hasFinalizer: bool, provisionerName: string, pv: Volume)
    ensures ShouldDelete(kube, addFinalizer, hasFinalizer, provisionerName, pv) <==>
            && (pv.phase == Released || (pv.phase == Phase.Failed && !kube.atLeast15))
            && !(kube.atLeast19 && pv.deleting)
            && pv.policy == Policy.Delete
            && NoteIn(pv.annotations, ProvisionedBy) == Some(provisionerName)
  {
  }
}
