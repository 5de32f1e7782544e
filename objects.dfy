/**
  The objects the controller reads and writes: the NginxStaticSite custom
  resource, the PersistentVolumeClaim holding its static files and the nginx
  Deployment serving them, together with the desired shapes the controller
  builds for a site and the drift patch it applies to an existing Deployment.
 */
module Objects {
  import opened Wrappers

  /** A namespaced name, the key objects are stored and fetched under. */
  datatype ObjectKey = ObjectKey(namespace: string, name: string)

  /** Object metadata: identity and the controlling owner, if any. */
  datatype ObjectMeta = ObjectMeta(namespace: string, name: string, controller: Option<ObjectKey>)
  {
    function Key(): ObjectKey {
      ObjectKey(namespace, name)
    }
  }

  datatype SiteSpec = SiteSpec(
    imageVersion: string,
    storageSize: string,
    replicas: int,
    staticFilePath: string,
    nodeSelector: map<string, string>)

  datatype SiteStatus = SiteStatus(phase: string, readyReplicas: int)

  datatype Site = Site(meta: ObjectMeta, spec: SiteSpec, status: SiteStatus)

  const PHASE_CREATING: string := "Creating"
  const PHASE_RUNNING: string := "Running"

  datatype AccessMode = ReadWriteOnce | ReadOnlyMany | ReadWriteMany | ReadWriteOncePod

  /** The resource name of a claim's storage request. */
  const STORAGE: string := "storage"

  /** A PersistentVolumeClaim; `requests` is None for a nil request map. */
  datatype Pvc = Pvc(meta: ObjectMeta, accessModes: seq<AccessMode>, requests: Option<map<string, nat>>)

  datatype VolumeMount = VolumeMount(name: string, mountPath: string)

  datatype Container = Container(name: string, image: string, volumeMounts: seq<VolumeMount>)

  /** A pod volume; `claimName` is set when it is backed by a claim. */
  datatype Volume = Volume(name: string, claimName: Option<string>)

  /** A Deployment; `replicas` is None for a nil replica pointer. */
  datatype Deployment = Deployment(
    meta: ObjectMeta,
    replicas: Option<int>,
    selector: map<string, string>,
    templateLabels: map<string, string>,
    nodeSelector: map<string, string>,
    containers: seq<Container>,
    volumes: seq<Volume>)

  const VOLUME_NAME: string := "static-content"

  /** The claim of the site stored under `key`: same namespace, the site's name followed by `-pvc`. */
  function PvcKeyFor(key: ObjectKey): (r: ObjectKey)
    ensures r.namespace == key.namespace && |r.name| == |key.name| + 4
    ensures r.name[..|key.name|] == key.name && r.name[|key.name|..] == "-pvc"
  {
    ObjectKey(key.namespace, key.name + "-pvc")
  }

  /** The Deployment of the site stored under `key`: same namespace, the site's name followed by `-nginx`. */
  function DeploymentKeyFor(key: ObjectKey): (r: ObjectKey)
    ensures r.namespace == key.namespace && |r.name| == |key.name| + 6
    ensures r.name[..|key.name|] == key.name && r.name[|key.name|..] == "-nginx"
  {
    ObjectKey(key.namespace, key.name + "-nginx")
  }

  function PvcKey(site: Site): ObjectKey {
    PvcKeyFor(site.meta.Key())
  }

  function DeploymentKey(site: Site): ObjectKey {
    DeploymentKeyFor(site.meta.Key())
  }

  /** The container image: the `nginx` repository, tagged with the site's version. */
  function Image(site: Site): (r: string)
    ensures |r| == 6 + |site.spec.imageVersion|
    ensures r[..6] == "nginx:" && r[6..] == site.spec.imageVersion
  {
    "nginx:" + site.spec.imageVersion
  }

  /** Two sites never share a claim or a Deployment: the child names determine the site. */
  lemma {:induction false} ChildKeysInjective(a: ObjectKey, b: ObjectKey)
    ensures PvcKeyFor(a) == PvcKeyFor(b) ==> a == b
    ensures DeploymentKeyFor(a) == DeploymentKeyFor(b) ==> a == b
  {
    var x, y := a.name, b.name;
    if x + "-pvc" == y + "-pvc" {
      assert x == (x + "-pvc")[..|x|] == (y + "-pvc")[..|y|] == y;
    }
    if x + "-nginx" == y + "-nginx" {
      assert x == (x + "-nginx")[..|x|] == (y + "-nginx")[..|y|] == y;
    }
  }

  /**
    The claim created for an absent one, before its owner is set: named
    after the site, read-write-once, requesting only `desired` storage.
   */
  function NewPvc(site: Site, desired: nat): (r: Pvc)
    ensures r.meta.Key() == PvcKey(site) && r.meta.controller.None?
    ensures r.accessModes == [ReadWriteOnce]
    ensures r.requests.Some? && r.requests.value.Keys == {STORAGE} && StorageRequest(r) == desired
  {
    Pvc(ObjectMeta(site.meta.namespace, site.meta.name + "-pvc", None),
        [ReadWriteOnce],
        Some(map[STORAGE := desired]))
  }

  /** The storage a claim requests; a nil map or a missing entry reads as zero. */
  function StorageRequest(pvc: Pvc): nat {
    if pvc.requests.Some? && STORAGE in pvc.requests.value then pvc.requests.value[STORAGE] else 0
  }

  /** The claim with its storage request set to `desired`. */
  function Resized(pvc: Pvc, desired: nat): (r: Pvc)
    requires pvc.requests.Some?
    ensures StorageRequest(r) == desired
    ensures r.meta == pvc.meta && r.accessModes == pvc.accessModes
    ensures r.requests.Some? && r.requests.value.Keys == pvc.requests.value.Keys + {STORAGE}
    ensures forall k | k in pvc.requests.value && k != STORAGE :: r.requests.value[k] == pvc.requests.value[k]
  {
    pvc.(requests := Some(pvc.requests.value[STORAGE := desired]))
  }

  /**
    The Deployment created for an absent one, before its owner is set: named
    after the site, with nothing to patch, selecting exactly the pods it
    labels, and mounting the site's claim through the volume its one
    container mounts.
   */
  function NewDeployment(site: Site): (r: Deployment)
    ensures r.meta.Key() == DeploymentKey(site) && r.meta.controller.None?
    ensures WellShaped(r) && !Drifted(r, site)
    ensures r.selector == r.templateLabels == map["app" := site.meta.name]
    ensures |r.containers| == 1 && |r.volumes| == 1
    ensures r.containers[0].volumeMounts[0].name == r.volumes[0].name
    ensures r.volumes[0].claimName == Some(PvcKey(site).name)
  {
    Deployment(
      ObjectMeta(site.meta.namespace, site.meta.name + "-nginx", None),
      Some(site.spec.replicas),
      map["app" := site.meta.name],
      map["app" := site.meta.name],
      site.spec.nodeSelector,
      [Container("nginx", Image(site), [VolumeMount(VOLUME_NAME, site.spec.staticFilePath)])],
      [Volume(VOLUME_NAME, Some(site.meta.name + "-pvc"))])
  }

  /** What the drift check dereferences: replicas, a first container and its first mount. */
  predicate WellShaped(d: Deployment) {
    d.replicas.Some? && |d.containers| > 0 && |d.containers[0].volumeMounts| > 0
  }

  function MountPath(d: Deployment): string
    requires WellShaped(d)
  {
    d.containers[0].volumeMounts[0].mountPath
  }

  /** Whether any of the three tracked fields differs from what the site asks for. */
  predicate Drifted(d: Deployment, site: Site)
    requires WellShaped(d)
  {
    d.replicas.value != site.spec.replicas
    || d.containers[0].image != Image(site)
    || MountPath(d) != site.spec.staticFilePath
  }

  /**
    `after` differs from `before` at most in the replica count, the first
    container's image and that container's first mount path.
   */
  predicate SameOutsideTrackedFields(before: Deployment, after: Deployment)
    requires WellShaped(before) && WellShaped(after)
  {
    var c, c' := before.containers[0], after.containers[0];
    after.(replicas := before.replicas, containers := before.containers) == before
    && |after.containers| == |before.containers|
    && (forall i | 1 <= i < |before.containers| :: after.containers[i] == before.containers[i])
    && c'.(image := c.image, volumeMounts := c.volumeMounts) == c
    && |c'.volumeMounts| == |c.volumeMounts|
    && (forall j | 1 <= j < |c.volumeMounts| :: c'.volumeMounts[j] == c.volumeMounts[j])
    && c'.volumeMounts[0].name == c.volumeMounts[0].name
  }

  /** The Deployment with the three tracked fields set to what the site asks for. */
  function Patch(d: Deployment, site: Site): (r: Deployment)
    requires WellShaped(d)
    ensures WellShaped(r) && !Drifted(r, site)
    ensures r.replicas == Some(site.spec.replicas)
    ensures r.containers[0].image == Image(site) && MountPath(r) == site.spec.staticFilePath
    ensures SameOutsideTrackedFields(d, r)
  {
    var c := d.containers[0];
    var m := c.volumeMounts[0].(mountPath := site.spec.staticFilePath);
    d.(replicas := Some(site.spec.replicas),
       containers := d.containers[0 := c.(image := Image(site), volumeMounts := c.volumeMounts[0 := m])])
  }

  /** A patch changes the Deployment exactly when it has drifted. */
  lemma DriftedIffPatchChanges(d: Deployment, site: Site)
    requires WellShaped(d)
    ensures Drifted(d, site) <==> Patch(d, site) != d
  {
    if !Drifted(d, site) {
      var c := d.containers[0];
      assert c.volumeMounts[0 := c.volumeMounts[0]] == c.volumeMounts;
      assert d.containers[0 := c] == d.containers;
    }
  }
}
