/**
  The reconcile step of the NginxStaticSite controller.

  `ReconcileSpec` says, as a function of the store's contents, the injected
  faults and the scheme, what one reconciliation does: the store it leaves,
  the calls it issues in order and the outcome it returns. The imperative
  `Reconciler.Reconcile` follows the controller's own statement order and is
  proved to do exactly that. The properties of reconciliation are proved
  about `ReconcileSpec` in module ControllerProperties.
 */
module Controller {
  import opened Wrappers
  import opened Quantity
  import opened Objects
  import opened Store

  /** The runtime scheme: whether it knows the site's kind, which owner references need. */
  datatype Scheme = Scheme(registersSite: bool)

  /**
    Marks `owner` as the controller of an object with metadata `meta`; fails
    when the scheme cannot name the owner's kind.
   */
  function SetControllerReference(owner: Site, meta: ObjectMeta, scheme: Scheme): (r: Option<ObjectMeta>)
    ensures r.Some? <==> scheme.registersSite
    ensures r.Some? ==> r.value.Key() == meta.Key() && r.value.controller == Some(owner.meta.Key())
  {
    if scheme.registersSite then Some(meta.(controller := Some(owner.meta.Key()))) else None
  }

  /** What Reconcile returns: the requeue result is always empty, so only the error is kept. */
  datatype Outcome = Done | Failed(error: StoreError)

  /** One dependent's synchronisation: its kind's objects afterwards, the calls made, the error returned. */
  datatype Step<T> = Step(objects: map<ObjectKey, T>, calls: seq<Call>, err: Option<StoreError>)

  /** A whole reconciliation: the store afterwards, the calls made in order, the outcome. */
  datatype Run = Run(state: State, calls: seq<Call>, outcome: Outcome)

  function SiteRef(req: ObjectKey): Ref {
    Ref(SiteKind, req)
  }

  function PvcRef(site: Site): Ref {
    Ref(PvcKind, PvcKey(site))
  }

  function DeploymentRef(site: Site): Ref {
    Ref(DeploymentKind, DeploymentKey(site))
  }

  /** The site with its status phase set to `phase` and nothing else changed. */
  function WithPhase(site: Site, phase: string): (r: Site)
    ensures r.status.phase == phase && r.status.readyReplicas == site.status.readyReplicas
    ensures r.meta == site.meta && r.spec == site.spec
  {
    site.(status := site.status.(phase := phase))
  }

  /** The status written on success: Running, with the desired replica count copied as ready. */
  function RunningStatus(site: Site): (s: SiteStatus)
    ensures s.phase == PHASE_RUNNING && s.readyReplicas == site.spec.replicas
  {
    site.status.(phase := PHASE_RUNNING, readyReplicas := site.spec.replicas)
  }

  /** The claim step does not write to a nil request map. */
  predicate PvcSafe(pvcs: map<ObjectKey, Pvc>, f: Faults, site: Site) {
    var got := Fetch(pvcs, f, PvcRef(site));
    got.Ok? && got.value.requests.None? ==> ResourceMustParse(site.spec.storageSize) == 0
  }

  /** The Deployment step does not dereference a nil replica count, container or mount. */
  predicate DeploymentSafe(deployments: map<ObjectKey, Deployment>, f: Faults, site: Site) {
    var got := Fetch(deployments, f, DeploymentRef(site));
    got.Ok? ==> WellShaped(got.value)
  }

  /** The claim step: create an absent claim, or grow an existing one's request. */
  function PvcStep(pvcs: map<ObjectKey, Pvc>, f: Faults, scheme: Scheme, site: Site): (r: Step<Pvc>)
    requires PvcSafe(pvcs, f, site)
    ensures |r.calls| > 0 && r.calls[0] == Get(PvcRef(site))
    ensures r.err.Some? ==> r.err.value.ref == PvcRef(site)
    ensures r.err.None? && PvcKey(site) in r.objects ==>
      ResourceMustParse(site.spec.storageSize) <= StorageRequest(r.objects[PvcKey(site)])
    ensures r.err.None? && PvcKey(site) !in r.objects ==> !scheme.registersSite
  {
    var ref := PvcRef(site);
    var desired := ResourceMustParse(site.spec.storageSize);
    var got := Fetch(pvcs, f, ref);
    if got.Err? && got.error.NotFound? then
      var created := NewPvc(site, desired);
      var owned := SetControllerReference(site, created.meta, scheme);
      if owned.None? then Step(pvcs, [Get(ref)], None)
      else
        var w := Insert(pvcs, f, ref, created.(meta := owned.value));
        Step(w.objects, [Get(ref), Create(ref)], w.err)
    else if got.Ok? then
      if desired > StorageRequest(got.value) then
        var w := Replace(pvcs, f, ref, Resized(got.value, desired));
        Step(w.objects, [Get(ref), Update(ref)], w.err)
      else Step(pvcs, [Get(ref)], None)
    else Step(pvcs, [Get(ref)], Some(got.error))
  }

  /** The Deployment step: create an absent Deployment, or patch the drifted fields of an existing one. */
  function DeploymentStep(deployments: map<ObjectKey, Deployment>, f: Faults, scheme: Scheme, site: Site): (r: Step<Deployment>)
    requires DeploymentSafe(deployments, f, site)
    ensures |r.calls| > 0 && r.calls[0] == Get(DeploymentRef(site))
    ensures r.err.Some? ==> r.err.value.ref == DeploymentRef(site)
    ensures r.err.None? && DeploymentKey(site) in r.objects ==>
      WellShaped(r.objects[DeploymentKey(site)]) && !Drifted(r.objects[DeploymentKey(site)], site)
    ensures r.err.None? && DeploymentKey(site) !in r.objects ==> !scheme.registersSite
  {
    var ref := DeploymentRef(site);
    var got := Fetch(deployments, f, ref);
    if got.Err? && got.error.NotFound? then
      var created := NewDeployment(site);
      var owned := SetControllerReference(site, created.meta, scheme);
      if owned.None? then Step(deployments, [Get(ref)], None)
      else
        var w := Insert(deployments, f, ref, created.(meta := owned.value));
        Step(w.objects, [Get(ref), Create(ref)], w.err)
    else if got.Ok? then
      if Drifted(got.value, site) then
        var w := Replace(deployments, f, ref, Patch(got.value, site));
        Step(w.objects, [Get(ref), Update(ref)], w.err)
      else Step(deployments, [Get(ref)], None)
    else Step(deployments, [Get(ref)], Some(got.error))
  }

  /** The site is fetched, so the claim step runs. */
  predicate ReachesPvc(w: State, f: Faults, req: ObjectKey) {
    SiteRef(req) !in f.get && req in w.sites
  }

  /** Neither dependent step panics: the Deployment one only matters once the claim step succeeds. */
  predicate DependentsSafe(w: State, f: Faults, scheme: Scheme, site: Site) {
    PvcSafe(w.pvcs, f, site)
    && (PvcStep(w.pvcs, f, scheme, site).err.None? ==> DeploymentSafe(w.deployments, f, site))
  }

  /**
    What the controller assumes without checking, on the paths where it
    relies on it: the claim and Deployment steps do not panic.
   */
  predicate SafeToReconcile(w: State, f: Faults, scheme: Scheme, req: ObjectKey) {
    ReachesPvc(w, f, req) ==> DependentsSafe(w, f, scheme, WithPhase(w.sites[req], PHASE_CREATING))
  }

  /**
    The unchecked accesses are the only demands: a site that is not fetched
    asks nothing; otherwise a readable claim must have a request map unless
    the desired size is zero (so that it is never grown), and a readable
    Deployment must have replicas, a container and a mount. A readable claim
    without a request map is admitted only when it would not be grown.
   */
  lemma SafeWhenDereferencesHold(w: State, f: Faults, scheme: Scheme, req: ObjectKey)
    ensures !ReachesPvc(w, f, req) ==> SafeToReconcile(w, f, scheme, req)
    ensures ReachesPvc(w, f, req) ==>
      var site := WithPhase(w.sites[req], PHASE_CREATING);
      (PvcKey(site) in w.pvcs && PvcRef(site) !in f.get ==>
         w.pvcs[PvcKey(site)].requests.Some? || ResourceMustParse(site.spec.storageSize) == 0)
      && (DeploymentKey(site) in w.deployments && DeploymentRef(site) !in f.get ==>
            WellShaped(w.deployments[DeploymentKey(site)]))
      ==> SafeToReconcile(w, f, scheme, req)
    ensures ReachesPvc(w, f, req) && SafeToReconcile(w, f, scheme, req) ==>
      var site := WithPhase(w.sites[req], PHASE_CREATING);
      PvcKey(site) in w.pvcs && PvcRef(site) !in f.get && w.pvcs[PvcKey(site)].requests.None? ==>
        ResourceMustParse(site.spec.storageSize) <= StorageRequest(w.pvcs[PvcKey(site)])
  {
  }

  /** The claim step succeeds, so the Deployment step runs. */
  predicate ReachesDeployment(w: State, f: Faults, scheme: Scheme, req: ObjectKey)
    requires SafeToReconcile(w, f, scheme, req)
  {
    ReachesPvc(w, f, req)
    && PvcStep(w.pvcs, f, scheme, WithPhase(w.sites[req], PHASE_CREATING)).err.None?
  }

  /**
    Everything after the site is fetched and marked Creating: the claim step,
    then the Deployment step, then the Running status write, stopping at the
    first error.
   */
  function ConvergeSpec(w: State, f: Faults, scheme: Scheme, site: Site): Run
    requires DependentsSafe(w, f, scheme, site)
  {
    var p := PvcStep(w.pvcs, f, scheme, site);
    if p.err.Some? then Run(w.(pvcs := p.objects), p.calls, Failed(p.err.value))
    else
      var d := DeploymentStep(w.deployments, f, scheme, site);
      var w2 := w.(pvcs := p.objects, deployments := d.objects);
      if d.err.Some? then Run(w2, p.calls + d.calls, Failed(d.err.value))
      else
        var running := RunningStatus(site);
        Run(w2.(sites := WithStatus(w2.sites, site.meta.Key(), running)),
            p.calls + d.calls + [UpdateStatus(site.meta.Key(), running)],
            Done)
  }

  /** One reconciliation of the site stored under `req`. */
  function ReconcileSpec(w: State, f: Faults, scheme: Scheme, req: ObjectKey): Run
    requires SafeToReconcile(w, f, scheme, req)
  {
    var got := Fetch(w.sites, f, SiteRef(req));
    if got.Err? then
      Run(w, [Get(SiteRef(req))], if got.error.NotFound? then Done else Failed(got.error))
    else
      var site := WithPhase(got.value, PHASE_CREATING);
      var key := site.meta.Key();
      var r := ConvergeSpec(w.(sites := WithStatus(w.sites, key, site.status)), f, scheme, site);
      Run(r.state, [Get(SiteRef(req)), UpdateStatus(key, site.status)] + r.calls, r.outcome)
  }

  /**
    Once the site is fetched, a reconciliation is its Creating write followed
    by ConvergeSpec; appended to an earlier `log`, its calls are the log, the
    two site calls, then ConvergeSpec's calls.
   */
  lemma ReconcileSpecFetched(w: State, f: Faults, scheme: Scheme, req: ObjectKey, log: seq<Call>)
    requires SafeToReconcile(w, f, scheme, req) && ReachesPvc(w, f, req)
    ensures var site := WithPhase(w.sites[req], PHASE_CREATING);
      var w1 := w.(sites := WithStatus(w.sites, site.meta.Key(), site.status));
      var prefix := [Get(SiteRef(req)), UpdateStatus(site.meta.Key(), site.status)];
      DependentsSafe(w1, f, scheme, site)
      && var r := ConvergeSpec(w1, f, scheme, site);
         ReconcileSpec(w, f, scheme, req) == Run(r.state, prefix + r.calls, r.outcome)
         && log + prefix + r.calls == log + ReconcileSpec(w, f, scheme, req).calls
  {
    var site := WithPhase(w.sites[req], PHASE_CREATING);
    var w1 := w.(sites := WithStatus(w.sites, site.meta.Key(), site.status));
    var prefix := [Get(SiteRef(req)), UpdateStatus(site.meta.Key(), site.status)];
    var r := ConvergeSpec(w1, f, scheme, site);
    assert log + prefix + r.calls == log + (prefix + r.calls);
  }

  /**
    ConvergeSpec step by step: the claim step's result if it fails, else the
    Deployment step's if that fails, else both followed by the Running
    write; appended to an earlier `log`, the calls come in that order.
   */
  lemma ConvergeSpecSteps(w: State, f: Faults, scheme: Scheme, site: Site, log: seq<Call>)
    requires DependentsSafe(w, f, scheme, site)
    ensures var p := PvcStep(w.pvcs, f, scheme, site);
      var r := ConvergeSpec(w, f, scheme, site);
      (p.err.Some? ==> r == Run(w.(pvcs := p.objects), p.calls, Failed(p.err.value)))
      && (p.err.None? ==>
            DeploymentSafe(w.deployments, f, site)
            && var d := DeploymentStep(w.deployments, f, scheme, site);
               var w2 := w.(pvcs := p.objects, deployments := d.objects);
               (d.err.Some? ==> r == Run(w2, p.calls + d.calls, Failed(d.err.value))
                                && log + p.calls + d.calls == log + r.calls)
               && (d.err.None? ==>
                     var status := UpdateStatus(site.meta.Key(), RunningStatus(site));
                     r == Run(w2.(sites := WithStatus(w.sites, site.meta.Key(), RunningStatus(site))),
                              p.calls + d.calls + [status], Done)
                     && log + p.calls + d.calls + [status] == log + r.calls))
  {
    var p := PvcStep(w.pvcs, f, scheme, site);
    if p.err.None? {
      var d := DeploymentStep(w.deployments, f, scheme, site);
      var status := UpdateStatus(site.meta.Key(), RunningStatus(site));
      assert log + p.calls + d.calls == log + (p.calls + d.calls);
      assert log + p.calls + d.calls + [status] == log + (p.calls + d.calls + [status]);
    }
  }

  /** The controller: a client of the store and the scheme it builds owner references with. */
  class Reconciler {
    const client: Client
    const scheme: Scheme

    constructor (client: Client, scheme: Scheme)
      ensures this.client == client && this.scheme == scheme
    {
      this.client := client;
      this.scheme := scheme;
    }

    /** Fetch the site and mark it Creating, then converge its dependents. */
    method Reconcile(req: ObjectKey) returns (outcome: Outcome)
      requires client.Valid()
      requires SafeToReconcile(client.Contents(), client.faults, scheme, req)
      modifies client
      ensures client.Valid() && client.faults == old(client.faults)
      ensures var r := ReconcileSpec(old(client.Contents()), old(client.faults), scheme, req);
        client.Contents() == r.state && client.calls == old(client.calls) + r.calls && outcome == r.outcome
    {
      var got := client.GetSite(req);
      if got.Err? {
        if got.error.NotFound? {
          return Done;
        }
        return Failed(got.error);
      }
      ghost var w, f, c0 := old(client.Contents()), client.faults, old(client.calls);
      var site := got.value;
      site := site.(status := site.status.(phase := PHASE_CREATING));
      client.UpdateSiteStatus(site);
      ghost var prefix := [Get(SiteRef(req)), UpdateStatus(site.meta.Key(), site.status)];
      assert client.calls == c0 + prefix;
      ReconcileSpecFetched(w, f, scheme, req, c0);
      outcome := Converge(site);
    }

    /** Converge the claim, then the Deployment, then mark the site Running. */
    method Converge(site: Site) returns (outcome: Outcome)
      requires client.Valid() && DependentsSafe(client.Contents(), client.faults, scheme, site)
      modifies client
      ensures client.Valid() && client.faults == old(client.faults)
      ensures var r := ConvergeSpec(old(client.Contents()), old(client.faults), scheme, site);
        client.Contents() == r.state && client.calls == old(client.calls) + r.calls && outcome == r.outcome
    {
      ghost var w, f, c0 := client.Contents(), client.faults, client.calls;
      ConvergeSpecSteps(w, f, scheme, site, c0);
      var err := SyncPvc(site);
      if err.Some? {
        return Failed(err.value);
      }
      err := SyncDeployment(site);
      if err.Some? {
        return Failed(err.value);
      }
      var running := site.(status := site.status.(phase := PHASE_RUNNING, readyReplicas := site.spec.replicas));
      client.UpdateSiteStatus(running);
      return Done;
    }

    /** The claim section: create the claim if it is absent, grow its request if it is smaller than desired. */
    method SyncPvc(site: Site) returns (err: Option<StoreError>)
      requires client.Valid() && PvcSafe(client.pvcs, client.faults, site)
      modifies client
      ensures client.Valid() && client.faults == old(client.faults)
      ensures client.sites == old(client.sites) && client.deployments == old(client.deployments)
      ensures var p := PvcStep(old(client.pvcs), old(client.faults), scheme, site);
        client.pvcs == p.objects && client.calls == old(client.calls) + p.calls && err == p.err
    {
      var pvcKey := ObjectKey(site.meta.namespace, site.meta.name + "-pvc");
      var pvcGot := client.GetPvc(pvcKey);
      var desiredSize := ResourceMustParse(site.spec.storageSize);
      if pvcGot.Err? && pvcGot.error.NotFound? {
        var pvc := NewPvc(site, desiredSize);
        var owned := SetControllerReference(site, pvc.meta, scheme);
        if owned.Some? {
          err := client.CreatePvc(pvc.(meta := owned.value));
          if err.Some? {
            return;
          }
        }
      } else if pvcGot.Ok? {
        var pvc := pvcGot.value;
        var currentSize := StorageRequest(pvc);
        if desiredSize > currentSize {
          pvc := pvc.(requests := Some(pvc.requests.value[STORAGE := desiredSize]));
          err := client.UpdatePvc(pvc);
          if err.Some? {
            return;
          }
        }
      } else {
        return Some(pvcGot.error);
      }
      return None;
    }

    /** The Deployment section: create the Deployment if it is absent, patch its drifted fields otherwise. */
    method SyncDeployment(site: Site) returns (err: Option<StoreError>)
      requires client.Valid() && DeploymentSafe(client.deployments, client.faults, site)
      modifies client
      ensures client.Valid() && client.faults == old(client.faults)
      ensures client.sites == old(client.sites) && client.pvcs == old(client.pvcs)
      ensures var d := DeploymentStep(old(client.deployments), old(client.faults), scheme, site);
        client.deployments == d.objects && client.calls == old(client.calls) + d.calls && err == d.err
    {
      var deployKey := ObjectKey(site.meta.namespace, site.meta.name + "-nginx");
      var deployGot := client.GetDeployment(deployKey);
      if deployGot.Err? && deployGot.error.NotFound? {
        var deploy := NewDeployment(site);
        var owned := SetControllerReference(site, deploy.meta, scheme);
        if owned.Some? {
          err := client.CreateDeployment(deploy.(meta := owned.value));
          if err.Some? {
            return;
          }
        }
      } else if deployGot.Ok? {
        var existing := deployGot.value;
        ghost var d := existing;
        var updated := false;
        if existing.replicas.value != site.spec.replicas {
          existing := existing.(replicas := Some(site.spec.replicas));
          updated := true;
        }
        // The container is patched as a copy and written back: the source edits it through a pointer.
        var container := existing.containers[0];
        var desiredImage := "nginx:" + site.spec.imageVersion;
        if container.image != desiredImage {
          container := container.(image := desiredImage);
          updated := true;
        }
        if container.volumeMounts[0].mountPath != site.spec.staticFilePath {
          var mount := container.volumeMounts[0].(mountPath := site.spec.staticFilePath);
          container := container.(volumeMounts := container.volumeMounts[0 := mount]);
          updated := true;
        } else {
          assert container.volumeMounts[0 := container.volumeMounts[0]] == container.volumeMounts;
        }
        existing := existing.(containers := existing.containers[0 := container]);
        assert updated == Drifted(d, site);
        assert updated ==> existing == Patch(d, site);
        if updated {
          err := client.UpdateDeployment(existing);
          if err.Some? {
            return;
          }
        }
      } else {
        return Some(deployGot.error);
      }
      return None;
    }
  }
}
