/**
  What one reconciliation guarantees, and what two in a row guarantee,
  proved about `Controller.ReconcileSpec` (which `Reconciler.Reconcile` is
  proved to follow).
 */
module ControllerProperties {
  import opened Wrappers
  import opened Quantity
  import opened Objects
  import opened Store
  import opened Controller

  /** The key a call reads or writes. */
  function Target(c: Call): ObjectKey {
    match c
    case UpdateStatus(key, _) => key
    case _ => c.ref.key
  }

  /** The statuses written by a sequence of calls, in order. */
  function StatusWrites(calls: seq<Call>): seq<SiteStatus> {
    if calls == [] then []
    else (if calls[0].UpdateStatus? then [calls[0].status] else []) + StatusWrites(calls[1..])
  }

  lemma {:induction false} StatusWritesAppend(a: seq<Call>, b: seq<Call>)
    ensures StatusWrites(a + b) == StatusWrites(a) + StatusWrites(b)
  {
    if a == [] {
      assert a + b == b;
    } else {
      assert (a + b)[0] == a[0] && (a + b)[1..] == a[1..] + b;
      StatusWritesAppend(a[1..], b);
    }
  }

  lemma {:induction false} NoStatusWrites(calls: seq<Call>)
    requires forall i | 0 <= i < |calls| :: !calls[i].UpdateStatus?
    ensures StatusWrites(calls) == []
  {
    if calls != [] {
      NoStatusWrites(calls[1..]);
    }
  }

  /** The head of a fetched reconciliation writes the Creating status; the two steps after it write none. */
  lemma HeadWrites(req: ObjectKey, creating: SiteStatus, a: seq<Call>, b: seq<Call>)
    requires forall i | 0 <= i < |a| :: !a[i].UpdateStatus?
    requires forall i | 0 <= i < |b| :: !b[i].UpdateStatus?
    ensures StatusWrites([Get(SiteRef(req)), UpdateStatus(req, creating)] + a + b) == [creating]
  {
    var head := [Get(SiteRef(req)), UpdateStatus(req, creating)];
    assert StatusWrites(head) == [creating] by {
      assert head[1..] == [UpdateStatus(req, creating)];
      assert StatusWrites(head[1..][1..]) == [];
    }
    NoStatusWrites(a);
    NoStatusWrites(b);
    StatusWritesAppend(head, a);
    StatusWritesAppend(head + a, b);
  }

  /** A log that writes Creating after the site get, then only reads and writes dependents, and ends with Running. */
  lemma CreatingThenRunning(req: ObjectKey, creating: SiteStatus, running: SiteStatus, rest: seq<Call>)
    requires forall i | 0 <= i < |rest| :: !rest[i].UpdateStatus?
    ensures var log := [Get(SiteRef(req)), UpdateStatus(req, creating)] + rest + [UpdateStatus(req, running)];
      StatusWrites(log) == [creating, running] && log[|log| - 1] == UpdateStatus(req, running)
  {
    var tail := [UpdateStatus(req, running)];
    HeadWrites(req, creating, rest, []);
    assert [Get(SiteRef(req)), UpdateStatus(req, creating)] + rest + []
      == [Get(SiteRef(req)), UpdateStatus(req, creating)] + rest;
    assert StatusWrites(tail) == [running];
    StatusWritesAppend([Get(SiteRef(req)), UpdateStatus(req, creating)] + rest, tail);
  }

  /** A fetched site is stored under its own name, so its dependents' keys follow from the request. */
  lemma FetchedSiteKeys(w: State, req: ObjectKey)
    requires StateValid(w) && req in w.sites
    ensures var site := WithPhase(w.sites[req], PHASE_CREATING);
      site.meta.Key() == req && PvcKey(site) == PvcKeyFor(req) && DeploymentKey(site) == DeploymentKeyFor(req)
  {
  }

  /** Whatever the outcome, the claim step only reads and writes the site's claim. */
  lemma PvcStepShape(pvcs: map<ObjectKey, Pvc>, f: Faults, scheme: Scheme, site: Site)
    requires PvcSafe(pvcs, f, site)
    ensures var p := PvcStep(pvcs, f, scheme, site);
      |p.calls| > 0 && p.calls[0] == Get(PvcRef(site))
      && (forall i | 0 <= i < |p.calls| :: p.calls[i].ref == PvcRef(site) && !p.calls[i].UpdateStatus?)
      && (p.err.Some? ==> p.err.value.ref == PvcRef(site))
      && p.objects.Keys <= pvcs.Keys + {PvcKey(site)}
      && (forall k | k in pvcs && k != PvcKey(site) :: k in p.objects && p.objects[k] == pvcs[k])
      && (forall k | k in pvcs :: k in p.objects && StorageRequest(pvcs[k]) <= StorageRequest(p.objects[k]))
      && (forall k | k in p.objects :: k in pvcs || p.objects[k].meta.Key() == k)
      && (forall k | k in pvcs && k in p.objects :: p.objects[k].meta == pvcs[k].meta)
  {
  }

  /** Whatever the outcome, the Deployment step only reads and writes the site's Deployment. */
  lemma DeploymentStepShape(deployments: map<ObjectKey, Deployment>, f: Faults, scheme: Scheme, site: Site)
    requires DeploymentSafe(deployments, f, site)
    ensures var d := DeploymentStep(deployments, f, scheme, site);
      |d.calls| > 0 && d.calls[0] == Get(DeploymentRef(site))
      && (forall i | 0 <= i < |d.calls| :: d.calls[i].ref == DeploymentRef(site) && !d.calls[i].UpdateStatus?)
      && (d.err.Some? ==> d.err.value.ref == DeploymentRef(site))
      && d.objects.Keys <= deployments.Keys + {DeploymentKey(site)}
      && (forall k | k in deployments && k != DeploymentKey(site) :: k in d.objects && d.objects[k] == deployments[k])
      && (forall k | k in d.objects :: k in deployments || d.objects[k].meta.Key() == k)
      && (forall k | k in deployments && k in d.objects :: d.objects[k].meta == deployments[k].meta)
  {
  }

  /**
    Once the site is fetched, a reconciliation is: the site get and the
    Creating write, the claim step, and, if that succeeds, the Deployment
    step and, if that succeeds too, the Running write.
   */
  lemma ReconcileStages(w: State, f: Faults, scheme: Scheme, req: ObjectKey)
    requires StateValid(w) && SafeToReconcile(w, f, scheme, req) && ReachesPvc(w, f, req)
    ensures var site := WithPhase(w.sites[req], PHASE_CREATING);
      var r := ReconcileSpec(w, f, scheme, req);
      var p := PvcStep(w.pvcs, f, scheme, site);
      var head := [Get(SiteRef(req)), UpdateStatus(req, site.status)];
      var w1 := w.(sites := w.sites[req := site], pvcs := p.objects);
      site.meta.Key() == req && PvcRef(site) == Ref(PvcKind, PvcKeyFor(req))
      && DeploymentRef(site) == Ref(DeploymentKind, DeploymentKeyFor(req))
      && PvcSafe(w.pvcs, f, site)
      && (p.err.Some? ==> r == Run(w1, head + p.calls, Failed(p.err.value)))
      && (p.err.None? ==>
            DeploymentSafe(w.deployments, f, site)
            && var d := DeploymentStep(w.deployments, f, scheme, site);
               var w2 := w1.(deployments := d.objects);
               (d.err.Some? ==> r == Run(w2, head + p.calls + d.calls, Failed(d.err.value)))
               && (d.err.None? ==>
                     r == Run(w2.(sites := w.sites[req := site.(status := RunningStatus(site))]),
                              head + p.calls + d.calls + [UpdateStatus(req, RunningStatus(site))],
                              Done)))
  {
    ReconcileSpecFetched(w, f, scheme, req, []);
    FetchedSiteKeys(w, req);
    var site := WithPhase(w.sites[req], PHASE_CREATING);
    var head := [Get(SiteRef(req)), UpdateStatus(req, site.status)];
    var p := PvcStep(w.pvcs, f, scheme, site);
    if p.err.None? {
      var d := DeploymentStep(w.deployments, f, scheme, site);
      assert head + p.calls + d.calls == head + (p.calls + d.calls);
      if d.err.None? {
        var tail := [UpdateStatus(req, RunningStatus(site))];
        assert head + (p.calls + d.calls + tail) == head + p.calls + d.calls + tail;
      }
    }
  }

  /** The stores a fetched reconciliation leaves behind, stage by stage. */
  lemma ReconcileStateParts(w: State, f: Faults, scheme: Scheme, req: ObjectKey)
    requires StateValid(w) && SafeToReconcile(w, f, scheme, req) && ReachesPvc(w, f, req)
    ensures var site := WithPhase(w.sites[req], PHASE_CREATING);
      var r := ReconcileSpec(w, f, scheme, req);
      var p := PvcStep(w.pvcs, f, scheme, site);
      PvcKey(site) == PvcKeyFor(req) && DeploymentKey(site) == DeploymentKeyFor(req)
      && PvcSafe(w.pvcs, f, site)
      && r.state.pvcs == p.objects
      && r.state.sites.Keys == w.sites.Keys
      && (forall k | k in r.state.sites :: r.state.sites[k].meta == w.sites[k].meta)
      && (p.err.Some? ==> r.state.deployments == w.deployments)
      && (p.err.None? ==>
            DeploymentSafe(w.deployments, f, site)
            && var d := DeploymentStep(w.deployments, f, scheme, site);
               r.state.deployments == d.objects
               && r.outcome == (if d.err.Some? then Failed(d.err.value) else Done))
  {
    ReconcileStages(w, f, scheme, req);
    FetchedSiteKeys(w, req);
  }

  /** The calls of a fetched reconciliation: the head, the claim step's, and whatever follows it. */
  lemma ReconcileCallParts(w: State, f: Faults, scheme: Scheme, req: ObjectKey)
    requires StateValid(w) && SafeToReconcile(w, f, scheme, req) && ReachesPvc(w, f, req)
    ensures var site := WithPhase(w.sites[req], PHASE_CREATING);
      var r := ReconcileSpec(w, f, scheme, req);
      var p := PvcStep(w.pvcs, f, scheme, site);
      var head := [Get(SiteRef(req)), UpdateStatus(req, site.status)];
      PvcSafe(w.pvcs, f, site)
      && (p.err.Some? ==> r.calls == head + p.calls)
      && (p.err.None? ==>
            DeploymentSafe(w.deployments, f, site)
            && var d := DeploymentStep(w.deployments, f, scheme, site);
               r.calls == head + p.calls
                 + (if d.err.None? then d.calls + [UpdateStatus(req, RunningStatus(site))] else d.calls))
  {
    ReconcileStages(w, f, scheme, req);
    var site := WithPhase(w.sites[req], PHASE_CREATING);
    var head := [Get(SiteRef(req)), UpdateStatus(req, site.status)];
    var p := PvcStep(w.pvcs, f, scheme, site);
    if p.err.None? {
      var d := DeploymentStep(w.deployments, f, scheme, site);
      if d.err.None? {
        var tail := [UpdateStatus(req, RunningStatus(site))];
        assert head + p.calls + d.calls + tail == head + p.calls + (d.calls + tail);
      }
    }
  }

  /** A fetched reconciliation that succeeds got through both steps and wrote Running. */
  lemma ReconcileDoneParts(w: State, f: Faults, scheme: Scheme, req: ObjectKey)
    requires StateValid(w) && SafeToReconcile(w, f, scheme, req) && ReachesPvc(w, f, req)
    ensures var site := WithPhase(w.sites[req], PHASE_CREATING);
      var r := ReconcileSpec(w, f, scheme, req);
      var p := PvcStep(w.pvcs, f, scheme, site);
      r.outcome == Done ==>
        p.err.None? && DeploymentSafe(w.deployments, f, site)
        && DeploymentStep(w.deployments, f, scheme, site).err.None?
        && r.state.sites == w.sites[req := site.(status := RunningStatus(site))]
  {
    ReconcileStages(w, f, scheme, req);
  }

  /** A missing site ends the reconciliation with success; an unreadable one with the read's own error. */
  lemma SiteMissingOrUnreadable(w: State, f: Faults, scheme: Scheme, req: ObjectKey)
    requires SafeToReconcile(w, f, scheme, req)
    ensures var r := ReconcileSpec(w, f, scheme, req);
      (!ReachesPvc(w, f, req) ==> r.state == w && r.calls == [Get(SiteRef(req))])
      && (SiteRef(req) !in f.get && req !in w.sites ==> r.outcome == Done)
      && (SiteRef(req) in f.get ==> r.outcome == Failed(Unavailable(GetOp, SiteRef(req))))
  {
  }

  /** Calls on one kind found in a log are those of the part of it that touches that kind. */
  lemma CallsOfKind(head: seq<Call>, mid: seq<Call>, tail: seq<Call>, c: Call, kind: Kind)
    requires Touches(c, kind)
    requires forall i | 0 <= i < |head| :: !Touches(head[i], kind)
    requires forall i | 0 <= i < |tail| :: !Touches(tail[i], kind)
    ensures c in head + mid + tail <==> c in mid
  {
    if c in head + mid + tail {
      var k :| 0 <= k < |head + mid + tail| && (head + mid + tail)[k] == c;
      assert |head| <= k < |head| + |mid|;
      assert mid[k - |head|] == c;
    }
  }

  /**
    Once the site is fetched, a reconciliation leaves the claims the claim
    step leaves, fails with its error if it fails, and issues a create or an
    update of the site's claim exactly when that step does.
   */
  lemma ReconcileClaimPart(w: State, f: Faults, scheme: Scheme, req: ObjectKey)
    requires StateValid(w) && SafeToReconcile(w, f, scheme, req) && ReachesPvc(w, f, req)
    ensures var site := WithPhase(w.sites[req], PHASE_CREATING);
      PvcSafe(w.pvcs, f, site)
      && var p := PvcStep(w.pvcs, f, scheme, site);
         var r := ReconcileSpec(w, f, scheme, req);
         var ref := Ref(PvcKind, PvcKeyFor(req));
         r.state.pvcs == p.objects
         && (p.err.Some? ==> r.outcome == Failed(p.err.value))
         && (Create(ref) in r.calls <==> Create(ref) in p.calls)
         && (Update(ref) in r.calls <==> Update(ref) in p.calls)
  {
    ReconcileStages(w, f, scheme, req);
    var site := WithPhase(w.sites[req], PHASE_CREATING);
    var head := [Get(SiteRef(req)), UpdateStatus(req, site.status)];
    var p := PvcStep(w.pvcs, f, scheme, site);
    var r := ReconcileSpec(w, f, scheme, req);
    var ref := Ref(PvcKind, PvcKeyFor(req));
    var after: seq<Call> := [];
    if p.err.None? {
      var d := DeploymentStep(w.deployments, f, scheme, site);
      DeploymentStepShape(w.deployments, f, scheme, site);
      after := if d.err.None? then d.calls + [UpdateStatus(req, RunningStatus(site))] else d.calls;
    }
    assert r.calls == head + p.calls + after;
    assert forall i | 0 <= i < |after| :: !Touches(after[i], PvcKind);
    CallsOfKind(head, p.calls, after, Create(ref), PvcKind);
    CallsOfKind(head, p.calls, after, Update(ref), PvcKind);
  }

  /**
    An absent claim is created as `<site>-pvc` in the site's namespace,
    owned by the site, read-write-once, requesting the parsed size; when the
    owner reference cannot be set, creation is skipped and the
    reconciliation carries on.
   */
  lemma PvcCreatedWhenAbsent(w: State, f: Faults, scheme: Scheme, req: ObjectKey)
    requires StateValid(w) && SafeToReconcile(w, f, scheme, req) && ReachesPvc(w, f, req)
    requires Ref(PvcKind, PvcKeyFor(req)) !in f.get && PvcKeyFor(req) !in w.pvcs
    ensures var r := ReconcileSpec(w, f, scheme, req);
      var ref := Ref(PvcKind, PvcKeyFor(req));
      var spec := w.sites[req].spec;
      (scheme.registersSite && ref !in f.create ==>
         PvcKeyFor(req) in r.state.pvcs
         && r.state.pvcs[PvcKeyFor(req)]
            == Pvc(ObjectMeta(req.namespace, req.name + "-pvc", Some(req)),
                   [ReadWriteOnce],
                   Some(map[STORAGE := ResourceMustParse(spec.storageSize)])))
      && (scheme.registersSite && ref in f.create ==>
            r.outcome == Failed(Unavailable(CreateOp, ref)) && PvcKeyFor(req) !in r.state.pvcs)
      && (!scheme.registersSite ==>
            PvcKeyFor(req) !in r.state.pvcs && Create(ref) !in r.calls && ReachesDeployment(w, f, scheme, req))
  {
    ReconcileClaimPart(w, f, scheme, req);
    FetchedSiteKeys(w, req);
  }

  /** No reconciliation lowers the storage any claim requests, nor removes a claim. */
  lemma StorageNeverShrinks(w: State, f: Faults, scheme: Scheme, req: ObjectKey)
    requires SafeToReconcile(w, f, scheme, req)
    ensures var r := ReconcileSpec(w, f, scheme, req);
      forall k | k in w.pvcs :: k in r.state.pvcs && StorageRequest(w.pvcs[k]) <= StorageRequest(r.state.pvcs[k])
  {
    if ReachesPvc(w, f, req) {
      ReconcileSpecFetched(w, f, scheme, req, []);
      PvcStepShape(w.pvcs, f, scheme, WithPhase(w.sites[req], PHASE_CREATING));
    }
  }

  /**
    An existing claim is updated exactly when the parsed desired size is
    strictly larger than its request, and then requests the desired size,
    keeping its other requests, metadata and access modes; otherwise it is
    left as it is.
   */
  lemma PvcGrowsOnlyWhenSmaller(w: State, f: Faults, scheme: Scheme, req: ObjectKey)
    requires StateValid(w) && SafeToReconcile(w, f, scheme, req) && ReachesPvc(w, f, req)
    requires Ref(PvcKind, PvcKeyFor(req)) !in f.get && PvcKeyFor(req) in w.pvcs
    ensures var r := ReconcileSpec(w, f, scheme, req);
      var ref := Ref(PvcKind, PvcKeyFor(req));
      var before := w.pvcs[PvcKeyFor(req)];
      var desired := ResourceMustParse(w.sites[req].spec.storageSize);
      PvcKeyFor(req) in r.state.pvcs
      && (Update(ref) in r.calls <==> desired > StorageRequest(before))
      && (desired <= StorageRequest(before) ==> r.state.pvcs[PvcKeyFor(req)] == before)
      && (desired > StorageRequest(before) && ref !in f.update ==>
            var after := r.state.pvcs[PvcKeyFor(req)];
            StorageRequest(after) == desired && after.meta == before.meta && after.accessModes == before.accessModes
            && before.requests.Some? && after == Resized(before, desired))
      && (desired > StorageRequest(before) && ref in f.update ==>
            r.outcome == Failed(Unavailable(UpdateOp, ref)) && r.state.pvcs[PvcKeyFor(req)] == before)
  {
    ReconcileClaimPart(w, f, scheme, req);
    FetchedSiteKeys(w, req);
  }

  /**
    Once the claim step succeeds, a reconciliation leaves the Deployments
    the Deployment step leaves, returns its error, and issues a create or an
    update of the site's Deployment exactly when that step does.
   */
  lemma ReconcileAfterClaim(w: State, f: Faults, scheme: Scheme, req: ObjectKey)
    requires StateValid(w) && SafeToReconcile(w, f, scheme, req) && ReachesDeployment(w, f, scheme, req)
    ensures var site := WithPhase(w.sites[req], PHASE_CREATING);
      DeploymentSafe(w.deployments, f, site)
      && var d := DeploymentStep(w.deployments, f, scheme, site);
         var r := ReconcileSpec(w, f, scheme, req);
         var ref := Ref(DeploymentKind, DeploymentKeyFor(req));
         r.state.deployments == d.objects
         && r.outcome == (if d.err.Some? then Failed(d.err.value) else Done)
         && (Create(ref) in r.calls <==> Create(ref) in d.calls)
         && (Update(ref) in r.calls <==> Update(ref) in d.calls)
  {
    ReconcileStateParts(w, f, scheme, req);
    ReconcileCallParts(w, f, scheme, req);
    var site := WithPhase(w.sites[req], PHASE_CREATING);
    var p := PvcStep(w.pvcs, f, scheme, site);
    var d := DeploymentStep(w.deployments, f, scheme, site);
    PvcStepShape(w.pvcs, f, scheme, site);
    var r := ReconcileSpec(w, f, scheme, req);
    var head := [Get(SiteRef(req)), UpdateStatus(req, site.status)] + p.calls;
    var tail := if d.err.Some? then [] else [UpdateStatus(req, RunningStatus(site))];
    assert r.calls == head + d.calls + tail;
    assert forall i | 0 <= i < |head| :: !Touches(head[i], DeploymentKind);
    var ref := Ref(DeploymentKind, DeploymentKeyFor(req));
    CallsOfKind(head, d.calls, tail, Create(ref), DeploymentKind);
    CallsOfKind(head, d.calls, tail, Update(ref), DeploymentKind);
  }

  /**
    Once the claim step succeeds, an absent Deployment is created as
    `<site>-nginx`, owned by the site, running `replicas` copies of one nginx
    container whose image tag is the site's version and which mounts the
    site's claim at the static file path; pods are labelled and selected by
    `app=<site>`. When the owner reference cannot be set, creation is skipped.
   */
  lemma DeploymentCreatedWhenAbsent(w: State, f: Faults, scheme: Scheme, req: ObjectKey)
    requires StateValid(w) && SafeToReconcile(w, f, scheme, req) && ReachesDeployment(w, f, scheme, req)
    requires Ref(DeploymentKind, DeploymentKeyFor(req)) !in f.get && DeploymentKeyFor(req) !in w.deployments
    ensures var r := ReconcileSpec(w, f, scheme, req);
      var ref := Ref(DeploymentKind, DeploymentKeyFor(req));
      var spec := w.sites[req].spec;
      (scheme.registersSite && ref !in f.create ==>
         r.outcome == Done
         && DeploymentKeyFor(req) in r.state.deployments
         && var d := r.state.deployments[DeploymentKeyFor(req)];
            d.meta == ObjectMeta(req.namespace, req.name + "-nginx", Some(req))
            && d.replicas == Some(spec.replicas)
            && d.selector == map["app" := req.name]
            && d.templateLabels == map["app" := req.name]
            && d.nodeSelector == spec.nodeSelector
            && d.containers == [Container("nginx", "nginx:" + spec.imageVersion,
                                          [VolumeMount("static-content", spec.staticFilePath)])]
            && d.volumes == [Volume("static-content", Some(PvcKeyFor(req).name))])
      && (scheme.registersSite && ref in f.create ==>
            r.outcome == Failed(Unavailable(CreateOp, ref)) && DeploymentKeyFor(req) !in r.state.deployments)
      && (!scheme.registersSite ==>
            r.outcome == Done && DeploymentKeyFor(req) !in r.state.deployments && Create(ref) !in r.calls)
  {
    ReconcileAfterClaim(w, f, scheme, req);
    FetchedSiteKeys(w, req);
  }

  /**
    Once the claim step succeeds, an existing Deployment is updated exactly
    when its replica count, first image or first mount path differs from
    the site's; the update sets those three and changes nothing else.
   */
  lemma DeploymentPatchedOnlyOnDrift(w: State, f: Faults, scheme: Scheme, req: ObjectKey)
    requires StateValid(w) && SafeToReconcile(w, f, scheme, req) && ReachesDeployment(w, f, scheme, req)
    requires Ref(DeploymentKind, DeploymentKeyFor(req)) !in f.get && DeploymentKeyFor(req) in w.deployments
    ensures var r := ReconcileSpec(w, f, scheme, req);
      var ref := Ref(DeploymentKind, DeploymentKeyFor(req));
      var before := w.deployments[DeploymentKeyFor(req)];
      var site := w.sites[req];
      WellShaped(before)
      && DeploymentKeyFor(req) in r.state.deployments
      && (Update(ref) in r.calls <==> Drifted(before, site))
      && (!Drifted(before, site) ==> r.outcome == Done && r.state.deployments[DeploymentKeyFor(req)] == before)
      && (Drifted(before, site) && ref !in f.update ==>
            var after := r.state.deployments[DeploymentKeyFor(req)];
            r.outcome == Done
            && WellShaped(after)
            && after.replicas == Some(site.spec.replicas)
            && after.containers[0].image == "nginx:" + site.spec.imageVersion
            && MountPath(after) == site.spec.staticFilePath
            && SameOutsideTrackedFields(before, after))
      && (Drifted(before, site) && ref in f.update ==>
            r.outcome == Failed(Unavailable(UpdateOp, ref)) && r.state.deployments == w.deployments)
  {
    ReconcileAfterClaim(w, f, scheme, req);
    FetchedSiteKeys(w, req);
  }

  /** Any failure after the site is fetched leaves it marked Creating, the only status written. */
  lemma FailureAfterFetch(w: State, f: Faults, scheme: Scheme, req: ObjectKey)
    requires StateValid(w) && SafeToReconcile(w, f, scheme, req) && ReachesPvc(w, f, req)
    ensures var r := ReconcileSpec(w, f, scheme, req);
      var site := WithPhase(w.sites[req], PHASE_CREATING);
      r.outcome.Failed? ==>
        r.outcome.error.ref.kind != SiteKind
        && r.state.sites == w.sites[req := site]
        && StatusWrites(r.calls) == [site.status]
  {
    ReconcileStages(w, f, scheme, req);
    var site := WithPhase(w.sites[req], PHASE_CREATING);
    var p := PvcStep(w.pvcs, f, scheme, site);
    PvcStepShape(w.pvcs, f, scheme, site);
    if p.err.None? {
      var d := DeploymentStep(w.deployments, f, scheme, site);
      DeploymentStepShape(w.deployments, f, scheme, site);
      HeadWrites(req, site.status, p.calls, d.calls);
    } else {
      HeadWrites(req, site.status, p.calls, []);
      assert [Get(SiteRef(req)), UpdateStatus(req, site.status)] + p.calls + []
        == [Get(SiteRef(req)), UpdateStatus(req, site.status)] + p.calls;
    }
  }

  /** A failure on the claim names the site's claim and comes before the Deployment is read or written. */
  lemma ClaimFailure(w: State, f: Faults, scheme: Scheme, req: ObjectKey)
    requires StateValid(w) && SafeToReconcile(w, f, scheme, req) && ReachesPvc(w, f, req)
    ensures var r := ReconcileSpec(w, f, scheme, req);
      r.outcome.Failed? && r.outcome.error.ref.kind == PvcKind ==>
        r.outcome.error.ref.key == PvcKeyFor(req)
        && r.state.deployments == w.deployments
        && forall i | 0 <= i < |r.calls| :: !Touches(r.calls[i], DeploymentKind)
  {
    ReconcileStages(w, f, scheme, req);
    var site := WithPhase(w.sites[req], PHASE_CREATING);
    var p := PvcStep(w.pvcs, f, scheme, site);
    PvcStepShape(w.pvcs, f, scheme, site);
    if p.err.None? {
      var d := DeploymentStep(w.deployments, f, scheme, site);
      DeploymentStepShape(w.deployments, f, scheme, site);
    } else {
      var calls := [Get(SiteRef(req)), UpdateStatus(req, site.status)] + p.calls;
      assert forall i | 0 <= i < |calls| :: !Touches(calls[i], DeploymentKind);
    }
  }

  /** A failure on the Deployment names the site's Deployment and comes after the claim step succeeded. */
  lemma DeploymentFailure(w: State, f: Faults, scheme: Scheme, req: ObjectKey)
    requires StateValid(w) && SafeToReconcile(w, f, scheme, req) && ReachesPvc(w, f, req)
    ensures var r := ReconcileSpec(w, f, scheme, req);
      r.outcome.Failed? && r.outcome.error.ref.kind == DeploymentKind ==>
        r.outcome.error.ref.key == DeploymentKeyFor(req) && ReachesDeployment(w, f, scheme, req)
  {
    ReconcileStages(w, f, scheme, req);
    var site := WithPhase(w.sites[req], PHASE_CREATING);
    var p := PvcStep(w.pvcs, f, scheme, site);
    PvcStepShape(w.pvcs, f, scheme, site);
    if p.err.None? {
      var d := DeploymentStep(w.deployments, f, scheme, site);
      DeploymentStepShape(w.deployments, f, scheme, site);
    }
  }

  /**
    A reconciliation stops at its first failure and returns that failure's
    error: a failed site read writes nothing; a failure on the claim comes
    before the Deployment is read or written; a failure on the Deployment
    comes after the claim step succeeded. After any failure past the site
    read, the only status written is Creating.
   */
  lemma FailFast(w: State, f: Faults, scheme: Scheme, req: ObjectKey)
    requires StateValid(w) && SafeToReconcile(w, f, scheme, req)
    ensures var r := ReconcileSpec(w, f, scheme, req);
      r.outcome.Failed? ==>
        var e := r.outcome.error;
        (e.ref.kind == SiteKind ==>
           e == Unavailable(GetOp, SiteRef(req)) && r.state == w && r.calls == [Get(SiteRef(req))])
        && (e.ref.kind != SiteKind ==>
              ReachesPvc(w, f, req)
              && r.state.sites == w.sites[req := WithPhase(w.sites[req], PHASE_CREATING)]
              && StatusWrites(r.calls) == [WithPhase(w.sites[req], PHASE_CREATING).status])
        && (e.ref.kind == PvcKind ==>
              e.ref.key == PvcKeyFor(req)
              && r.state.deployments == w.deployments
              && forall i | 0 <= i < |r.calls| :: !Touches(r.calls[i], DeploymentKind))
        && (e.ref.kind == DeploymentKind ==>
              e.ref.key == DeploymentKeyFor(req) && ReachesDeployment(w, f, scheme, req))
  {
    SiteMissingOrUnreadable(w, f, scheme, req);
    if ReachesPvc(w, f, req) {
      FailureAfterFetch(w, f, scheme, req);
      ClaimFailure(w, f, scheme, req);
      DeploymentFailure(w, f, scheme, req);
    }
  }

  /**
    A successful reconciliation of a stored site leaves it with phase
    Running and ready replicas equal to the desired count, copied from the
    spec rather than observed; its spec and metadata are left as they were.
    The statuses written are Creating and then Running.
   */
  lemma SuccessReportsRunning(w: State, f: Faults, scheme: Scheme, req: ObjectKey)
    requires StateValid(w) && SafeToReconcile(w, f, scheme, req) && ReachesPvc(w, f, req)
    ensures var r := ReconcileSpec(w, f, scheme, req);
      var site := w.sites[req];
      var running := site.status.(phase := PHASE_RUNNING, readyReplicas := site.spec.replicas);
      r.outcome == Done ==>
        ReachesDeployment(w, f, scheme, req)
        && r.state.sites == w.sites[req := site.(status := running)]
        && StatusWrites(r.calls) == [site.status.(phase := PHASE_CREATING), running]
        && r.calls[|r.calls| - 1] == UpdateStatus(req, running)
  {
    ReconcileDoneParts(w, f, scheme, req);
    var r := ReconcileSpec(w, f, scheme, req);
    if r.outcome == Done {
      ReconcileCallParts(w, f, scheme, req);
      var site := WithPhase(w.sites[req], PHASE_CREATING);
      var p := PvcStep(w.pvcs, f, scheme, site);
      var d := DeploymentStep(w.deployments, f, scheme, site);
      PvcStepShape(w.pvcs, f, scheme, site);
      DeploymentStepShape(w.deployments, f, scheme, site);
      var head := [Get(SiteRef(req)), UpdateStatus(req, site.status)];
      var tail := [UpdateStatus(req, RunningStatus(site))];
      assert r.calls == head + (p.calls + d.calls) + tail;
      CreatingThenRunning(req, site.status, RunningStatus(site), p.calls + d.calls);
    }
  }

  /** A log whose first part never touches a Deployment and whose second part never touches a claim keeps claims first. */
  lemma ClaimsBeforeDeployment(before: seq<Call>, after: seq<Call>)
    requires forall i | 0 <= i < |before| :: !Touches(before[i], DeploymentKind)
    requires forall i | 0 <= i < |after| :: !Touches(after[i], PvcKind)
    ensures var log := before + after;
      forall i, j | 0 <= i < j < |log| && Touches(log[j], PvcKind) :: !Touches(log[i], DeploymentKind)
  {
    var log := before + after;
    forall i, j | 0 <= i < j < |log| && Touches(log[j], PvcKind)
      ensures !Touches(log[i], DeploymentKind)
    {
      assert j < |before|;
      assert log[i] == before[i];
    }
  }

  /** A log whose first part names the site or its claim and whose second part the site or its Deployment names only those three. */
  lemma TargetsOwnObjects(before: seq<Call>, after: seq<Call>, req: ObjectKey)
    requires forall i | 0 <= i < |before| :: Target(before[i]) == req || Target(before[i]) == PvcKeyFor(req)
    requires forall i | 0 <= i < |after| :: Target(after[i]) == req || Target(after[i]) == DeploymentKeyFor(req)
    ensures var log := before + after;
      forall i | 0 <= i < |log| ::
        Target(log[i]) == req || Target(log[i]) == PvcKeyFor(req) || Target(log[i]) == DeploymentKeyFor(req)
  {
    var log := before + after;
    forall i | 0 <= i < |log|
      ensures Target(log[i]) == req || Target(log[i]) == PvcKeyFor(req) || Target(log[i]) == DeploymentKeyFor(req)
    {
      if i < |before| {
        assert log[i] == before[i];
      } else {
        assert log[i] == after[i - |before|];
      }
    }
  }

  /**
    The calls of a reconciliation come in a fixed order: the site read
    first, and every call on the claim before every call on the Deployment.
   */
  lemma CallsInOrder(w: State, f: Faults, scheme: Scheme, req: ObjectKey)
    requires StateValid(w) && SafeToReconcile(w, f, scheme, req)
    ensures var r := ReconcileSpec(w, f, scheme, req);
      |r.calls| > 0 && r.calls[0] == Get(SiteRef(req))
      && forall i, j | 0 <= i < j < |r.calls| && Touches(r.calls[j], PvcKind) :: !Touches(r.calls[i], DeploymentKind)
  {
    if ReachesPvc(w, f, req) {
      ReconcileCallParts(w, f, scheme, req);
      var site := WithPhase(w.sites[req], PHASE_CREATING);
      var head := [Get(SiteRef(req)), UpdateStatus(req, site.status)];
      var p := PvcStep(w.pvcs, f, scheme, site);
      PvcStepShape(w.pvcs, f, scheme, site);
      var r := ReconcileSpec(w, f, scheme, req);
      var before := head + p.calls;
      assert forall i | 0 <= i < |before| :: !Touches(before[i], DeploymentKind);
      if p.err.None? {
        var d := DeploymentStep(w.deployments, f, scheme, site);
        DeploymentStepShape(w.deployments, f, scheme, site);
        var after := if d.err.None? then d.calls + [UpdateStatus(req, RunningStatus(site))] else d.calls;
        assert forall i | 0 <= i < |after| :: !Touches(after[i], PvcKind);
        assert r.calls == before + after;
        ClaimsBeforeDeployment(before, after);
      } else {
        assert r.calls == before;
      }
    } else {
      SiteMissingOrUnreadable(w, f, scheme, req);
    }
  }

  /** A reconciliation writes only the requested site's status; no site's spec or metadata changes. */
  lemma ReconcileWritesOnlyItsStatus(w: State, f: Faults, scheme: Scheme, req: ObjectKey)
    requires StateValid(w) && SafeToReconcile(w, f, scheme, req)
    ensures var r := ReconcileSpec(w, f, scheme, req);
      r.state.sites.Keys == w.sites.Keys
      && (forall k | k in w.sites && k != req :: r.state.sites[k] == w.sites[k])
      && (forall k | k in w.sites :: r.state.sites[k].meta == w.sites[k].meta && r.state.sites[k].spec == w.sites[k].spec)
  {
    if ReachesPvc(w, f, req) {
      ReconcileStages(w, f, scheme, req);
    }
  }

  /**
    Of the claims and Deployments, a reconciliation writes only the
    requested site's own, and every object stays stored under its own name.
   */
  lemma ReconcileTouchesOnlyItsOwnObjects(w: State, f: Faults, scheme: Scheme, req: ObjectKey)
    requires StateValid(w) && SafeToReconcile(w, f, scheme, req)
    ensures var r := ReconcileSpec(w, f, scheme, req);
      StateValid(r.state)
      && r.state.pvcs.Keys <= w.pvcs.Keys + {PvcKeyFor(req)}
      && (forall k | k in w.pvcs && k != PvcKeyFor(req) :: k in r.state.pvcs && r.state.pvcs[k] == w.pvcs[k])
      && r.state.deployments.Keys <= w.deployments.Keys + {DeploymentKeyFor(req)}
      && (forall k | k in w.deployments && k != DeploymentKeyFor(req) ::
            k in r.state.deployments && r.state.deployments[k] == w.deployments[k])
  {
    if ReachesPvc(w, f, req) {
      ReconcileStateParts(w, f, scheme, req);
      var r := ReconcileSpec(w, f, scheme, req);
      var site := WithPhase(w.sites[req], PHASE_CREATING);
      var p := PvcStep(w.pvcs, f, scheme, site);
      PvcStepShape(w.pvcs, f, scheme, site);
      assert forall k | k in r.state.sites :: r.state.sites[k].meta.Key() == k;
      assert forall k | k in r.state.pvcs :: r.state.pvcs[k].meta.Key() == k;
      if p.err.None? {
        var d := DeploymentStep(w.deployments, f, scheme, site);
        DeploymentStepShape(w.deployments, f, scheme, site);
        assert forall k | k in d.objects :: d.objects[k].meta.Key() == k;
      }
      assert forall k | k in r.state.deployments :: r.state.deployments[k].meta.Key() == k;
    }
  }

  /** Every call a reconciliation issues names the requested site, its claim or its Deployment. */
  lemma ReconcileCallsNameOwnObjects(w: State, f: Faults, scheme: Scheme, req: ObjectKey)
    requires StateValid(w) && SafeToReconcile(w, f, scheme, req)
    ensures var r := ReconcileSpec(w, f, scheme, req);
      forall i | 0 <= i < |r.calls| ::
        Target(r.calls[i]) == req || Target(r.calls[i]) == PvcKeyFor(req) || Target(r.calls[i]) == DeploymentKeyFor(req)
  {
    if ReachesPvc(w, f, req) {
      ReconcileCallParts(w, f, scheme, req);
      FetchedSiteKeys(w, req);
      var site := WithPhase(w.sites[req], PHASE_CREATING);
      var head := [Get(SiteRef(req)), UpdateStatus(req, site.status)];
      var p := PvcStep(w.pvcs, f, scheme, site);
      PvcStepShape(w.pvcs, f, scheme, site);
      var r := ReconcileSpec(w, f, scheme, req);
      var before := head + p.calls;
      assert forall i | 0 <= i < |before| :: Target(before[i]) == req || Target(before[i]) == PvcKeyFor(req);
      if p.err.None? {
        var d := DeploymentStep(w.deployments, f, scheme, site);
        DeploymentStepShape(w.deployments, f, scheme, site);
        var after := if d.err.None? then d.calls + [UpdateStatus(req, RunningStatus(site))] else d.calls;
        assert forall i | 0 <= i < |after| :: Target(after[i]) == req || Target(after[i]) == DeploymentKeyFor(req);
        assert r.calls == before + after;
        TargetsOwnObjects(before, after, req);
      }
    }
  }

  /**
    The claim needs nothing: it is readable, and it requests at least the
    desired size, or it is absent because it cannot be owned.
   */
  predicate PvcSettled(pvcs: map<ObjectKey, Pvc>, f: Faults, scheme: Scheme, site: Site) {
    PvcRef(site) !in f.get
    && (PvcKey(site) in pvcs ==> ResourceMustParse(site.spec.storageSize) <= StorageRequest(pvcs[PvcKey(site)]))
    && (PvcKey(site) !in pvcs ==> !scheme.registersSite)
  }

  /**
    The Deployment needs nothing: it is readable, and it has not drifted, or
    it is absent because it cannot be owned.
   */
  predicate DeploymentSettled(deployments: map<ObjectKey, Deployment>, f: Faults, scheme: Scheme, site: Site) {
    DeploymentRef(site) !in f.get
    && (DeploymentKey(site) in deployments ==>
          WellShaped(deployments[DeploymentKey(site)]) && !Drifted(deployments[DeploymentKey(site)], site))
    && (DeploymentKey(site) !in deployments ==> !scheme.registersSite)
  }

  /** A claim step that succeeds leaves the claim settled. */
  lemma PvcStepSettles(pvcs: map<ObjectKey, Pvc>, f: Faults, scheme: Scheme, site: Site)
    requires PvcSafe(pvcs, f, site)
    ensures var p := PvcStep(pvcs, f, scheme, site);
      p.err.None? ==> PvcSettled(p.objects, f, scheme, site)
  {
  }

  /** A Deployment step that succeeds leaves the Deployment settled. */
  lemma DeploymentStepSettles(deployments: map<ObjectKey, Deployment>, f: Faults, scheme: Scheme, site: Site)
    requires DeploymentSafe(deployments, f, site)
    ensures var d := DeploymentStep(deployments, f, scheme, site);
      d.err.None? ==> DeploymentSettled(d.objects, f, scheme, site)
  {
  }

  /** On a settled claim the claim step only reads it. */
  lemma SettledPvcStepOnlyReads(pvcs: map<ObjectKey, Pvc>, f: Faults, scheme: Scheme, site: Site)
    requires PvcSettled(pvcs, f, scheme, site)
    ensures PvcSafe(pvcs, f, site) && PvcStep(pvcs, f, scheme, site) == Step(pvcs, [Get(PvcRef(site))], None)
  {
  }

  /** On a settled Deployment the Deployment step only reads it. */
  lemma SettledDeploymentStepOnlyReads(deployments: map<ObjectKey, Deployment>, f: Faults, scheme: Scheme, site: Site)
    requires DeploymentSettled(deployments, f, scheme, site)
    ensures DeploymentSafe(deployments, f, site)
      && DeploymentStep(deployments, f, scheme, site) == Step(deployments, [Get(DeploymentRef(site))], None)
  {
  }

  /** A successful reconciliation of a stored site leaves both of its dependents settled. */
  lemma SuccessSettles(w: State, f: Faults, scheme: Scheme, req: ObjectKey)
    requires StateValid(w) && SafeToReconcile(w, f, scheme, req) && ReachesPvc(w, f, req)
    requires ReconcileSpec(w, f, scheme, req).outcome == Done
    ensures var w' := ReconcileSpec(w, f, scheme, req).state;
      StateValid(w') && ReachesPvc(w', f, req)
      && var site' := WithPhase(w'.sites[req], PHASE_CREATING);
         PvcSettled(w'.pvcs, f, scheme, site') && DeploymentSettled(w'.deployments, f, scheme, site')
         && site'.(status := RunningStatus(site')) == w'.sites[req]
  {
    var r1 := ReconcileSpec(w, f, scheme, req);
    ReconcileStages(w, f, scheme, req);
    ReconcileTouchesOnlyItsOwnObjects(w, f, scheme, req);
    var site := WithPhase(w.sites[req], PHASE_CREATING);
    var p := PvcStep(w.pvcs, f, scheme, site);
    var d := DeploymentStep(w.deployments, f, scheme, site);
    PvcStepSettles(w.pvcs, f, scheme, site);
    DeploymentStepSettles(w.deployments, f, scheme, site);
    var w' := r1.state;
    assert w'.pvcs == p.objects && w'.deployments == d.objects;
    assert w'.sites[req] == site.(status := RunningStatus(site));
    var site' := WithPhase(w'.sites[req], PHASE_CREATING);
    assert site'.meta == site.meta && site'.spec == site.spec;
  }

  /** A reconciliation of a stored site whose dependents are settled only reads them and rewrites the status. */
  lemma ReconcileSettled(w: State, f: Faults, scheme: Scheme, req: ObjectKey)
    requires StateValid(w) && ReachesPvc(w, f, req)
    requires var site := WithPhase(w.sites[req], PHASE_CREATING);
      PvcSettled(w.pvcs, f, scheme, site) && DeploymentSettled(w.deployments, f, scheme, site)
    ensures SafeToReconcile(w, f, scheme, req)
    ensures var site := WithPhase(w.sites[req], PHASE_CREATING);
      var running := RunningStatus(site);
      ReconcileSpec(w, f, scheme, req)
      == Run(w.(sites := w.sites[req := site.(status := running)]),
             [Get(SiteRef(req)), UpdateStatus(req, site.status),
              Get(Ref(PvcKind, PvcKeyFor(req))), Get(Ref(DeploymentKind, DeploymentKeyFor(req))),
              UpdateStatus(req, running)],
             Done)
  {
    var site := WithPhase(w.sites[req], PHASE_CREATING);
    SettledPvcStepOnlyReads(w.pvcs, f, scheme, site);
    SettledDeploymentStepOnlyReads(w.deployments, f, scheme, site);
    ReconcileStages(w, f, scheme, req);
  }

  /** Reconciling again a stored site that a reconciliation brought to success only reads its dependents and rewrites its status. */
  lemma FetchedIdempotent(w: State, f: Faults, scheme: Scheme, req: ObjectKey)
    requires StateValid(w) && SafeToReconcile(w, f, scheme, req) && ReachesPvc(w, f, req)
    requires ReconcileSpec(w, f, scheme, req).outcome == Done
    ensures var w1 := ReconcileSpec(w, f, scheme, req).state;
      SafeToReconcile(w1, f, scheme, req)
      && var r2 := ReconcileSpec(w1, f, scheme, req);
         var status := w1.sites[req].status;
         r2 == Run(w1, [Get(SiteRef(req)), UpdateStatus(req, status.(phase := PHASE_CREATING)),
                        Get(Ref(PvcKind, PvcKeyFor(req))), Get(Ref(DeploymentKind, DeploymentKeyFor(req))),
                        UpdateStatus(req, status)],
                  Done)
  {
    SuccessSettles(w, f, scheme, req);
    ReconcileSettled(ReconcileSpec(w, f, scheme, req).state, f, scheme, req);
  }

  /**
    Reconciling again, with the same faults, a store that a reconciliation
    brought to success changes nothing and succeeds again: it issues no
    create or update on the claim or the Deployment, only their reads and
    the Creating and Running status writes, the last of which writes back
    the status already stored.
   */
  lemma ReconcileIdempotent(w: State, f: Faults, scheme: Scheme, req: ObjectKey)
    requires StateValid(w) && SafeToReconcile(w, f, scheme, req)
    requires ReconcileSpec(w, f, scheme, req).outcome == Done
    ensures var r1 := ReconcileSpec(w, f, scheme, req);
      SafeToReconcile(r1.state, f, scheme, req)
      && var r2 := ReconcileSpec(r1.state, f, scheme, req);
         r2.outcome == Done && r2.state == r1.state
         && (req !in w.sites ==> r2.calls == [Get(SiteRef(req))])
         && (req in w.sites ==>
               var status := r1.state.sites[req].status;
               r2.calls == [Get(SiteRef(req)), UpdateStatus(req, status.(phase := PHASE_CREATING)),
                            Get(Ref(PvcKind, PvcKeyFor(req))), Get(Ref(DeploymentKind, DeploymentKeyFor(req))),
                            UpdateStatus(req, status)])
  {
    if ReachesPvc(w, f, req) {
      FetchedIdempotent(w, f, scheme, req);
    }
  }
}
