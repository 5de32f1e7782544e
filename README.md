# NginxStaticSite reconciler, modelled in Dafny

This project models the reconcile step of the k8s-nginx-operator's
NginxStaticSite controller (`NginxStaticSiteReconciler.Reconcile`) and its
storage-size helper `resourceMustParse`. One reconciliation does this:

1. It reads the site. A missing site ends the reconciliation with success.
2. It writes the status phase `Creating`.
3. It converges the PersistentVolumeClaim `<site>-pvc`: it creates the claim when it is absent, and grows its storage request when it is smaller than desired.
4. It converges the Deployment `<site>-nginx`: it creates it when it is absent, and otherwise patches whichever of replicas, image and mount path have drifted.
5. It writes phase `Running`, with the ready-replica count copied from the spec.

The reconciliation stops at the first error and returns it.

Files:

- `wrappers.dfy`: `Option`.
- `quantity.dfy`: storage quantities. `ResourceMustParse` reads a string of digits followed by a decimal or binary suffix. Any other string reads as zero. For sizes the quantity library rejects, that is the source's behaviour: the helper discards the parse error. Sizes the library accepts but the model's subset does not cover also read as zero in the model; "## Left out" lists them.
- `objects.dfy`: the objects as values.
  - `Site`, `Pvc` and `Deployment`.
  - The child names.
  - The claim and the Deployment the controller builds (`NewPvc`, `NewDeployment`).
  - The claim resize (`Resized`), the drift test (`Drifted`) and the drift patch (`Patch`).
- `store.dfy`: the object store the controller's client talks to.
  - `Client` is a class. Its fields are the stored sites, claims and Deployments, together with a set of injected faults.
  - The faults name the objects whose get, create or update fails.
  - A ghost log records every call the client is sent, in order.
  - Status writes always land, because the controller ignores their errors.
- `controller.dfy`: the controller itself.
  - `ReconcileSpec` is a pure statement of what one reconciliation does. It gives the store afterwards, the calls issued in order, and the outcome.
  - `Reconciler` is a class holding the client and the scheme. Its `Reconcile`, `Converge`, `SyncPvc` and `SyncDeployment` methods follow the source's statements and early returns. Each method is proved to do exactly what the pure statement says.
  - `SetControllerReference` fails exactly when the scheme does not register the site's kind.
- `properties.dfy`: the properties of a reconciliation, and of two reconciliations in a row, proved about `ReconcileSpec`.

The source dereferences some fields without checking them:

- the request map of an existing claim, written at line 78;
- the replica pointer of an existing Deployment, read at line 157;
- its first container and that container's first mount, read at lines 162 and 169.

`SafeToReconcile` is the precondition that these accesses do not fail. It applies only on the paths that reach them. A claim with a nil request map fails only when it would be grown. The Deployment's fields are only read when the claim step succeeded.

The reconciler writes no `Failed` phase on error, computes no status from
ready pods, and has no finalizers, deletion path, Service or Ingress
dependents, or requeue with backoff; the model has none of these either.

## Model

| member | source | states |
|---|---|---|
| Quantity.ResourceMustParse | internal/controller/nginxstaticsite_controller.go:197-199 | a size outside the grammar gives zero (the parse error is dropped); a well-formed size is zero exactly when its digits are |
| Quantity.ParseFormat | internal/controller/nginxstaticsite_controller.go:197-199 | parsing the rendering of `n` with a suffix gives `n` times the suffix's multiplier |
| Quantity.DecimalRoundTrip | internal/controller/nginxstaticsite_controller.go:197-199 | the digits of a number read back as that number |
| Quantity.MalformedParsesToZero | internal/controller/nginxstaticsite_controller.go:197-199 | in the modelled grammar, every size that does not start with a digit, the empty size included, parses to zero, as a size the library rejects does when its error is discarded; a positive quantity always comes from leading digits followed by a known suffix |
| Objects.PvcKeyFor | internal/controller/nginxstaticsite_controller.go:42 | the claim of the site stored under a key lives in the same namespace and is named with the site's name followed by `-pvc` (also the volume's claim name at line 137) |
| Objects.DeploymentKeyFor | internal/controller/nginxstaticsite_controller.go:97-99 | the Deployment of the site stored under a key lives in the same namespace and is named with the site's name followed by `-nginx` |
| Objects.Image | internal/controller/nginxstaticsite_controller.go:123 | the container image is the `nginx` repository tagged with the site's image version, the tag recoverable as the part after `nginx:`; the same image is compared at line 163 |
| Objects.ChildKeysInjective | internal/controller/nginxstaticsite_controller.go:42 | the claim name `<site>-pvc`, and likewise the Deployment name `<site>-nginx` of line 98, determines the site's key: two sites never share a dependent |
| Objects.Resized | internal/controller/nginxstaticsite_controller.go:75-78 | the resized claim requests exactly the desired storage; its other requests, metadata and access modes are kept |
| Objects.Patch | internal/controller/nginxstaticsite_controller.go:155-172 | the patched Deployment has the desired replicas, image and first mount path, is no longer drifted, and equals the original everywhere else |
| Objects.DriftedIffPatchChanges | internal/controller/nginxstaticsite_controller.go:155-174 | the patch changes the Deployment if and only if one of the three compared fields differs, so an update is issued exactly when something changes |
| Objects.StorageRequest | internal/controller/nginxstaticsite_controller.go:75 | the claim's current storage request, reading a nil request map or a missing entry as zero, as the Go map read at that line does |
| Objects.NewPvc | internal/controller/nginxstaticsite_controller.go:49-64 | the claim built for an absent one is named `<site>-pvc` in the site's namespace, has no owner yet, is read-write-once and requests exactly the desired storage and nothing else |
| Objects.NewDeployment | internal/controller/nginxstaticsite_controller.go:104-145 | the Deployment built for an absent one is named `<site>-nginx`, has no owner yet, has nothing to patch, selects exactly the pods it labels `app=<site>`, and has one container whose mount names its one volume, which is backed by the claim `<site>-pvc` |
| Objects.Drifted | internal/controller/nginxstaticsite_controller.go:157-172 | the three comparisons the update path makes: replica count, first container's image, first mount path; its meaning is stated by `DriftedIffPatchChanges` |
| Controller.WithPhase | internal/controller/nginxstaticsite_controller.go:35 | the site with its status phase set and nothing else changed: metadata, spec and ready replicas are kept |
| Controller.PvcSafe | internal/controller/nginxstaticsite_controller.go:78 | the claim step's unchecked write into the request map does not hit a nil map: an existing readable claim without one is never grown |
| Controller.DeploymentSafe | internal/controller/nginxstaticsite_controller.go:157-169 | the Deployment step's unchecked reads do not fail: an existing readable Deployment is well shaped |
| Objects.WellShaped | internal/controller/nginxstaticsite_controller.go:157-169 | the Deployment has a replica count, a first container and a first mount, the three things the drift check dereferences at lines 157, 162 and 169 |
| Controller.SafeToReconcile | internal/controller/nginxstaticsite_controller.go:78-169 | the claim step is safe whenever the site is fetched, and the Deployment step is safe whenever the claim step succeeded; nothing is asked of paths that do not reach the accesses |
| Controller.SafeWhenDereferencesHold | internal/controller/nginxstaticsite_controller.go:78-169 | a site that is not fetched needs nothing; a fetched site is safe whenever a readable claim has a request map or a zero desired size and a readable Deployment is well shaped; a safe, readable claim without a request map is never grown |
| Controller.SetControllerReference | internal/controller/nginxstaticsite_controller.go:66 | the owner reference is set, keeping the object's name, exactly when the scheme registers the site's kind; otherwise it fails and the caller skips creation (also line 147) |
| Controller.RunningStatus | internal/controller/nginxstaticsite_controller.go:187-188 | the success status has phase Running and ready replicas equal to the desired count |
| Controller.PvcStep | internal/controller/nginxstaticsite_controller.go:40-89 | the claim section as a function: it reads the claim first; any error it returns names the claim; on success the claim requests at least the parsed size, or is absent only when it cannot be owned |
| Controller.DeploymentStep | internal/controller/nginxstaticsite_controller.go:95-183 | the Deployment section as a function: it reads the Deployment first; any error it returns names the Deployment; on success the Deployment is undrifted, or is absent only when it cannot be owned |
| Controller.ConvergeSpec | internal/controller/nginxstaticsite_controller.go:40-193 | the claim step, then the Deployment step, then the Running write, stopping at the first error; its properties are proved as lemmas in ControllerProperties |
| Controller.ReconcileSpec | internal/controller/nginxstaticsite_controller.go:24-194 | one whole reconciliation as a function of the store, the faults and the scheme: the store after it, its calls in order and its outcome; every property below is proved about it |
| Controller.Reconciler.Reconcile | internal/controller/nginxstaticsite_controller.go:24-194 | the store, the call log and the outcome after `Reconcile` are those `ReconcileSpec` gives for the store before it |
| Controller.Reconciler.Converge | internal/controller/nginxstaticsite_controller.go:40-193 | the claim section, the Deployment section and the Running write, stopping at the first error, as `ConvergeSpec` states |
| Controller.Reconciler.SyncPvc | internal/controller/nginxstaticsite_controller.go:40-89 | the claim section changes only the claims and the call log, as `PvcStep` states |
| Controller.Reconciler.SyncDeployment | internal/controller/nginxstaticsite_controller.go:95-183 | the Deployment section, including the `updated` flag built field by field, changes only the Deployments and the call log, as `DeploymentStep` states |
| Store.Client.GetSite | internal/controller/nginxstaticsite_controller.go:28 | a site read returns the stored site, NotFound, or the injected failure, changes nothing and is logged |
| Store.Client.GetPvc | internal/controller/nginxstaticsite_controller.go:43 | a claim read returns the stored claim, NotFound, or the injected failure, changes nothing and is logged |
| Store.Client.GetDeployment | internal/controller/nginxstaticsite_controller.go:97-100 | a Deployment read returns the stored Deployment, NotFound, or the injected failure, changes nothing and is logged |
| Store.Client.CreatePvc | internal/controller/nginxstaticsite_controller.go:67 | a claim create adds the claim under its own name unless it fails or the name is taken, and is logged |
| Store.Client.UpdatePvc | internal/controller/nginxstaticsite_controller.go:79 | a claim update replaces the stored claim unless it fails or the claim is gone, and is logged |
| Store.Client.CreateDeployment | internal/controller/nginxstaticsite_controller.go:148 | a Deployment create adds it under its own name unless it fails or the name is taken, and is logged |
| Store.Client.UpdateDeployment | internal/controller/nginxstaticsite_controller.go:175 | a Deployment update replaces the stored one unless it fails or it is gone, and is logged |
| Store.Client.UpdateSiteStatus | internal/controller/nginxstaticsite_controller.go:36 | a status write replaces only the stored site's status, always lands (its error is ignored, also at line 189) and is logged |
| ControllerProperties.SiteMissingOrUnreadable | internal/controller/nginxstaticsite_controller.go:28-33 | a missing or unreadable site leads to the site read and nothing else; missing returns success, unreadable returns the read's own error |
| ControllerProperties.ReconcileClaimPart | internal/controller/nginxstaticsite_controller.go:40-89 | once the site is read, the claims afterwards, a claim error and the claim's create and update calls are exactly those of the claim step |
| ControllerProperties.PvcCreatedWhenAbsent | internal/controller/nginxstaticsite_controller.go:42-72 | an absent claim is created as `<site>-pvc` in the site's namespace, owned by the site, read-write-once, requesting the parsed size; a failed create returns its error; if the owner reference cannot be set, creation is skipped and the Deployment step still runs |
| ControllerProperties.StorageNeverShrinks | internal/controller/nginxstaticsite_controller.go:73-84 | no reconciliation removes a claim or lowers the storage any claim requests |
| ControllerProperties.PvcGrowsOnlyWhenSmaller | internal/controller/nginxstaticsite_controller.go:73-84 | an existing claim is updated if and only if the desired size is strictly larger; it then is exactly `Resized(before, desired)`: it requests the desired size and keeps its other requests, metadata and access modes; otherwise, or if the update fails, it is unchanged |
| ControllerProperties.ReconcileAfterClaim | internal/controller/nginxstaticsite_controller.go:95-193 | once the claim step succeeds, the Deployments afterwards, the outcome and the Deployment's create and update calls are exactly those of the Deployment step |
| ControllerProperties.DeploymentCreatedWhenAbsent | internal/controller/nginxstaticsite_controller.go:102-152 | an absent Deployment is created as `<site>-nginx`, owned by the site, with the spec's replicas and node selector, `app=<site>` selector and pod labels, one `nginx` container of image `nginx:<version>` mounting `static-content` at the static file path, and a `static-content` volume on the claim `<site>-pvc`; a failed create returns its error; an unownable one is skipped |
| ControllerProperties.DeploymentPatchedOnlyOnDrift | internal/controller/nginxstaticsite_controller.go:153-180 | an existing Deployment is updated if and only if replicas, first image or first mount path differ; after the update the three equal the desired values and nothing else has changed; undrifted, or on a failed update, it is unchanged |
| ControllerProperties.FailureAfterFetch | internal/controller/nginxstaticsite_controller.go:35-183 | any failure after the site is fetched is on a dependent, leaves the site marked Creating, and Creating is the only status written |
| ControllerProperties.ClaimFailure | internal/controller/nginxstaticsite_controller.go:40-89 | a failure on the claim names `<site>-pvc`, leaves the Deployments unchanged and comes before any call on a Deployment |
| ControllerProperties.DeploymentFailure | internal/controller/nginxstaticsite_controller.go:95-183 | a failure on the Deployment names `<site>-nginx` and happens only once the claim step succeeded |
| ControllerProperties.FailFast | internal/controller/nginxstaticsite_controller.go:28-183 | a failure is returned at once: a site-read failure writes nothing; a claim failure comes before any Deployment call and leaves the Deployments as they were; a Deployment failure comes only after the claim step succeeded; past the site read, the only status written on failure is Creating |
| ControllerProperties.SuccessReportsRunning | internal/controller/nginxstaticsite_controller.go:187-189 | on success the site's status is phase Running with ready replicas copied from the spec, nothing else of the site changes, and the statuses written are Creating (line 35) then Running, the last call issued |
| ControllerProperties.CallsInOrder | internal/controller/nginxstaticsite_controller.go:24-183 | the site read comes first, and every call on the claim precedes every call on the Deployment |
| ControllerProperties.ReconcileWritesOnlyItsStatus | internal/controller/nginxstaticsite_controller.go:35-36 | only the requested site is written, and only its status (also lines 187-189) |
| ControllerProperties.ReconcileTouchesOnlyItsOwnObjects | internal/controller/nginxstaticsite_controller.go:40-183 | only the site's own claim and Deployment may appear or change; every other one stays as it was; every object stays stored under its own name |
| ControllerProperties.ReconcileCallsNameOwnObjects | internal/controller/nginxstaticsite_controller.go:24-194 | every call names the site, `<site>-pvc` or `<site>-nginx` |
| ControllerProperties.PvcStepSettles | internal/controller/nginxstaticsite_controller.go:40-89 | a successful claim step leaves a claim that requests at least the desired size, or none when it cannot be owned |
| ControllerProperties.DeploymentStepSettles | internal/controller/nginxstaticsite_controller.go:95-183 | a successful Deployment step leaves an undrifted Deployment, or none when it cannot be owned |
| ControllerProperties.SettledPvcStepOnlyReads | internal/controller/nginxstaticsite_controller.go:73-84 | on a settled claim the claim step only reads it |
| ControllerProperties.SettledDeploymentStepOnlyReads | internal/controller/nginxstaticsite_controller.go:153-180 | on an undrifted Deployment the Deployment step only reads it |
| ControllerProperties.SuccessSettles | internal/controller/nginxstaticsite_controller.go:24-194 | a successful reconciliation leaves both dependents settled and the status Running |
| ControllerProperties.ReconcileSettled | internal/controller/nginxstaticsite_controller.go:24-194 | with both dependents settled, a reconciliation issues the site read, the Creating write, the two dependent reads and the Running write, and nothing else |
| ControllerProperties.FetchedIdempotent | internal/controller/nginxstaticsite_controller.go:24-194 | reconciling again a stored site after a success leaves the store as it is and issues exactly five calls: the site get, the Creating write, the claim get, the Deployment get and the write of the stored Running status |
| ControllerProperties.ReconcileIdempotent | internal/controller/nginxstaticsite_controller.go:24-194 | reconciling again, with the same faults, after a success leaves the store unchanged and succeeds; no create or update is issued, only the reads and the two status writes |

## Left out

- The client transport, the request and result plumbing, and logging. The store is a set of in-memory maps. Failures come from injected faults. The result is reduced to its error, because the source always returns an empty requeue result.
- `SetupWithManager` (lines 202-206) is not modelled. It is manager and watch wiring with no logic.
- `SetControllerReference` is not modelled internally. It is an abstract owner-reference setter that fails exactly when the scheme does not register the site's kind. Its failure silently skips a creation, as at lines 66 and 147.
- Quantity.ResourceMustParse: accepts only a digit string with an optional decimal (k, M, G, T, P, E) or binary (Ki to Ei) suffix, and reads every other size as zero. That includes sizes the quantity library accepts: decimal fractions (`1.5Gi`, `.5Gi`, and a trailing point as in `1.Gi`), signs (`+1Gi`), exponents, and the milli, micro and nano suffixes (m, u, n). For example, `ResourceMustParse("1.5Gi")` is 0 where the library gives 1.5 GiB. So a site asking for `1.5Gi` gets a new claim requesting 0, and an existing claim is never grown for it. Quantities are unbounded naturals; how the library represents or limits values beyond 2^63-1 is not modelled.
- Quantity.MalformedParsesToZero: holds of the modelled grammar only. The library reads `+1Gi` as 1 GiB, `.5Gi` as 512 MiB and `1.Gi` (a trailing point) as 1 GiB; the model reads all three as 0.
- Quantity.ParseFormat: states `n` times the suffix's multiplier for every `n`, with no upper bound. The library's handling of values beyond 2^63-1 is not modelled (for example, `Format(16, "Ei")` parses to more than 2^63-1 here).
- Controller.Reconciler.Reconcile: requires `SafeToReconcile`. Where the source dereferences a nil field (lines 78, 157, 162, 169), it panics. The model requires that those paths are not taken, and does not model the panic.
- Errors from the two status writes (lines 36 and 189) are not modelled, because the source ignores them. The writes always land.
- Optimistic concurrency is not modelled: resource versions and update conflicts from concurrent writers. Only injected faults make an update fail.
- Controller.Reconciler.SyncDeployment: the source edits the first container through a pointer into the fetched Deployment. The model edits a copy and writes it back, which is equivalent because nothing else holds the pointer.
- Replica counts are unbounded integers. The 32-bit range of the source's replica field is not modelled, because nothing in the reconciler does arithmetic on it.
- A created object's other fields are not modelled: server-set metadata, default values and resource versions.
- Concurrency, watches and requeue scheduling are not modelled. They belong to the caller.
