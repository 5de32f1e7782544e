/**
  The object store the controller talks to through its client, kept in
  memory: one map per kind, keyed by namespaced name. Which calls fail is
  decided by `Faults`, a set of references per operation, so that every
  error path of the controller can be driven. Every call issued is appended
  to a ghost log, reads included, so that what a reconciliation touched, and
  in which order, can be stated.
 */
module Store {
  import opened Wrappers
  import opened Objects

  datatype Kind = SiteKind | PvcKind | DeploymentKind

  /** A kind together with a key names one stored object. */
  datatype Ref = Ref(kind: Kind, key: ObjectKey)

  datatype Op = GetOp | CreateOp | UpdateOp

  datatype StoreError =
    | NotFound(ref: Ref)
    | AlreadyExists(ref: Ref)
    | Unavailable(op: Op, ref: Ref)

  datatype Result<T> = Ok(value: T) | Err(error: StoreError)

  /** The references on which get, create and update fail. */
  datatype Faults = Faults(get: set<Ref>, create: set<Ref>, update: set<Ref>)

  datatype Call =
    | Get(ref: Ref)
    | Create(ref: Ref)
    | Update(ref: Ref)
    | UpdateStatus(key: ObjectKey, status: SiteStatus)

  /** Whether a call reads or writes an object of the given kind. */
  predicate Touches(c: Call, kind: Kind) {
    match c
    case UpdateStatus(_, _) => kind == SiteKind
    case _ => c.ref.kind == kind
  }

  /** The store's contents. */
  datatype State = State(
    sites: map<ObjectKey, Site>,
    pvcs: map<ObjectKey, Pvc>,
    deployments: map<ObjectKey, Deployment>)

  /** Every object is stored under its own namespaced name. */
  predicate StateValid(w: State) {
    (forall k | k in w.sites :: w.sites[k].meta.Key() == k)
    && (forall k | k in w.pvcs :: w.pvcs[k].meta.Key() == k)
    && (forall k | k in w.deployments :: w.deployments[k].meta.Key() == k)
  }

  /** A get: an injected failure, the stored object, or NotFound. */
  function Fetch<T>(objects: map<ObjectKey, T>, f: Faults, ref: Ref): (r: Result<T>)
    ensures r.Ok? <==> ref !in f.get && ref.key in objects
  {
    if ref in f.get then Err(Unavailable(GetOp, ref))
    else if ref.key in objects then Ok(objects[ref.key])
    else Err(NotFound(ref))
  }

  /** The objects of one kind after a write, and the write's error if it failed. */
  datatype Written<T> = Written(objects: map<ObjectKey, T>, err: Option<StoreError>)

  /** A create: an injected failure, AlreadyExists, or the object added. */
  function Insert<T>(objects: map<ObjectKey, T>, f: Faults, ref: Ref, obj: T): (r: Written<T>)
    ensures r.err.None? <==> ref !in f.create && ref.key !in objects
    ensures r.err.None? ==> r.objects == objects[ref.key := obj]
    ensures r.err.Some? ==> r.objects == objects
  {
    if ref in f.create then Written(objects, Some(Unavailable(CreateOp, ref)))
    else if ref.key in objects then Written(objects, Some(AlreadyExists(ref)))
    else Written(objects[ref.key := obj], None)
  }

  /** An update: an injected failure, NotFound, or the object replaced. */
  function Replace<T>(objects: map<ObjectKey, T>, f: Faults, ref: Ref, obj: T): (r: Written<T>)
    ensures r.err.None? <==> ref !in f.update && ref.key in objects
    ensures r.err.None? ==> r.objects == objects[ref.key := obj]
    ensures r.err.Some? ==> r.objects == objects
  {
    if ref in f.update then Written(objects, Some(Unavailable(UpdateOp, ref)))
    else if ref.key !in objects then Written(objects, Some(NotFound(ref)))
    else Written(objects[ref.key := obj], None)
  }

  /** A status write: replaces the status of a stored site and nothing else. */
  function WithStatus(sites: map<ObjectKey, Site>, key: ObjectKey, status: SiteStatus): (r: map<ObjectKey, Site>)
    ensures r.Keys == sites.Keys
    ensures key in sites ==> r[key] == sites[key].(status := status)
    ensures forall k | k in sites && k != key :: r[k] == sites[k]
  {
    if key in sites then sites[key := sites[key].(status := status)] else sites
  }

  /** The client: the store's maps, its injected faults and the log of calls. */
  class Client {
    var sites: map<ObjectKey, Site>
    var pvcs: map<ObjectKey, Pvc>
    var deployments: map<ObjectKey, Deployment>
    var faults: Faults
    ghost var calls: seq<Call>

    function Contents(): State
      reads this
    {
      State(sites, pvcs, deployments)
    }

    ghost predicate Valid()
      reads this
    {
      StateValid(Contents())
    }

    constructor (init: State, faults: Faults)
      requires StateValid(init)
      ensures Valid() && Contents() == init && this.faults == faults && calls == []
    {
      sites, pvcs, deployments := init.sites, init.pvcs, init.deployments;
      this.faults := faults;
      calls := [];
    }

    method GetSite(key: ObjectKey) returns (r: Result<Site>)
      modifies this`calls
      ensures r == Fetch(sites, faults, Ref(SiteKind, key))
      ensures calls == old(calls) + [Get(Ref(SiteKind, key))]
    {
      r := Fetch(sites, faults, Ref(SiteKind, key));
      calls := calls + [Get(Ref(SiteKind, key))];
    }

    method GetPvc(key: ObjectKey) returns (r: Result<Pvc>)
      modifies this`calls
      ensures r == Fetch(pvcs, faults, Ref(PvcKind, key))
      ensures calls == old(calls) + [Get(Ref(PvcKind, key))]
    {
      r := Fetch(pvcs, faults, Ref(PvcKind, key));
      calls := calls + [Get(Ref(PvcKind, key))];
    }

    method GetDeployment(key: ObjectKey) returns (r: Result<Deployment>)
      modifies this`calls
      ensures r == Fetch(deployments, faults, Ref(DeploymentKind, key))
      ensures calls == old(calls) + [Get(Ref(DeploymentKind, key))]
    {
      r := Fetch(deployments, faults, Ref(DeploymentKind, key));
      calls := calls + [Get(Ref(DeploymentKind, key))];
    }

    method CreatePvc(pvc: Pvc) returns (err: Option<StoreError>)
      requires Valid()
      modifies this`pvcs, this`calls
      ensures Valid()
      ensures var w := Insert(old(pvcs), faults, Ref(PvcKind, pvc.meta.Key()), pvc);
        pvcs == w.objects && err == w.err
      ensures calls == old(calls) + [Create(Ref(PvcKind, pvc.meta.Key()))]
    {
      var w := Insert(pvcs, faults, Ref(PvcKind, pvc.meta.Key()), pvc);
      pvcs, err := w.objects, w.err;
      calls := calls + [Create(Ref(PvcKind, pvc.meta.Key()))];
    }

    method UpdatePvc(pvc: Pvc) returns (err: Option<StoreError>)
      requires Valid()
      modifies this`pvcs, this`calls
      ensures Valid()
      ensures var w := Replace(old(pvcs), faults, Ref(PvcKind, pvc.meta.Key()), pvc);
        pvcs == w.objects && err == w.err
      ensures calls == old(calls) + [Update(Ref(PvcKind, pvc.meta.Key()))]
    {
      var w := Replace(pvcs, faults, Ref(PvcKind, pvc.meta.Key()), pvc);
      pvcs, err := w.objects, w.err;
      calls := calls + [Update(Ref(PvcKind, pvc.meta.Key()))];
    }

    method CreateDeployment(d: Deployment) returns (err: Option<StoreError>)
      requires Valid()
      modifies this`deployments, this`calls
      ensures Valid()
      ensures var w := Insert(old(deployments), faults, Ref(DeploymentKind, d.meta.Key()), d);
        deployments == w.objects && err == w.err
      ensures calls == old(calls) + [Create(Ref(DeploymentKind, d.meta.Key()))]
    {
      var w := Insert(deployments, faults, Ref(DeploymentKind, d.meta.Key()), d);
      deployments, err := w.objects, w.err;
      calls := calls + [Create(Ref(DeploymentKind, d.meta.Key()))];
    }

    method UpdateDeployment(d: Deployment) returns (err: Option<StoreError>)
      requires Valid()
      modifies this`deployments, this`calls
      ensures Valid()
      ensures var w := Replace(old(deployments), faults, Ref(DeploymentKind, d.meta.Key()), d);
        deployments == w.objects && err == w.err
      ensures calls == old(calls) + [Update(Ref(DeploymentKind, d.meta.Key()))]
    {
      var w := Replace(deployments, faults, Ref(DeploymentKind, d.meta.Key()), d);
      deployments, err := w.objects, w.err;
      calls := calls + [Update(Ref(DeploymentKind, d.meta.Key()))];
    }

    /** The status subresource write; its error is never looked at, so it always lands. */
    method UpdateSiteStatus(site: Site)
      requires Valid()
      modifies this`sites, this`calls
      ensures Valid()
      ensures sites == WithStatus(old(sites), site.meta.Key(), site.status)
      ensures calls == old(calls) + [UpdateStatus(site.meta.Key(), site.status)]
    {
      sites := WithStatus(sites, site.meta.Key(), site.status);
      calls := calls + [UpdateStatus(site.meta.Key(), site.status)];
    }
  }
}
