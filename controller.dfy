/**
 * The AppService reconciler: fetch the parent AppService, then create or
 * update its Deployment and its Service, each named after the parent and
 * controlled by it. `ReconcileSpec` and `CreateOrUpdateSpec` state, on store
 * values, what the imperative `AppServiceReconciler.Reconcile` and
 * `CreateOrUpdate` do to the client; the modules CreateOrUpdateProperties,
 * CallbackProperties, ReconcileProperties and ReconcilerProperties state the
 * properties of that behaviour.
 */
module Controllers {
  import opened Wrappers
  import opened Meta
  import opened Api
  import opened Store
  import opened Resources

  /** `controllerutil.OperationResult`: what CreateOrUpdate did. */
  datatype OperationResult = Unchanged | Created | Updated

  /** `ctrl.Result`: whether, and after how long, to run the request again. */
  datatype ReconcileResult = ReconcileResult(requeue: bool, requeueAfter: nat)

  const EmptyResult := ReconcileResult(false, 0)

  /** A mutate callback: brings an object of one kind to its desired state, or fails. */
  type MutateFn = Object --> Result<Object, ApiError>

  /** `resources.MutateDeployment`, whose source is not part of this model: the new Deployment spec. */
  type MutateDeploymentFn = (AppService, Deployment) -> DeploymentSpec

  /** The callback accepts every object of the given kind. */
  ghost predicate AppliesTo(f: MutateFn, kind: ObjectKind)
  {
    forall o: Object | o.Kind() == kind :: f.requires(o)
  }

  // ---------------------------------------------------------------------
  // ctrl.CreateOrUpdate

  /** Run the callback and insist that it kept the object's key. */
  function Mutate(f: MutateFn, key: StoreKey, obj: Object): (r: Result<Object, ApiError>)
    requires f.requires(obj)
    ensures r.Success? ==> f(obj) == r && r.value.Key() == key
    ensures r.Failure? ==> (f(obj).Failure? && r == f(obj)) || (f(obj).Success? && r.error == KeyMutated)
    // a callback success fails the check exactly when it moved the object to another key
    ensures f(obj).Success? && f(obj).value.Key() == key ==> r == f(obj)
    ensures f(obj).Success? && f(obj).value.Key() != key ==> r == Failure(KeyMutated)
  {
    match f(obj)
    case Failure(e) => Failure(e)
    case Success(o) => if o.Key() != key then Failure(KeyMutated) else Success(o)
  }

  /** The object a CreateOrUpdate callback sees: the live one, or the caller's blank one if none is filed. */
  function Base(w: World, obj: Object): (b: Object)
    requires WellFormed(w)
    ensures b.Key() == obj.Key()
  {
    if obj.Key() in w.objects then w.objects[obj.Key()] else obj
  }

  /**
   * `ctrl.CreateOrUpdate` on store values: get the object under `obj`'s key;
   * if there is none, mutate `obj` and create it; otherwise mutate the live
   * object and update it unless the callback left it as it was.
   */
  function CreateOrUpdateSpec(w: World, obj: Object, f: MutateFn): (r: (Result<OperationResult, ApiError>, World))
    requires WellFormed(w) && AppliesTo(f, obj.Kind())
    ensures WellFormed(r.1) && r.1.faults == w.faults
    // nothing is stored unless the whole operation succeeds
    ensures r.0.Failure? ==> r.1.objects == w.objects
    // on success the key holds the callback's result on the live object, or on the blank one
    ensures r.0.Success? ==>
      && Mutate(f, obj.Key(), Base(w, obj)).Success?
      && r.1.objects == w.objects[obj.Key() := Mutate(f, obj.Key(), Base(w, obj)).value]
  {
    var key := obj.Key();
    var (fetched, w1) := Fetch(w, key);
    if fetched.Failure? then
      if !fetched.error.NotFound? then (Failure(fetched.error), w1)
      else match Mutate(f, key, obj)
        case Failure(e) => (Failure(e), w1)
        case Success(o) =>
          var (created, w2) := CreateStep(w1, o);
          if created.Fail? then (Failure(created.error), w2) else (Success(Created), w2)
    else
      var live := fetched.value;
      assert live.Key() == key;
      match Mutate(f, key, live)
      case Failure(e) => (Failure(e), w1)
      case Success(o) =>
        if o == live then (Success(Unchanged), w1)
        else
          var (updated, w2) := UpdateStep(w1, o);
          if updated.Fail? then (Failure(updated.error), w2) else (Success(Updated), w2)
  }

  method CreateOrUpdate(c: Client, obj: Object, f: MutateFn) returns (r: Result<OperationResult, ApiError>)
    requires c.Valid() && AppliesTo(f, obj.Kind())
    modifies c
    ensures c.Valid()
    ensures (r, c.State()) == CreateOrUpdateSpec(old(c.State()), obj, f)
  {
    var key := obj.Key();
    var fetched := c.Get(key);
    if fetched.Failure? {
      if !fetched.error.NotFound? {
        return Failure(fetched.error);
      }
      var mutated := Mutate(f, key, obj);
      if mutated.Failure? {
        return Failure(mutated.error);
      }
      var created := c.Create(mutated.value);
      if created.Fail? {
        return Failure(created.error);
      }
      return Success(Created);
    }
    var existing := fetched.value;
    assert existing.Key() == key;
    var mutated := Mutate(f, key, existing);
    if mutated.Failure? {
      return Failure(mutated.error);
    }
    if mutated.value == existing {
      return Success(Unchanged);
    }
    var updated := c.Update(mutated.value);
    if updated.Fail? {
      return Failure(updated.error);
    }
    return Success(Updated);
  }

  // ---------------------------------------------------------------------
  // The two mutate callbacks of Reconcile

  /** Whether `app` holds the object's controller reference. */
  predicate ControlledBy(o: Object, app: AppService)
  {
    ControllerOf(o.Metadata().ownerReferences) == Some(NewControllerRef(app.metadata, AppServiceGVK))
  }

  /** `controllerutil.SetControllerReference(app, o, scheme)` on a whole object. */
  function SetOwner(app: AppService, o: Object): (r: Result<Object, ApiError>)
    ensures r.Failure? <==> ControlledByOther(o.Metadata().ownerReferences, NewControllerRef(app.metadata, AppServiceGVK))
    ensures r.Failure? ==> r.error == AlreadyOwned(ControllerOf(o.Metadata().ownerReferences).value)
    ensures r.Failure? ==> r.error.controller in o.Metadata().ownerReferences
    ensures r.Success? ==> r.value == o.WithMetadata(r.value.Metadata())
    ensures r.Success? ==> r.value.Key() == o.Key() && ControlledBy(r.value, app)
    ensures r.Success? ==>
      KeepsOthers(o.Metadata().ownerReferences, r.value.Metadata().ownerReferences, NewControllerRef(app.metadata, AppServiceGVK))
  {
    match SetControllerReference(app.metadata, AppServiceGVK, o.Metadata())
    case Success(m) => Success(o.WithMetadata(m))
    case Failure(c) => Failure(AlreadyOwned(c))
  }

  /** The Deployment callback: MutateDeployment, then make `app` the controller. */
  function DeploymentMutation(app: AppService, md: MutateDeploymentFn): (f: MutateFn)
    ensures AppliesTo(f, DeploymentKind)
  {
    (o: Object) requires o.DeploymentObject? =>
      SetOwner(app, DeploymentObject(o.deployment.(spec := md(app, o.deployment))))
  }

  /** The Service callback: MutateService, then make `app` the controller. */
  function ServiceMutation(app: AppService): (f: MutateFn)
    ensures AppliesTo(f, ServiceKind)
  {
    (o: Object) requires o.ServiceObject? =>
      SetOwner(app, ServiceObject(MutateService(app, o.service)))
  }

  // ---------------------------------------------------------------------
  // Reconcile

  function ParentKey(req: NamespacedName): StoreKey
  {
    StoreKey(AppServiceKind, req.namespace, req.name)
  }

  function DeploymentKey(req: NamespacedName): StoreKey
  {
    StoreKey(DeploymentKind, req.namespace, req.name)
  }

  function ServiceKey(req: NamespacedName): StoreKey
  {
    StoreKey(ServiceKind, req.namespace, req.name)
  }

  /** The zero-valued Deployment carrying only the parent's name and namespace. */
  function BlankDeployment(app: AppService): (d: Deployment)
    ensures d.metadata.name == app.metadata.name && d.metadata.namespace == app.metadata.namespace
  {
    Deployment(TypeMeta("", ""), ObjectMeta(app.metadata.name, app.metadata.namespace, "", []),
               DeploymentSpec(0, map[], ""))
  }

  /** The zero-valued Service carrying only the parent's name and namespace. */
  function BlankService(app: AppService): (s: Service)
    ensures s.metadata.name == app.metadata.name && s.metadata.namespace == app.metadata.namespace
    ensures s.spec.clusterIP == ""
  {
    Service(TypeMeta("", ""), ObjectMeta(app.metadata.name, app.metadata.namespace, "", []),
            ServiceSpec("", Unset, [], map[]))
  }

  /** The AppService filed under the request's key. */
  function ParentOf(w: World, req: NamespacedName): (app: AppService)
    requires WellFormed(w) && ParentKey(req) in w.objects
    ensures app.metadata.name == req.name && app.metadata.namespace == req.namespace
  {
    assert w.objects[ParentKey(req)].Key() == ParentKey(req);
    w.objects[ParentKey(req)].appService
  }

  /** The two mutate callbacks Reconcile passes to CreateOrUpdate, for each fetched AppService. */
  datatype Callbacks = Callbacks(deployment: AppService -> MutateFn, service: AppService -> MutateFn)

  /** Each callback accepts every object of the kind it is given. */
  ghost predicate Applicable(cb: Callbacks)
  {
    forall app: AppService :: AppliesTo(cb.deployment(app), DeploymentKind) && AppliesTo(cb.service(app), ServiceKind)
  }

  /** The callbacks `AppServiceReconciler.Reconcile` builds. */
  function ReconcilerCallbacks(md: MutateDeploymentFn): (cb: Callbacks)
    ensures Applicable(cb)
  {
    Callbacks((app: AppService) => DeploymentMutation(app, md), (app: AppService) => ServiceMutation(app))
  }

  function DeploymentStep(w: World, app: AppService, cb: Callbacks): (r: (Result<OperationResult, ApiError>, World))
    requires WellFormed(w) && Applicable(cb)
    ensures WellFormed(r.1) && r.1.faults == w.faults
  {
    CreateOrUpdateSpec(w, DeploymentObject(BlankDeployment(app)), cb.deployment(app))
  }

  function ServiceStep(w: World, app: AppService, cb: Callbacks): (r: (Result<OperationResult, ApiError>, World))
    requires WellFormed(w) && Applicable(cb)
    ensures WellFormed(r.1) && r.1.faults == w.faults
  {
    CreateOrUpdateSpec(w, ServiceObject(BlankService(app)), cb.service(app))
  }

  /**
   * One reconciliation of the request on store values, for given callbacks:
   * the error Reconcile returns (its `ctrl.Result` is always empty) and the
   * store afterwards.
   */
  function ReconcileWith(w: World, req: NamespacedName, cb: Callbacks): (r: (Outcome<ApiError>, World))
    requires WellFormed(w) && Applicable(cb)
    ensures WellFormed(r.1) && r.1.faults == w.faults
  {
    var (fetched, w1) := Fetch(w, ParentKey(req));
    if fetched.Failure? then
      (if fetched.error.NotFound? then Pass else Fail(fetched.error), w1)
    else
      var app := ParentOf(w, req);
      var (deployed, w2) := DeploymentStep(w1, app, cb);
      if deployed.Failure? then (Fail(deployed.error), w2)
      else
        var (served, w3) := ServiceStep(w2, app, cb);
        if served.Failure? then (Fail(served.error), w3) else (Pass, w3)
  }

  /** One reconciliation of the request by `AppServiceReconciler` with Deployment materialiser `md`. */
  function ReconcileSpec(w: World, req: NamespacedName, md: MutateDeploymentFn): (r: (Outcome<ApiError>, World))
    requires WellFormed(w)
    ensures WellFormed(r.1) && r.1.faults == w.faults
  {
    ReconcileWith(w, req, ReconcilerCallbacks(md))
  }

  /** `AppServiceReconciler`: the embedded client and the Deployment materialiser it calls. */
  class AppServiceReconciler {
    const client: Client
    const mutateDeployment: MutateDeploymentFn

    constructor (client: Client, mutateDeployment: MutateDeploymentFn)
      ensures this.client == client && this.mutateDeployment == mutateDeployment
    {
      this.client := client;
      this.mutateDeployment := mutateDeployment;
    }

    method Reconcile(req: NamespacedName) returns (result: ReconcileResult, err: Outcome<ApiError>)
      requires client.Valid()
      modifies client
      ensures client.Valid()
      ensures result == EmptyResult
      ensures (err, client.State()) == ReconcileSpec(old(client.State()), req, mutateDeployment)
    {
      var fetched := client.Get(ParentKey(req));
      if fetched.Failure? {
        if !fetched.error.NotFound? {
          return EmptyResult, Fail(fetched.error);
        }
        return EmptyResult, Pass;
      }
      assert fetched.value.Key() == ParentKey(req);
      var appService := fetched.value.appService;

      var deploy := BlankDeployment(appService);
      var op := CreateOrUpdate(client, DeploymentObject(deploy), DeploymentMutation(appService, mutateDeployment));
      if op.Failure? {
        return EmptyResult, Fail(op.error);
      }

      var svc := BlankService(appService);
      op := CreateOrUpdate(client, ServiceObject(svc), ServiceMutation(appService));
      if op.Failure? {
        return EmptyResult, Fail(op.error);
      }

      return EmptyResult, Pass;
    }
  }
}
