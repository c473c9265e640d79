/**
 * Properties of `AppServiceReconciler.Reconcile` itself, with the callbacks
 * it builds: after a successful run the AppService controls a Deployment and
 * a Service carrying the specs derived from it; it succeeds unless another
 * owner controls a child or the store fails; everything it writes is
 * controlled by the AppService; and a second run writes nothing.
 */
module ReconcilerProperties {
  import opened Wrappers
  import opened Meta
  import opened Api
  import opened Store
  import opened Resources
  import opened Controllers
  import opened CreateOrUpdateProperties
  import opened CallbackProperties
  import opened ReconcileProperties

  /** The Deployment the Deployment callback sees: the live one or the blank one. */
  function LiveDeployment(w: World, req: NamespacedName, app: AppService): Deployment
    requires WellFormed(w)
  {
    if DeploymentKey(req) in w.objects then
      assert w.objects[DeploymentKey(req)].Key() == DeploymentKey(req);
      w.objects[DeploymentKey(req)].deployment
    else BlankDeployment(app)
  }

  /** The Service the Service callback sees: the live one or the blank one. */
  function LiveService(w: World, req: NamespacedName, app: AppService): Service
    requires WellFormed(w)
  {
    if ServiceKey(req) in w.objects then
      assert w.objects[ServiceKey(req)].Key() == ServiceKey(req);
      w.objects[ServiceKey(req)].service
    else BlankService(app)
  }

  /**
   * After a successful reconciliation of an existing AppService both children
   * exist under its name and namespace, are controlled by it, and carry the
   * specs the materialisers derive from it and from the child found before
   * (the Service keeps that child's cluster IP).
   */
  lemma ReconcileSuccess(w: World, req: NamespacedName, md: MutateDeploymentFn)
    requires WellFormed(w)
    requires ParentKey(req) in w.objects && Call(Get, ParentKey(req)) !in w.faults
    requires ReconcileSpec(w, req, md).0 == Pass
    ensures var w' := ReconcileSpec(w, req, md).1; var app := ParentOf(w, req);
      && DeploymentKey(req) in w'.objects && w'.objects[DeploymentKey(req)].DeploymentObject?
      && ControlledBy(w'.objects[DeploymentKey(req)], app)
      && w'.objects[DeploymentKey(req)].deployment.spec == md(app, LiveDeployment(w, req, app))
    ensures var w' := ReconcileSpec(w, req, md).1; var app := ParentOf(w, req);
      && ServiceKey(req) in w'.objects && w'.objects[ServiceKey(req)].ServiceObject?
      && ControlledBy(w'.objects[ServiceKey(req)], app)
      && w'.objects[ServiceKey(req)].service.spec == MutateService(app, LiveService(w, req, app)).spec
  {
    var cb := ReconcilerCallbacks(md);
    var app := ParentOf(w, req);
    ReconcileStores(w, req, cb);
    assert Base(w, DeploymentObject(BlankDeployment(app))) == DeploymentObject(LiveDeployment(w, req, app));
    DeploymentMutationFails(app, md, LiveDeployment(w, req, app));
    assert Base(w, ServiceObject(BlankService(app))) == ServiceObject(LiveService(w, req, app));
    ServiceMutationFails(app, LiveService(w, req, app));
  }

  /**
   * Convergence: when the AppService exists, the store answers every call on
   * the three keys, and no other owner controls an existing child,
   * Reconcile succeeds.
   */
  lemma ReconcileConverges(w: World, req: NamespacedName, md: MutateDeploymentFn)
    requires WellFormed(w) && ParentKey(req) in w.objects
    requires Reliable(w, ParentKey(req)) && Reliable(w, DeploymentKey(req)) && Reliable(w, ServiceKey(req))
    requires var ref := NewControllerRef(ParentOf(w, req).metadata, AppServiceGVK);
      && (DeploymentKey(req) in w.objects ==> !ControlledByOther(w.objects[DeploymentKey(req)].Metadata().ownerReferences, ref))
      && (ServiceKey(req) in w.objects ==> !ControlledByOther(w.objects[ServiceKey(req)].Metadata().ownerReferences, ref))
    ensures ReconcileSpec(w, req, md).0 == Pass
  {
    var cb := ReconcilerCallbacks(md);
    var app := ParentOf(w, req);
    assert Base(w, DeploymentObject(BlankDeployment(app))) == DeploymentObject(LiveDeployment(w, req, app));
    DeploymentMutationFails(app, md, LiveDeployment(w, req, app));
    assert Base(w, ServiceObject(BlankService(app))) == ServiceObject(LiveService(w, req, app));
    ServiceMutationFails(app, LiveService(w, req, app));
    ReconcileSucceeds(w, req, cb);
  }

  /**
   * Every child Reconcile creates or changes is controlled by the AppService
   * it was reconciled for.
   */
  lemma ReconcileWritesOwned(w: World, req: NamespacedName, md: MutateDeploymentFn)
    requires WellFormed(w)
    ensures var w' := ReconcileSpec(w, req, md).1;
      forall k | k in w'.objects && (k !in w.objects || w'.objects[k] != w.objects[k]) ::
        ParentKey(req) in w.objects && ControlledBy(w'.objects[k], ParentOf(w, req))
  {
    ReconcilerCallbacksOwn(md);
    ReconcileWritesOwnedBy(w, req, ReconcilerCallbacks(md));
  }

  /**
   * Idempotence: right after a successful reconciliation, reconciling the same
   * request again succeeds, changes no object and makes no write, provided
   * the Deployment materialiser settles and the children can be read.
   */
  lemma ReconcileIdempotent(w: World, req: NamespacedName, md: MutateDeploymentFn)
    requires WellFormed(w) && Settles(md)
    requires Call(Get, DeploymentKey(req)) !in w.faults && Call(Get, ServiceKey(req)) !in w.faults
    requires ReconcileSpec(w, req, md).0 == Pass
    ensures var w1 := ReconcileSpec(w, req, md).1;
      && ReconcileSpec(w1, req, md).0 == Pass
      && ReconcileSpec(w1, req, md).1.objects == w1.objects
      && forall c | c in Since(ReconcileSpec(w1, req, md).1, |w1.journal|) :: c.verb == Get
  {
    ReconcilerCallbacksSettle(md);
    ReconcileRepeats(w, req, ReconcilerCallbacks(md));
  }
}
