/**
 * Properties of the two callbacks Reconcile hands to CreateOrUpdate: when
 * they fail, what they produce, that the AppService ends up controlling what
 * they produce, and that they leave their own output alone.
 */
module CallbackProperties {
  import opened Wrappers
  import opened Meta
  import opened Api
  import opened Resources
  import opened Controllers

  /**
   * The Deployment callback fails exactly when another owner controls the
   * Deployment, reporting that owner's reference; otherwise it is the
   * Deployment with `MutateDeployment`'s spec and the AppService as controller.
   */
  lemma DeploymentMutationFails(app: AppService, md: MutateDeploymentFn, d: Deployment)
    ensures DeploymentMutation(app, md)(DeploymentObject(d)).Failure? <==>
      ControlledByOther(d.metadata.ownerReferences, NewControllerRef(app.metadata, AppServiceGVK))
    ensures DeploymentMutation(app, md)(DeploymentObject(d)).Failure? ==>
      DeploymentMutation(app, md)(DeploymentObject(d)).error == AlreadyOwned(ControllerOf(d.metadata.ownerReferences).value)
    ensures DeploymentMutation(app, md)(DeploymentObject(d)).Success? ==>
      var o := DeploymentMutation(app, md)(DeploymentObject(d)).value;
      && o.DeploymentObject? && o.Key() == DeploymentObject(d).Key()
      && o.deployment == d.(spec := md(app, d)).(metadata := o.deployment.metadata)
      && ControlledBy(o, app)
  {
    var d1 := d.(spec := md(app, d));
    assert DeploymentMutation(app, md)(DeploymentObject(d)) == SetOwner(app, DeploymentObject(d1));
  }

  /**
   * The Service callback fails exactly when another owner controls the
   * Service, reporting that owner's reference; otherwise it is `MutateService`'s
   * output with the AppService as controller.
   */
  lemma ServiceMutationFails(app: AppService, s: Service)
    ensures ServiceMutation(app)(ServiceObject(s)).Failure? <==>
      ControlledByOther(s.metadata.ownerReferences, NewControllerRef(app.metadata, AppServiceGVK))
    ensures ServiceMutation(app)(ServiceObject(s)).Failure? ==>
      ServiceMutation(app)(ServiceObject(s)).error == AlreadyOwned(ControllerOf(s.metadata.ownerReferences).value)
    ensures ServiceMutation(app)(ServiceObject(s)).Success? ==>
      var o := ServiceMutation(app)(ServiceObject(s)).value;
      && o.ServiceObject? && o.Key() == ServiceObject(s).Key()
      && o.service == MutateService(app, s).(metadata := o.service.metadata)
      && ControlledBy(o, app)
  {
  }

  /**
   * What is asked of the Deployment materialiser for a second run to be a
   * no-op: the spec it produced is produced again from the Deployment that
   * carries it, whatever owner references were set meanwhile.
   */
  ghost predicate Settles(md: MutateDeploymentFn)
  {
    forall a: AppService, d: Deployment, m: ObjectMeta ::
      md(a, Deployment(d.typeMeta, m, md(a, d))) == md(a, d)
  }

  /** The Deployment callback leaves its own output alone. */
  lemma DeploymentMutationFixedPoint(app: AppService, md: MutateDeploymentFn, o: Object)
    requires Settles(md) && o.DeploymentObject?
    requires DeploymentMutation(app, md)(o).Success?
    ensures DeploymentMutation(app, md)(o).value.DeploymentObject?
    ensures DeploymentMutation(app, md)(DeploymentMutation(app, md)(o).value) == DeploymentMutation(app, md)(o)
  {
    var d := o.deployment;
    var d1 := d.(spec := md(app, d));
    SetControllerReferenceIdempotent(app.metadata, AppServiceGVK, d1.metadata);
    var o1 := DeploymentMutation(app, md)(o).value;
    assert md(app, o1.deployment) == md(app, d);
  }

  /** The Service callback leaves its own output alone. */
  lemma ServiceMutationFixedPoint(app: AppService, o: Object)
    requires o.ServiceObject?
    requires ServiceMutation(app)(o).Success?
    ensures ServiceMutation(app)(o).value.ServiceObject?
    ensures ServiceMutation(app)(ServiceMutation(app)(o).value) == ServiceMutation(app)(o)
  {
    var s1 := MutateService(app, o.service);
    SetControllerReferenceIdempotent(app.metadata, AppServiceGVK, s1.metadata);
    var o1 := ServiceMutation(app)(o).value;
    MutateServiceForgetsOldSpec(app, o1.service, s1.(metadata := o1.service.metadata));
    MutateServiceIdempotent(app, o.service);
  }

  /** Whatever either callback produces for `app` is controlled by `app`. */
  ghost predicate Owning(cb: Callbacks)
    requires Applicable(cb)
  {
    && (forall app: AppService, o: Object | o.DeploymentObject? && cb.deployment(app)(o).Success? ::
          ControlledBy(cb.deployment(app)(o).value, app))
    && (forall app: AppService, o: Object | o.ServiceObject? && cb.service(app)(o).Success? ::
          ControlledBy(cb.service(app)(o).value, app))
  }

  /** Each callback, run again on what it produced, produces it again. */
  ghost predicate Settling(cb: Callbacks)
    requires Applicable(cb)
  {
    && (forall app: AppService, o: Object |
          o.DeploymentObject? && cb.deployment(app)(o).Success? && cb.deployment(app)(o).value.DeploymentObject? ::
          cb.deployment(app)(cb.deployment(app)(o).value) == cb.deployment(app)(o))
    && (forall app: AppService, o: Object |
          o.ServiceObject? && cb.service(app)(o).Success? && cb.service(app)(o).value.ServiceObject? ::
          cb.service(app)(cb.service(app)(o).value) == cb.service(app)(o))
  }

  /** The reconciler's callbacks make the AppService the controller of what they produce. */
  lemma ReconcilerCallbacksOwn(md: MutateDeploymentFn)
    ensures Owning(ReconcilerCallbacks(md))
  {
    var cb := ReconcilerCallbacks(md);
    forall app: AppService, o: Object | o.DeploymentObject? && cb.deployment(app)(o).Success?
      ensures ControlledBy(cb.deployment(app)(o).value, app)
    {
      DeploymentMutationFails(app, md, o.deployment);
    }
    forall app: AppService, o: Object | o.ServiceObject? && cb.service(app)(o).Success?
      ensures ControlledBy(cb.service(app)(o).value, app)
    {
      ServiceMutationFails(app, o.service);
    }
  }

  /** With a settling Deployment materialiser, the reconciler's callbacks leave their own output alone. */
  lemma ReconcilerCallbacksSettle(md: MutateDeploymentFn)
    requires Settles(md)
    ensures Settling(ReconcilerCallbacks(md))
  {
    var cb := ReconcilerCallbacks(md);
    forall app: AppService, o: Object |
      o.DeploymentObject? && cb.deployment(app)(o).Success? && cb.deployment(app)(o).value.DeploymentObject?
      ensures cb.deployment(app)(cb.deployment(app)(o).value) == cb.deployment(app)(o)
    {
      DeploymentMutationFixedPoint(app, md, o);
    }
    forall app: AppService, o: Object |
      o.ServiceObject? && cb.service(app)(o).Success? && cb.service(app)(o).value.ServiceObject?
      ensures cb.service(app)(cb.service(app)(o).value) == cb.service(app)(o)
    {
      ServiceMutationFixedPoint(app, o);
    }
  }
}
