/**
 * The Service materialiser: how the network endpoint for an AppService is
 * derived from it, in place (MutateService) or from scratch (NewService).
 */
module Resources {
  import opened Wrappers
  import opened Meta
  import opened Api

  /** The selector that picks the AppService's pods: exactly `app` mapped to its name. */
  predicate SelectsApp(selector: map<string, string>, app: AppService)
  {
    selector.Keys == {"app"} && selector["app"] == app.metadata.name
  }

  /** Every field of a Service spec that is rebuilt from the AppService (all but the cluster IP). */
  predicate RenderedFrom(spec: ServiceSpec, app: AppService)
  {
    spec.serviceType == NodePort && spec.ports == app.spec.ports && SelectsApp(spec.selector, app)
  }

  /**
   * Overwrite the Service's spec from the AppService, carrying forward the
   * cluster IP the API server assigned; the metadata is not touched.
   */
  function MutateService(app: AppService, svc: Service): (r: Service)
    ensures r.typeMeta == svc.typeMeta && r.metadata == svc.metadata
    ensures r.spec.clusterIP == svc.spec.clusterIP
    ensures RenderedFrom(r.spec, app)
  {
    svc.(spec := ServiceSpec(
      clusterIP := svc.spec.clusterIP,
      serviceType := NodePort,
      ports := app.spec.ports,
      selector := map["app" := app.metadata.name]))
  }

  /** A fresh Service for the AppService: its name, namespace and controller reference, no cluster IP yet. */
  function NewService(app: AppService): (r: Service)
    ensures r.typeMeta == TypeMeta("Service", "v1")
    ensures r.metadata.name == app.metadata.name && r.metadata.namespace == app.metadata.namespace
    ensures |r.metadata.ownerReferences| == 1
    ensures ControllerOf(r.metadata.ownerReferences) == Some(NewControllerRef(app.metadata, AppServiceGVK))
    ensures r.spec.clusterIP == "" && RenderedFrom(r.spec, app)
  {
    Service(
      TypeMeta("Service", "v1"),
      ObjectMeta(app.metadata.name, app.metadata.namespace, "", [NewControllerRef(app.metadata, AppServiceGVK)]),
      ServiceSpec("", NodePort, app.spec.ports, map["app" := app.metadata.name]))
  }

  /** A rendered spec is determined by the AppService and the cluster IP alone. */
  lemma RenderedSpecUnique(app: AppService, s1: ServiceSpec, s2: ServiceSpec)
    requires RenderedFrom(s1, app) && RenderedFrom(s2, app)
    ensures s1.clusterIP == s2.clusterIP <==> s1 == s2
  {
    assert s1.selector == s2.selector by {
      assert s1.selector.Keys == s2.selector.Keys;
    }
  }

  /** Applying MutateService a second time with the same AppService changes nothing. */
  lemma MutateServiceIdempotent(app: AppService, svc: Service)
    ensures MutateService(app, MutateService(app, svc)) == MutateService(app, svc)
  {
    RenderedSpecUnique(app, MutateService(app, MutateService(app, svc)).spec, MutateService(app, svc).spec);
  }

  /** Of the old spec, MutateService keeps the cluster IP and nothing else. */
  lemma MutateServiceForgetsOldSpec(app: AppService, s1: Service, s2: Service)
    requires s1.typeMeta == s2.typeMeta && s1.metadata == s2.metadata
    requires s1.spec.clusterIP == s2.spec.clusterIP
    ensures MutateService(app, s1) == MutateService(app, s2)
  {
    RenderedSpecUnique(app, MutateService(app, s1).spec, MutateService(app, s2).spec);
  }

  /** The two constructors agree: NewService's spec is what MutateService renders when no cluster IP is assigned. */
  lemma NewServiceAgreesWithMutate(app: AppService, svc: Service)
    requires svc.spec.clusterIP == ""
    ensures NewService(app).spec == MutateService(app, svc).spec
  {
    RenderedSpecUnique(app, NewService(app).spec, MutateService(app, svc).spec);
  }
}
