/**
 * The object kinds the reconciler touches, reduced to the fields it reads or
 * writes: the AppService custom resource, Deployments and Services, the keys
 * the object store files them under, and the errors store calls report.
 */
module Api {
  import opened Meta

  /** Group, version and kind under which the AppService type is registered. */
  const AppServiceGVK := GroupVersionKind("app.ydzs.io", "v1beta1", "AppService")

  /** One exposed port (`corev1.ServicePort`). */
  datatype ServicePort = ServicePort(name: string, protocol: string, port: int, targetPort: int, nodePort: int)

  /** The desired state the user writes: replica count, image and exposed ports. */
  datatype AppServiceSpec = AppServiceSpec(size: int, image: string, ports: seq<ServicePort>)

  datatype AppService = AppService(typeMeta: TypeMeta, metadata: ObjectMeta, spec: AppServiceSpec)

  /** `corev1.ServiceType`; `Unset` is the empty string of a zero-valued Service. */
  datatype ServiceType = Unset | ClusterIP | NodePort | LoadBalancer | ExternalName

  datatype ServiceSpec = ServiceSpec(
    clusterIP: string, serviceType: ServiceType,
    ports: seq<ServicePort>, selector: map<string, string>)

  datatype Service = Service(typeMeta: TypeMeta, metadata: ObjectMeta, spec: ServiceSpec)

  /** The Deployment spec fields; what the reconciler puts there is left to its MutateDeployment parameter. */
  datatype DeploymentSpec = DeploymentSpec(replicas: int, selector: map<string, string>, image: string)

  datatype Deployment = Deployment(typeMeta: TypeMeta, metadata: ObjectMeta, spec: DeploymentSpec)

  datatype ObjectKind = AppServiceKind | DeploymentKind | ServiceKind

  /** The store files each object under its kind, namespace and name. */
  datatype StoreKey = StoreKey(kind: ObjectKind, namespace: string, name: string)

  /** Any object the store may hold. */
  datatype Object =
    | AppServiceObject(appService: AppService)
    | DeploymentObject(deployment: Deployment)
    | ServiceObject(service: Service)
  {
    function Kind(): ObjectKind
    {
      match this
      case AppServiceObject(_) => AppServiceKind
      case DeploymentObject(_) => DeploymentKind
      case ServiceObject(_) => ServiceKind
    }

    function Metadata(): ObjectMeta
    {
      match this
      case AppServiceObject(a) => a.metadata
      case DeploymentObject(d) => d.metadata
      case ServiceObject(s) => s.metadata
    }

    function WithMetadata(m: ObjectMeta): (r: Object)
      ensures r.Kind() == Kind() && r.Metadata() == m
    {
      match this
      case AppServiceObject(a) => AppServiceObject(a.(metadata := m))
      case DeploymentObject(d) => DeploymentObject(d.(metadata := m))
      case ServiceObject(s) => ServiceObject(s.(metadata := m))
    }

    function Key(): StoreKey
    {
      StoreKey(Kind(), Metadata().namespace, Metadata().name)
    }
  }

  /** Errors a store call or a mutate callback reports. */
  datatype ApiError =
    | NotFound(key: StoreKey)
    | AlreadyExists(key: StoreKey)
    | AlreadyOwned(controller: OwnerReference)  // another owner already controls the object
    | KeyMutated                                // a mutate callback changed the name or namespace
    | Unavailable(reason: string)               // any other failure of the store
}
