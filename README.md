# AppService operator: reconciliation and Service materialiser

A Dafny model of the core of the `opdemo` Kubernetes operator. The model covers two pieces:

- The `AppServiceReconciler.Reconcile` step. It fetches an `AppService` custom resource. If the resource is gone, it does nothing. Otherwise it creates or updates a Deployment and then a Service. Both carry the AppService's name and namespace, and the AppService is their controlling owner.
- The Service materialiser `MutateService` / `NewService`. It derives the Service's network spec from the AppService and keeps the cluster IP that the API server assigned.

The API server is modelled as an abstract object store, `Store.Client`. It is a class with three fields:

- `objects`: a map keyed by (kind, namespace, name);
- `faults`: errors injected per call, with `NotFound` among them;
- `journal`: a log of every `Get`, `Create` and `Update`.

`Reconcile` is a method of the `AppServiceReconciler` class, which holds the client. `ctrl.CreateOrUpdate` is a module-level method that takes the client. Both are imperative, and each is proved equal to a function on store values: `Controllers.ReconcileSpec` and `Controllers.CreateOrUpdateSpec`.

`ctrl.CreateOrUpdate` is modelled by its documented behaviour:

1. Get the key.
2. If the object is absent, run the mutate callback on the caller's blank object and create it.
3. Otherwise, run the callback on the live object. Update only if the result differs from the live object.
4. Fail if the callback changed the object's key.

`controllerutil.SetControllerReference` is also modelled by its documented behaviour. It fails if another owner already holds the controller reference. Otherwise it replaces the owner's existing reference or appends one.

`Reconcile`'s spec is written over the pair of callbacks it hands to `CreateOrUpdate` (`Controllers.ReconcileWith`). This lets the store-level properties be proved for any callbacks. The reconciler's own callbacks (`Controllers.ReconcilerCallbacks`) are one instance. The properties that depend on them are in `ReconcilerProperties`.

`resources.MutateDeployment` is not part of this model. It is an uninterpreted function parameter `(AppService, Deployment) -> DeploymentSpec`.

The code declares an `old/spec` annotation key but never reads or writes it. So the model has no snapshot codec and no drift detection, even where a description of the system mentions them. The model follows the code.

## Model

| member | source | states |
|---|---|---|
| Controllers.AppServiceReconciler.Reconcile | controllers/appservice_controller.go:50-105 | the imperative step on the client always returns an empty `ctrl.Result`; its error and the new store state are exactly `ReconcileSpec` of the old state |
| Controllers.ReconcileSpec | controllers/appservice_controller.go:50-105 | one reconciliation on store values keeps the store well-formed and its faults unchanged |
| Controllers.ReconcileWith | controllers/appservice_controller.go:57-104 | the same step for any callbacks: fetch the parent, then the Deployment step, then the Service step, with early returns |
| Controllers.CreateOrUpdate | controllers/appservice_controller.go:78-86 | the imperative get-then-create-or-update on the client equals `CreateOrUpdateSpec` of the old state |
| Controllers.CreateOrUpdateSpec | controllers/appservice_controller.go:78-86 | on failure no object changes; on success the callback succeeded on the live object (or the blank one) and the key now holds exactly its result; which error a failure returns is `CreateOrUpdateFails` |
| Controllers.Mutate | controllers/appservice_controller.go:78-83 | succeeds exactly when the callback succeeds and keeps the object's key, with the callback's result; otherwise the error is the callback's own, or KeyMutated when the key moved |
| Controllers.SetOwner | controllers/appservice_controller.go:82 | fails exactly when another owner controls the object, with AlreadyOwned of that first controller reference; on success only the metadata changes, the key is kept, the AppService is the controller and references to other owners keep their places |
| Controllers.DeploymentMutation | controllers/appservice_controller.go:78-83 | the Deployment callback accepts every Deployment |
| Controllers.ServiceMutation | controllers/appservice_controller.go:93-98 | the Service callback accepts every Service |
| Controllers.ReconcilerCallbacks | controllers/appservice_controller.go:78-98 | the reconciler's two callbacks accept every object of their kind |
| Controllers.BlankDeployment | controllers/appservice_controller.go:75-77 | the Deployment is addressed by the AppService's name and namespace |
| Controllers.BlankService | controllers/appservice_controller.go:90-92 | the Service is addressed by the AppService's name and namespace and has no cluster IP |
| Controllers.DeploymentStep | controllers/appservice_controller.go:75-86 | CreateOrUpdate of the blank Deployment with the Deployment callback keeps the store well-formed and its faults unchanged |
| Controllers.ServiceStep | controllers/appservice_controller.go:90-101 | CreateOrUpdate of the blank Service with the Service callback keeps the store well-formed and its faults unchanged |
| Controllers.ParentOf | controllers/appservice_controller.go:57-58 | the AppService fetched has the request's name and namespace |
| Meta.NewControllerRef | resources/service.go:31-35 | the reference names the owner by the given group, version and kind and by the owner's name and uid, with the controller and blockOwnerDeletion flags set |
| Api.AppServiceGVK | resources/service.go:31-35 | the AppService type's group, version and kind |
| Meta.ReferSameObject | controllers/appservice_controller.go:82 | two owner references name the same owner when group, kind and name agree |
| Meta.ReferSameObjectEquivalence | controllers/appservice_controller.go:82 | naming the same owner (`ReferSameObject`: group, kind and name agree) is reflexive, symmetric and transitive, and disregards version, uid and both flags |
| Meta.SetControllerReference | controllers/appservice_controller.go:82 | fails exactly when another owner controls the object, returning the first controller reference; on success name, namespace and uid are kept, the owner is the controller, references to other owners keep their places, and the list grows by one exactly when no reference named the owner |
| Meta.UpsertTakesControl | controllers/appservice_controller.go:82 | upserting a controller reference that no other controller blocks makes it the controller |
| Meta.UpsertIdempotent | controllers/appservice_controller.go:82 | upserting the same owner reference twice equals upserting it once |
| Meta.SetControllerReferenceIdempotent | controllers/appservice_controller.go:82 | setting the same controller again changes nothing |
| Meta.ControllerOf | controllers/appservice_controller.go:82 | the reference found is the first one flagged as controller; none is found only if no reference is so flagged |
| Meta.IndexOwnerRef | controllers/appservice_controller.go:82 | the index found is the first reference to the same owner; none is found only if no reference names it |
| Meta.UpsertOwnerRef | controllers/appservice_controller.go:82 | the first reference to the same owner is replaced in place by the new one; when there is none the new one is appended; references to other owners keep their places |
| Store.Fetch | controllers/appservice_controller.go:58 | a Get succeeds exactly when the key is filed and not faulted, returning the stored object; a faulted Get returns its fault; otherwise a failure is NotFound |
| Store.CreateStep | controllers/appservice_controller.go:78-86 | a Create succeeds exactly when it is not faulted and the key is free; it files the object; on failure nothing changes and the error is the fault, or AlreadyExists |
| Store.UpdateStep | controllers/appservice_controller.go:78-86 | an Update succeeds exactly when it is not faulted and the key is filed; it replaces the object; on failure nothing changes and the error is the fault, or NotFound |
| Store.Client.Get | controllers/appservice_controller.go:58 | the client's Get equals `Fetch` on its state |
| Store.Client.Create | controllers/appservice_controller.go:78-86 | the client's Create equals `CreateStep` on its state |
| Store.Client.Update | controllers/appservice_controller.go:78-86 | the client's Update equals `UpdateStep` on its state |
| CreateOrUpdateProperties.CreateOrUpdateOutcome | controllers/appservice_controller.go:78-86 | on success the result is Created exactly when the key was missing and Unchanged exactly when the callback returned the live object; the journal holds the read plus exactly the write the result names |
| CreateOrUpdateProperties.CreateOrUpdateFails | controllers/appservice_controller.go:78-86 | a failure returns the read's fault when it is not NotFound; otherwise the callback's error or KeyMutated on the object it was given, or the write's fault; AlreadyExists only when the read's NotFound was itself a fault on a filed key |
| CreateOrUpdateProperties.CreateOrUpdateTouches | controllers/appservice_controller.go:78-86 | one read of the key, then at most one write to it; no other key's object changes |
| CreateOrUpdateProperties.CreateOrUpdateLog | controllers/appservice_controller.go:78-86 | whatever the outcome, the journal grows by a read, a read and a create, or a read and an update of the key |
| CreateOrUpdateProperties.CreateOrUpdateReliable | controllers/appservice_controller.go:78-86 | with no store fault on the key and a succeeding callback, CreateOrUpdate succeeds |
| CreateOrUpdateProperties.CreateOrUpdateSettles | controllers/appservice_controller.go:78-86 | after a success, a repeat with a callback that keeps its own output reads and reports Unchanged without writing |
| CreateOrUpdateProperties.CreateOrUpdateUnchanged | controllers/appservice_controller.go:78-86 | when the callback returns the live object as it is, CreateOrUpdate only reads |
| CallbackProperties.DeploymentMutationFails | controllers/appservice_controller.go:78-83 | the Deployment callback fails exactly when another owner controls the Deployment, with AlreadyOwned of that reference; otherwise it is the Deployment with `MutateDeployment`'s spec and new metadata, controlled by the AppService |
| CallbackProperties.ServiceMutationFails | controllers/appservice_controller.go:93-98 | the Service callback fails exactly when another owner controls the Service, with AlreadyOwned of that reference; otherwise it is `MutateService`'s output with new metadata, controlled by the AppService |
| CallbackProperties.DeploymentMutationFixedPoint | controllers/appservice_controller.go:78-83 | with a settling `MutateDeployment`, the Deployment callback run on its own output returns it again |
| CallbackProperties.ServiceMutationFixedPoint | controllers/appservice_controller.go:93-98 | the Service callback run on its own output returns it again |
| CallbackProperties.ReconcilerCallbacksOwn | controllers/appservice_controller.go:78-98 | whatever either reconciler callback produces is controlled by the AppService |
| CallbackProperties.ReconcilerCallbacksSettle | controllers/appservice_controller.go:78-98 | with a settling `MutateDeployment`, both reconciler callbacks keep their own output |
| ReconcileProperties.ReconcileParentGone | controllers/appservice_controller.go:58-64 | a missing AppService gives success, one read and no change |
| ReconcileProperties.ReconcileParentFetchFails | controllers/appservice_controller.go:58-64 | a failed AppService fetch returns that error (nothing for NotFound), with no child read or written |
| ReconcileProperties.ReconcileDeploymentFails | controllers/appservice_controller.go:78-86 | a failed Deployment step returns its error; the Service is never touched; no object changes |
| ReconcileProperties.ReconcileServiceFails | controllers/appservice_controller.go:93-101 | a failed Service step returns its error; what the Deployment step stored stays |
| ReconcileProperties.ReconcileFootprint | controllers/appservice_controller.go:50-105 | the AppService is read first; later calls touch only the two children; all Deployment calls come before any Service call; no other object, the AppService included, changes |
| ReconcileProperties.TouchesInTurn | controllers/appservice_controller.go:78-98 | two rounds of calls on distinct keys compose into the ordered footprint |
| ReconcileProperties.DeploymentRound | controllers/appservice_controller.go:75-86 | a successful Deployment step stores the callback's result on the Deployment found, with its read and the write its result names |
| ReconcileProperties.ServiceRound | controllers/appservice_controller.go:90-101 | a successful Service step stores the callback's result on the Service found at the start, with its read and the write its result names |
| ReconcileProperties.ReconcileStores | controllers/appservice_controller.go:75-104 | after success the store equals the old one with the two callbacks' results filed under the children's keys |
| ReconcileProperties.ReconcileTrace | controllers/appservice_controller.go:58-104 | a successful run's calls, in order: read AppService, read Deployment, create or update it as needed, read Service, create or update it as needed |
| ReconcileProperties.ReconcileSucceeds | controllers/appservice_controller.go:58-104 | with no store faults on the three keys and succeeding callbacks, Reconcile succeeds |
| ReconcileProperties.ReconcileWritesOwnedBy | controllers/appservice_controller.go:78-98 | with owner-setting callbacks, every object created or changed is controlled by the fetched AppService |
| ReconcileProperties.ReconcileRepeats | controllers/appservice_controller.go:50-105 | with callbacks that keep their own output, a second run right after success succeeds, changes nothing and only reads |
| ReconcileProperties.RepeatParentMissing | controllers/appservice_controller.go:58-64 | a request whose AppService was not found is not found again and is only read |
| ReconcileProperties.RepeatReadsOnly | controllers/appservice_controller.go:58-104 | the second run on an existing AppService reads the three keys and nothing else |
| ReconcileProperties.StoredSettle | controllers/appservice_controller.go:78-98 | after success each settling callback, run on what it stored, returns it unchanged |
| ReconcilerProperties.ReconcileSuccess | controllers/appservice_controller.go:75-104 | after success both children exist, are controlled by the AppService and carry `MutateDeployment`'s and `MutateService`'s specs of the child found before |
| ReconcilerProperties.ReconcileConverges | controllers/appservice_controller.go:58-104 | with no store faults on the three keys and no other owner controlling an existing child, Reconcile succeeds |
| ReconcilerProperties.ReconcileWritesOwned | controllers/appservice_controller.go:78-98 | every child Reconcile creates or changes is controlled by the AppService |
| ReconcilerProperties.ReconcileIdempotent | controllers/appservice_controller.go:50-105 | with a settling `MutateDeployment`, a second run right after success succeeds, changes no object and makes only reads |
| Resources.MutateService | resources/service.go:10-19 | typeMeta and metadata are unchanged; the cluster IP is carried forward; the type is NodePort, the ports are the AppService's and the selector is exactly {"app": name} |
| Resources.NewService | resources/service.go:21-46 | Kind "Service", APIVersion "v1", the AppService's name and namespace, exactly one owner reference, which is the AppService as controller; no cluster IP; the spec is rendered from the AppService |
| Resources.RenderedSpecUnique | resources/service.go:11-18 | two specs rendered from the same AppService are equal exactly when their cluster IPs are |
| Resources.MutateServiceIdempotent | resources/service.go:10-19 | applying MutateService twice equals applying it once |
| Resources.MutateServiceForgetsOldSpec | resources/service.go:10-19 | of the old spec only the cluster IP influences the result |
| Resources.NewServiceAgreesWithMutate | resources/service.go:11-18 | NewService's spec equals MutateService's on a Service with an empty cluster IP |

## Left out

- `SetupWithManager` (watch and manager wiring) is not modelled. It is configuration owned by controller-runtime.
- Logging, `fmt.Println`, the logr logger and `context.Background()` are output with no behaviour to verify.
- The internals of `ctrl.CreateOrUpdate` and `controllerutil.SetControllerReference` are foreign library code. The model states their documented behaviour instead.
- Meta.SetControllerReference: the owner validation of the library is not modelled. That covers the cross-namespace and cluster-scope checks and the scheme lookup of the owner's kind. Those errors never arise in the model.
- Controllers.CreateOrUpdate: the write-back of the fetched or mutated object into the caller's variable is not modelled. `Reconcile` never reads `deploy` or `svc` after the call.
- CreateOrUpdate's equality test compares the modelled fields with Dafny's structural equality. Server-set fields such as resourceVersion are not modelled.
- ReconcileProperties.ReconcileRepeats: holds for a store that files and returns objects exactly as written. A real API server fills in defaults for spec fields the model does not have, such as `sessionAffinity` and allocated node ports. `MutateService` replaces the whole spec, so a second run would then plausibly see a difference and update the Service every time. This is reasoned, not executed.
- ReconcilerProperties.ReconcileIdempotent: holds only for a store without server-side defaulting, for the reason given for `ReconcileRepeats`. The same applies to the Deployment, whose spec `MutateDeployment` rewrites.
- `resources.MutateDeployment` is uninterpreted because its source is not part of this model. `ReconcilerProperties.ReconcileIdempotent` assumes `MutateDeployment` settles, i.e. it reproduces the spec it produced.
- The `old/spec` annotation key is declared but never used. The model has no snapshot, encoding or drift detection.
- Optimistic-concurrency conflicts, concurrent reconcilers, cancellation, requeueing and owner-reference garbage collection are not modelled. They are runtime and concurrency concerns. A store error is instead modelled as a per-call injected fault.
- API types are reduced to the fields the code uses. The API server's cluster-IP allocation on create is not modelled, so a created Service keeps the cluster IP the callback gave it.
- The AppService type definitions (`api/v1beta1`) are not part of this model beyond the fields used here.
