# Samtest operator reconciler, modelled in Dafny

This project models the core of a Kubernetes operator that manages the `Samtest` custom resource. A Samtest record asks for a container image. On every pass, the reconciler:

- reads the record;
- skips it if it is suspended;
- writes a `Progressing` status condition;
- reconciles the two managed objects, a `Deployment` running the image and a `Service` in front of it, each labelled `app=<record name>`;
- closes the pass with a `Failed` or a `Ready` condition.

Each managed object goes through the same steps:

- it is read;
- if it is missing, it is created with the record as its controller and a `Created` or `CreateError` event is recorded;
- if it exists but the record does not control it, it is adopted: the controller reference is set and the object is updated.

The model has three layers:

- **Values.** The condition and event tables, the label builder, the descriptors and the objects they generate are datatypes and functions (`Conditions`, `Events`, `Metadata`, `K8sDeployment`, `Resources`, over the API shapes in `Api`).
- **Specification functions.** `ReconcileSpec.ReconcileResource` and `PassSpec.Reconcile` define one resource reconcile and one pass. Each is a function from the cluster state (`Cluster.Store`: objects, records and the call log) and the event log to the new state and the error returned. `faults` names the API calls that the server rejects. A lemma that quantifies over `faults` holds for every such choice, with the limits listed under "Left out": a fault is decided by the call's contents, and reads are authoritative.
- **The reconciler as it runs.** `Controller.SamtestReconciler` holds a `Cluster.Client` and an `Events.Recorder`, both mutable. Its methods change them step by step, and each method is proved to match its specification function exactly. So every lemma of `ReconcileSpec` and `PassProperties` also holds of the methods.

The library calls the reconciler relies on are stated abstractly in `Apimachinery`, with the behaviour the controller depends on:

- `meta.SetStatusCondition`, an upsert by condition type;
- `metav1.IsControlledBy`, which compares the controller's uid;
- `ctrl.SetControllerReference`, which refuses an unregistered owner kind or an object already controlled by another owner.

Behaviour of the code a reader might not expect, which the model keeps:

- **Status is written on every pass.** The `Progressing` and the final condition are written each time. So the idempotence lemma (`SteadyStateIdempotent`) promises no object write, no record change and no event. It does not promise zero status-update calls.
- **A `Failed` condition is never removed.** A later successful pass adds `Ready` next to it (`FailedConditionSticky`).
- **A failed `Progressing` write ends the pass** before any resource is touched (`ProgressingFailureAborts`).
- **There is no drift correction.** The equality check and update in `internal/controller/reconcile.go:53-76` are commented out. An existing object with a different spec is left as it is; only its controller reference may be set.
- **Adoption is refused for objects controlled by another owner.** The owner-reference helper returns an "already owned" error instead of taking ownership, and that error is returned.
- **The descriptor interface is wider than declared.** `internal/k8s/resources/resource.go:5-7` declares only `Generate`, but the controller also calls `New` and `Kind` on every descriptor. The resources-package Deployment defines neither of them. The model gives it `Kind() == "Deployment"`, and makes `New` bind the record's name, namespace and image through `NewDeployment`.

## Model

| member | source | states |
|---|---|---|
| Conditions.ConditionTypeName | internal/k8s/conditions.go:28-32 | the name is "Ready" exactly for the Ready type, "Progressing" exactly for the Progressing type and "Failed" exactly for the Failed type |
| Conditions.ReasonEntryOf | internal/k8s/conditions.go:34-50 | each outcome's table row has its own condition type (Ready for ResourcesReady, Progressing for ProgressingResources, Failed for ResourcesFailed) and the outcome's own name as reason |
| Conditions.NewStatusCondition | internal/k8s/conditions.go:34-62 | the condition built for each outcome has Status True and exactly the type name, reason and message of that outcome's row in the reason table |
| Conditions.NewStatusConditionTypesDistinct | internal/k8s/conditions.go:34-62 | two outcomes give conditions of the same type if and only if they are the same outcome, so each outcome has its own status slot |
| Conditions.NewStatusConditionReasonIdentifies | internal/k8s/conditions.go:34-62 | two outcomes give the same reason string if and only if they are the same outcome |
| Events.EventTypeName | internal/k8s/events.go:20-23 | the type string is "Normal" exactly for normal events and "Warning" exactly for warnings |
| Events.Recorder.Record | internal/k8s/events.go:33 | the recorder appends exactly the given entry to its log and keeps the earlier entries |
| Events.Recorded | internal/k8s/events.go:32-34 | the entry handed to the recorder is attached to the record's key and carries the event type's name, the reason and the message |
| Events.NewEvent | internal/k8s/events.go:32-34 | recording an event appends exactly one entry for it to the log and nothing else |
| Events.CreatedEvent | internal/k8s/events.go:37-43 | a Normal event whose reason is the kind followed by "Created" and whose message mentions the kind and the object name |
| Events.CreateErrorEvent | internal/k8s/events.go:46-52 | a Warning event whose reason is the kind followed by "CreateError" and whose message mentions the kind and the object name |
| Events.UpdatedEvent | internal/k8s/events.go:55-61 | a Normal event whose reason is the kind followed by "Updated" and whose message mentions the kind and the object name |
| Events.UpdateErrorEvent | internal/k8s/events.go:64-70 | a Warning event whose reason is the kind followed by "UpdateError" and whose message mentions the kind and the object name |
| Events.OutOfSyncEvent | internal/k8s/events.go:73-79 | a Warning event whose reason is the kind followed by "OutOfSync" and whose message mentions the kind and the object name |
| Events.NewCreatedEvent | internal/k8s/events.go:37-43 | appends exactly the Created event for the kind and name to the recorder's log |
| Events.NewCreateErrorEvent | internal/k8s/events.go:46-52 | appends exactly the CreateError event for the kind and name to the recorder's log |
| Events.NewUpdatedEvent | internal/k8s/events.go:55-61 | appends exactly the Updated event for the kind and name to the recorder's log |
| Events.NewUpdateErrorEvent | internal/k8s/events.go:64-70 | appends exactly the UpdateError event for the kind and name to the recorder's log |
| Events.NewOutOfSyncEvent | internal/k8s/events.go:73-79 | appends exactly the OutOfSync event for the kind and name to the recorder's log |
| Events.OutcomeReasonsDistinct | internal/k8s/events.go:37-79 | for one kind the five outcome reasons are pairwise distinct, so a reason tells which outcome it reports |
| Metadata.CreateLabels | internal/k8s/metadata.go:6-10 | the label set has the single key "app", mapped to the record name |
| Metadata.CreateLabelsInjective | internal/k8s/metadata.go:6-10 | two names get the same label set if and only if they are equal |
| K8sDeployment.Deployment.NewLabels | internal/k8s/deployment.go:18-22 | the label set has the single key "app", mapped to the descriptor's name |
| K8sDeployment.Deployment.New | internal/k8s/deployment.go:25-53 | the Deployment carries the descriptor's name and namespace and no owner; its labels, selector and pod-template labels are the same map; it runs one container "main" with the image; replicas are left unset |
| K8sDeployment.Deployment.NewCondition | internal/k8s/deployment.go:56-66 | a condition exists exactly for the created state: type "Available", Status True, reason "DeploymentCreated", and a message naming namespace/name |
| Resources.NewDeploymentEvents | internal/k8s/resources/deployment.go:20-38 | the created and updated events are Normal and the image-out-of-sync event is a Warning, with reasons DeploymentCreated, DeploymentUpdated and DeploymentImageOutOfSync, and every message names the Deployment |
| Resources.NewDeployment | internal/k8s/resources/deployment.go:48-55 | the descriptor keeps name, namespace and image, and its three events are exactly NewDeploymentEvents of that name |
| Resources.Deployment.GenerateLabels | internal/k8s/resources/deployment.go:58-62 | the label set has the single key "app", mapped to the descriptor's name |
| Resources.Deployment.Generate | internal/k8s/resources/deployment.go:65-93 | the desired Deployment is stored under (Deployment, namespace, name) with no owner; its labels, selector and pod-template labels are one map; one container "main" runs the image; replicas are unset |
| Resources.Deployment.Kind | internal/k8s/resources/deployment.go:65-93 | the kind reported is the Go type of the generated object (the resources-package Deployment declares no Kind; see above) |
| Resources.Service.New | internal/k8s/resources/service.go:21-27 | the bound descriptor takes the record's name and namespace and the label app=<record name> |
| Resources.Service.Generate | internal/k8s/resources/service.go:35-59 | the desired v1 Service is a ClusterIP service under (Service, namespace, name) with no owner; its selector is its own label set; it has the single port http/TCP/80 with target port "http"; it leaves the cluster IP empty |
| Resources.Service.IsEqual | internal/k8s/resources/service.go:61-68 | a found object is equal if and only if its spec is the generated spec; an object that is not a Service never is |
| Resources.IsEqualIgnoresMetadata | internal/k8s/resources/service.go:61-68 | the generated Service compares equal whatever its metadata and type information |
| Resources.IsEqualRejectsAssignedClusterIP | internal/k8s/resources/service.go:61-68 | a live Service with a server-assigned cluster IP never compares equal, because the comparison includes that field |
| Resources.Resource.New | internal/controller/samtest_controller.go:89-90 | binding a template to a record keeps its kind; a Deployment takes the record's name, namespace and image; a Service is Service.New of the record |
| Resources.Resource.Kind | internal/controller/reconcile.go:23-25 | the kind a descriptor reports is the Go type of the object it generates, hence the kind part of its lookup key; for a Service it is also the generated TypeMeta kind |
| Resources.GeneratedObjectsWellFormed | internal/k8s/resources/deployment.go:65-93 | every descriptor bound to a record generates an object whose selector is its own label set, whose workload runs a container, labelled app=<record name>, under the record's namespace and name and the descriptor's kind |
| Resources.ManagedKeysDistinct | internal/controller/samtest_controller.go:74-77 | the two managed templates look up different objects for one record |
| Apimachinery.SetStatusCondition | internal/controller/samtest_controller.go:131 | the new condition is present afterwards; every condition afterwards is the new one or an old one; every old condition of another type stays |
| Apimachinery.SetStatusConditionKeepsUnique | internal/controller/samtest_controller.go:131 | the upsert keeps at most one condition per type |
| Apimachinery.SetStatusConditionIdempotent | internal/controller/samtest_controller.go:131 | setting a condition that is already present leaves the list unchanged |
| Apimachinery.ControlIsByUid | internal/controller/reconcile.go:79 | the contract of the library abstraction IsControlledBy used by the reconciler: an object without a controller entry is controlled by no record, and control depends only on the controller entry and the owner's uid |
| Apimachinery.SetControllerReference | internal/controller/reconcile.go:34-38 | succeeds if and only if the owner kind is registered and no other owner controls the object; a success is controlled by the record and differs from the input only in its controller entry; each refusal carries its own error |
| Cluster.Store.GetRecord | internal/controller/samtest_controller.go:64-67 | logs the read; returns the stored record if and only if it exists and the call does not fail; otherwise NotFound, or a server error when the call fails |
| Cluster.Store.Get | internal/controller/reconcile.go:28-29 | logs the read; returns the stored object if and only if it exists and the call does not fail; otherwise NotFound, or a server error |
| Cluster.Store.Create | internal/controller/reconcile.go:41 | logs the create; it succeeds, storing the object under its key, if and only if the call does not fail and the key is free; otherwise nothing is stored |
| Cluster.Store.Update | internal/controller/reconcile.go:85 | logs the update; it succeeds, replacing the object under its key, if and only if the call does not fail and the key exists; otherwise nothing changes |
| Cluster.Store.StatusUpdate | internal/controller/samtest_controller.go:132 | logs the status write with the conditions written; it succeeds if and only if the call does not fail and the record exists, and then replaces only that record's status; objects are never touched |
| Cluster.StatusUpdateStatusOnly | internal/controller/samtest_controller.go:129-137 | a status write, successful or not, changes at most the status of the written record, and records stay under their own keys |
| Cluster.Client.constructor | internal/controller/samtest_controller.go:40 | a fresh client holds the given objects and records, an empty call log and the given faults |
| Cluster.Client.GetRecord | internal/controller/samtest_controller.go:65 | the client's state and result are exactly those of Store.GetRecord |
| Cluster.Client.Get | internal/controller/reconcile.go:29 | the client's state and result are exactly those of Store.Get |
| Cluster.Client.Create | internal/controller/reconcile.go:41 | the client's state and error are exactly those of Store.Create |
| Cluster.Client.Update | internal/controller/reconcile.go:85 | the client's state and error are exactly those of Store.Update |
| Cluster.Client.StatusUpdate | internal/controller/samtest_controller.go:132 | the client's state and error are exactly those of Store.StatusUpdate |
| ReconcileSpec.Adopt | internal/controller/reconcile.go:79-91 | an object the record already controls is left alone with no call; otherwise a success leaves the object under its key controlled by the record and changed only in its controller entry; records and events are never touched |
| ReconcileSpec.ReconcileResource | internal/controller/reconcile.go:17-92 | records are never touched; the calls are appended, the first being the Get of the resource's key; at most one event is appended (the branch-by-branch behaviour is stated by the lemmas below) |
| ReconcileSpec.GetErrorReturnedWithoutWrites | internal/controller/reconcile.go:49-51 | a failed read other than NotFound is returned; only the read is logged and no event is recorded |
| ReconcileSpec.OwnerReferenceFailureSkipsCreate | internal/controller/reconcile.go:34-38 | on the create path a refused controller reference is returned before any Create, and nothing is recorded |
| ReconcileSpec.CreateFailureRecordsCreateError | internal/controller/reconcile.go:41-45 | a failed Create stores nothing, records exactly one CreateError event and returns the error |
| ReconcileSpec.CreatePathSingleWrite | internal/controller/reconcile.go:31-48 | a successful Create stores exactly the object SetControllerReference builds from the generated one (generated spec, labels and type, the record as controller); one Created event is recorded, and there is no second write |
| ReconcileSpec.AdoptionSetsOwnerOnly | internal/controller/reconcile.go:79-89 | an existing object not controlled by the record gets exactly one Update that sets the controller and changes nothing else about it; an Update failure is returned; no event is recorded |
| ReconcileSpec.SteadyStateNoWrite | internal/controller/reconcile.go:79-91 | an object the record already controls costs one read and nothing else: no write, no event, no error |
| ReconcileSpec.ResourcePaths | internal/controller/reconcile.go:17-92 | every resource reconcile takes one of four branches: nothing written; a failed create; the generated object created; an existing object adopted. No error means the object exists and is controlled by the record, and a changed object store means no error |
| ReconcileSpec.ResourceEffects | internal/controller/reconcile.go:17-92 | whatever fails: records are untouched; only the resource's own key can change; an existing object keeps its spec, labels and type, and one the record controls is untouched; a new object is the generated one controlled by the record; the calls are one Get then Creates or Updates of that key; at most one event is appended |
| ReconcileSpec.ResourceConverges | internal/controller/reconcile.go:17-92 | a resource reconcile that returns no error leaves its object present and controlled by the record |
| ReconcileSpec.ResourceKeepsControlled | internal/controller/reconcile.go:79-89 | an object the record controls comes out of any resource reconcile unchanged |
| ReconcileSpec.ResourceCallsAppended | internal/controller/reconcile.go:29-88 | the calls of a resource reconcile are appended to the log: one Get of the resource's key, then only Creates and Updates of it |
| ReconcileSpec.ResourceKeepsKeysConsistent | internal/controller/reconcile.go:17-92 | objects stay stored under their own keys |
| ReconcileSpec.ResourceLogsAppended | internal/controller/reconcile.go:17-92 | a resource reconcile only appends object calls to the call log, and only appends to the event log |
| ReconcileSpec.ResourceFrame | internal/controller/reconcile.go:17-92 | the object-store part of ResourceEffects: records untouched, changes confined to the resource's key, controlled objects untouched |
| PassSpec.UpdateStatus | internal/controller/samtest_controller.go:129-137 | the returned record carries the new condition; exactly one status-update call is logged, with the record's new conditions; it succeeds if and only if the call is not rejected and the record exists, and then only that record's status is replaced; on failure records are unchanged; no object changes |
| PassSpec.ReconcileAll | internal/controller/samtest_controller.go:86-109 | the fan-out over the descriptors, run in order: at most one error per descriptor, at least one call per descriptor, records never touched, calls and events only appended |
| PassSpec.Instantiate | internal/controller/samtest_controller.go:89-90 | one descriptor per template, in order, each the template bound to the record |
| PassSpec.Reconcile | internal/controller/samtest_controller.go:61-116 | every exit of a pass returns the empty result: no requeue is ever asked for |
| PassProperties.ReconcileAllFrame | internal/controller/samtest_controller.go:86-102 | the descriptor loop never touches records and changes objects only within its descriptors' keys, without touching what the record controls |
| PassProperties.ReconcileAllConverges | internal/controller/samtest_controller.go:86-109 | when no descriptor fails, every descriptor's object exists and is controlled by the record: a later reconcile never undoes an earlier one |
| PassProperties.ReconcileAllCalls | internal/controller/samtest_controller.go:86-102 | the descriptor loop only appends object calls to the call log, and only appends events |
| PassProperties.ReconcileAllPair | internal/controller/samtest_controller.go:86-102 | the loop over two descriptors reconciles the first, then the second on the resulting state, collecting their errors in that order |
| PassProperties.NotFoundIsNoOp | internal/controller/samtest_controller.go:64-67 | a record that no longer exists ends the pass with no error, and only the read is logged |
| PassProperties.GetRecordErrorReturned | internal/controller/samtest_controller.go:64-67 | any other failure to read the record is returned, and only the read is logged |
| PassProperties.SuspendedPassWritesNothing | internal/controller/samtest_controller.go:69-72 | a suspended record gets no status write, no resource call and no event, and the pass returns no error |
| PassProperties.ProgressingFailureAborts | internal/controller/samtest_controller.go:81-83 | when the Progressing write fails, the error is returned after only the read and that write; objects, records and events are unchanged |
| PassProperties.ManagedKeys | internal/controller/samtest_controller.go:74-77 | a pass looks up the record's Deployment, then its Service, under the record's namespace and name |
| PassProperties.BeforeResourcesUnfold | internal/controller/samtest_controller.go:64-83 | the descriptor loop starts after the read and the Progressing write, with the stored record carrying Progressing |
| PassProperties.PassClose | internal/controller/samtest_controller.go:104-115 | after the descriptor loop exactly one status write follows: Failed, with its error ignored and the first resource error returned; or Ready, with its error returned |
| PassProperties.PairCalls | internal/controller/samtest_controller.go:86-102 | the loop over two descriptors appends the first one's calls, then the second one's |
| PassProperties.ResourcePhaseCalls | internal/controller/samtest_controller.go:86-102 | the descriptor loop of a pass appends the Deployment's calls, then the Service's |
| PassProperties.PassCallOrder | internal/controller/samtest_controller.go:61-116 | a pass past the Progressing write logs, in order: the read, the Progressing write, the Deployment's calls, the Service's calls, and one final status write |
| PassProperties.ResourcePhaseFrame | internal/controller/samtest_controller.go:86-102 | the descriptor loop leaves the records as the Progressing write left them and changes objects only under the record's Deployment and Service keys |
| PassProperties.ResourcePhaseConverges | internal/controller/samtest_controller.go:86-109 | when no descriptor fails, the record's Deployment and Service exist and are controlled by it |
| PassProperties.PassRecordsFrame | internal/controller/samtest_controller.go:61-116 | whatever fails, a pass adds and removes no record and changes at most the requested record's status |
| PassProperties.PassFrame | internal/controller/samtest_controller.go:61-116 | whatever fails: the cluster stays consistent; objects change only under the record's two keys, keeping spec, type and labels; calls and events are only appended |
| PassProperties.PassSucceedsOnlyWhenConverged | internal/controller/samtest_controller.go:104-115 | a pass that goes ahead and returns no error leaves both objects controlled by the record, and a stored status carrying Progressing and Ready |
| PassProperties.ResourceErrorMarksFailed | internal/controller/samtest_controller.go:103-108 | when a resource fails and the Failed write is accepted, the stored record carries Failed and the pass returns the first resource error |
| PassProperties.PassErrorReflectsResources | internal/controller/samtest_controller.go:104-115 | a failed resource makes the pass return the first resource error; the pass returns no error if and only if no resource failed and the Ready write went through |
| PassProperties.FailedConditionSticky | internal/controller/samtest_controller.go:106-113 | once the stored record carries Failed, it still carries it after any pass |
| PassProperties.SteadyResourcePhase | internal/controller/samtest_controller.go:86-102 | with both objects already controlled by the record and no fault, the descriptor loop makes two reads and nothing else |
| PassProperties.ConvergedPassNoOp | internal/controller/samtest_controller.go:61-116 | a pass over a converged record whose status already carries Progressing and Ready, with no fault, changes nothing but the call log: read, status write, two reads, status write |
| PassProperties.SucceededPassConverges | internal/controller/samtest_controller.go:61-116 | after a successful pass, the record's status has unique types and carries Progressing and Ready, and both objects are controlled by the record |
| PassProperties.SteadyStateIdempotent | internal/controller/samtest_controller.go:61-116 | after a successful pass, a second pass without faults returns no error and creates, updates and records nothing; it writes the same status back, and its only calls are the read, two status writes and one read per resource |
| PassProperties.CreateStep | internal/controller/reconcile.go:31-48 | creating a missing object adds exactly its key, holding the object SetControllerReference builds from the generated one; every other object stays as it was; it records Created and logs one Get and one Create |
| PassProperties.CreatesBothObjects | internal/controller/samtest_controller.go:86-102 | two missing objects under distinct keys, with no fault, are both created, controlled by the record and built from their descriptors; no other object changes |
| PassProperties.CreatesBothLog | internal/controller/samtest_controller.go:86-102 | the same loop records Created for each in order, and logs a Get and a Create for each |
| PassProperties.FreshResourcePhase | internal/controller/samtest_controller.go:86-102 | the descriptor loop of a first pass without faults creates the Deployment and then the Service, with their Created events in that order |
| PassProperties.FreshPassCreatesBoth | internal/controller/samtest_controller.go:61-116 | a first pass over a record with neither object present, and no fault, returns no error and creates both objects controlled by the record, leaving every other object alone; the stored record ends with Progressing and Ready |
| PassProperties.FreshPassClose | internal/controller/samtest_controller.go:104-115 | such a first pass collects no error and closes with the Ready write |
| PassProperties.FreshPassLog | internal/controller/samtest_controller.go:61-116 | the first pass's event log and call log, written out: Created for the Deployment and then the Service; the read, Progressing, a Get and a Create per resource, then Ready |
| PassProperties.CreateThenFail | internal/controller/reconcile.go:31-47 | of two missing objects, when only the second Create fails, the first is created and the second is not, and the loop records Created then CreateError and collects the one error |
| PassProperties.PartialResourcePhase | internal/controller/samtest_controller.go:86-102 | in a first pass where only the Service's Create fails, the Deployment is created and the Service is not |
| PassProperties.PartialFailureNoRollback | internal/controller/samtest_controller.go:104-108 | no rollback: the Deployment created earlier in the pass stays; the pass records Created then CreateError, writes Failed and returns the Service's error |
| Controller.SamtestReconciler.constructor | internal/controller/samtest_controller.go:39-43 | the reconciler holds the given client, recorder and scheme |
| Controller.SamtestReconciler.ReconcileResource | internal/controller/reconcile.go:17-92 | the new cluster state, the event log and the error are exactly those of ReconcileSpec.ReconcileResource, so every ReconcileSpec lemma holds of the method |
| Controller.SamtestReconciler.UpdateStatus | internal/controller/samtest_controller.go:129-137 | the updated record, the cluster state and the error are exactly those of PassSpec.UpdateStatus |
| Controller.SamtestReconciler.ReconcileManaged | internal/controller/samtest_controller.go:86-109 | the loop over the managed templates leaves exactly the state and the error list of ReconcileAll over the templates bound to the record |
| Controller.SamtestReconciler.Reconcile | internal/controller/samtest_controller.go:61-116 | the new cluster state, the event log, the result and the error are exactly those of PassSpec.Reconcile, so every PassProperties lemma holds of the method |

## Left out

- Controller.SamtestReconciler.ReconcileManaged: the goroutine fan-out, the WaitGroup and the error channel (`internal/controller/samtest_controller.go:86-102`) are modelled as a sequential loop in template order. The channel's order is then template order, so "the first error" is the first in that order. Interleavings of the two reconciles are not modelled; they touch disjoint keys (`Resources.ManagedKeysDistinct`).
- Each per-resource reconcile returns a `ctrl.Result`, which the pass drops. It is left out, and every exit of a pass returns the empty result.
- `SetupWithManager`, the RBAC markers, the manager wiring and the watch of owned objects are left out: they configure the runtime and compute nothing.
- Logging is left out: it has no effect on state.
- Condition timestamps and observed generations are left out. No code of the core sets or reads them.
- The commented-out drift check and update (`internal/controller/reconcile.go:53-76`) is not part of the algorithm. The Updated, UpdateError and OutOfSync events are modelled as values and methods, but no reconcile records them.
- The record's `replicas` field is carried but never used: the generated Deployments leave replicas unset, as the code does.
- Owner references other than the controller entry are left out. An object's metadata holds at most one controller reference (kind, name, uid).
- In-place mutation of shared Go values is modelled on values. Examples are the in-memory record that `updateStatus` mutates in place, and the found object that `SetControllerReference` mutates in place. The reconciler's methods pass the updated value on instead.
- The resource-state enumeration used by `internal/k8s/deployment.go` is defined outside the core. It is modelled as the created state plus opaque other states.
- The API server, `meta.SetStatusCondition`, `metav1.IsControlledBy` and `ctrl.SetControllerReference` are library code. They are modelled by the behaviour stated in `Apimachinery` and `Cluster`, and their internals are not modelled:
  - the object store is keyed by kind, namespace and name;
  - any call may be rejected, through the `faults` set;
  - a Create fails if the key is taken;
  - an Update or a status write fails if the key is missing.
- Cluster.Store: whether a call fails is decided by the call's contents (`faults: set<Call>`), so two identical calls in one pass share one outcome. When the stored status already carries `Ready`, the Progressing write and the Ready write are the same call. The case "Progressing written, then the Ready write rejected" is then not expressible, and lemmas over `faults` do not cover it.
- Cluster.Store.Get: reads are authoritative, served from the same store that writes go to. A stale cache read is not modelled: for example, NotFound for an object that exists, which in the cluster leads to an AlreadyExists Create failure and a CreateError event.
- Cluster.Store.Create: server-side defaulting and assignment are not modelled. The store keeps a created object exactly as sent: no cluster IP is assigned to a Service, and a Deployment's `replicas` stays unset. Lemmas saying the store holds the generated spec (`CreatePathSingleWrite`, `CreateStep`, `CreatesBothObjects`, `FreshResourcePhase`, `FreshPassCreatesBoth`) mean the object sent to Create.
- Resource versions and optimistic-concurrency conflicts beyond "the call fails" are left out. So is any change to the cluster by another actor during a pass.
- Validation markers and defaulting of the custom resource's schema are left out, as are `DeepCopy` and the scheme registration itself. The scheme is reduced to whether it registers the owner kind.
