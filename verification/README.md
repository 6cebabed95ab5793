# k4indie Application operator, modelled in Dafny

k4indie is a Kubernetes operator. A user declares an `Application`: a runtime size, a container image, a replica count, a launch command, and a list of endpoints. Each endpoint is a port, optionally with a domain and a path on that domain. The controller reconciles each Application into child objects:

- a `Deployment` running the image with the size's CPU and memory quota;
- a `Service` exposing every declared port;
- an `Ingress` routing each domain to the Service.

It records the outcome as status conditions on the Application.

This project models the core of that controller:

- the runtime size table;
- label merging;
- endpoint filtering and grouping into ingress rules;
- the port conversions;
- the builders of the three child objects;
- the three per-child reconcile passes;
- the two status helpers;
- the top-level `Reconcile`.

The Kubernetes API server is an abstract store (`Cluster.Store`). It holds one optional object per kind for the reconciled name. Every store call may fail, and its failure is a parameter (`Cluster.Faults`, one optional error per call site). Each reconcile pass is a `method` on the store. It is proved equal to a specification function of the old store contents and the faults:

- `DeploymentSync`
- `ServiceSync`
- `IngressSync` / `IngressSyncChecked`
- `ReconcileErrorOutcome`
- `ReconciledOutcome`
- `ReconcilePass`

Lemmas about those functions state what a pass does, case by case.

Modules follow the source files:

| module | file |
|---|---|
| `Wrappers`, `MapIteration` | `wrappers.dfy`: Option, Result, the errors, and ranging over a Go map |
| `NetworkingTypes` | `networking_types.dfy` |
| `RuntimeTypes` | `runtime_types.dfy` |
| `Runtime` | `runtime.dfy` (resolvers/runtime.go) |
| `Labels` | `labels.dfy` (resolvers/labels.go) |
| `Endpoints` | `endpoints.dfy` (resolvers/endpoints.go) |
| `ApplicationTypes` | `application_types.dfy`: the resource and its status conditions |
| `KubeObjects` | `kube_objects.dfy`: the child objects, as far as the operator sets them |
| `Cluster` | `cluster.dfy`: the store and the faults |
| `ApplicationStatus` | `application_status.dfy`: the reconcile-error and success status helpers |
| `ApplicationDeployment`, `ApplicationService`, `ApplicationIngress` | one file per child |
| `ApplicationController` | `application_controller.dfy`: `Reconcile` |

Modelling choices:

- Go maps have no order.
  - `AsContainerPorts`, `AsServicePorts` and `BuildIngressRules` are methods with the source's loops. Their output sequences are proved to list exactly the members of a set (`ContainerPorts`, `ServicePorts`, `IngressRules`), each once.
  - Inside the built child objects those lists are held as the sets.
  - `MapIteration.Range` stands for a `for k, v := range m` loop: it yields the entries in an unspecified order.
- Quantities are integers: CPU in millicores, memory in mebibytes.
- Go's in-place updates are returned values:
  - `DeepCopyInto` of a freshly built object into the one in hand;
  - `SetStatusCondition` on the in-memory Application.
- A nil dereference, which panics in Go, is the error value `NilPointerPanic`.
- The source file `application_controller.go` defines `reconcileDeployment`, `createDeployment`, `buildDeployment` and `updateDeploymentSpec` a second time (lines 89-296), beside those in `application_deployment.go`. The model follows `application_deployment.go`. Its success path calls `setApplicationReconciled` (application_deployment.go:75), which none of the modelled files defines. `ApplicationStatus.ReconciledOutcome` assumes it behaves as the success branch at application_controller.go:139-158.
- The top-level `Reconcile` runs only the Deployment pass. The Service and Ingress passes are modelled and proved, but nothing calls them, and the model follows the code here: Reconcile (application_controller.go:60-87) calls only reconcileDeployment (line 78); no file calls reconcileService or reconcileIngress.
- The Service pass (`ServiceSync`) builds its Service as the code does, with the selector of the Findings table below; `ApplicationService.BuildServiceCorrected` is the builder with the corrected selector.
- The comments in runtime_types.go give different quotas for standard-2x and performance. The model follows the table in resolvers/runtime.go.

## Model

| member | source | states |
|---|---|---|
| MapIteration.Range | api/v1alpha1/networking_types.go:49-51 | ranging over a map visits every entry exactly once, with its value |
| NetworkingTypes.NatDigitsShape | api/v1alpha1/networking_types.go:30 | the decimal printing of a number is never empty, never starts with '-', and is one digit exactly below 10 |
| NetworkingTypes.NatDigitsInjective | api/v1alpha1/networking_types.go:30 | two numbers with the same decimal printing are equal |
| NetworkingTypes.DecimalInjective | api/v1alpha1/networking_types.go:30 | `%d` printing of integers, signed ones included, is injective |
| NetworkingTypes.PortNameInjective | api/v1alpha1/networking_types.go:30 | the names "port<n>" of two ports are equal if and only if the ports are |
| NetworkingTypes.AsContainerPort | api/v1alpha1/networking_types.go:28-33 | the container port is the endpoint's port number, named "port" followed by that number in decimal |
| NetworkingTypes.AsServicePort | api/v1alpha1/networking_types.go:60-67 | the service port listens on and targets the endpoint's port, over TCP, and is named as the container port is |
| NetworkingTypes.ContainerPortDeterminedByPort | api/v1alpha1/networking_types.go:28-33 | a container port carries the endpoint's port; two endpoints give the same name, and the same container port, exactly when their ports agree |
| NetworkingTypes.ServicePortDeterminedByPort | api/v1alpha1/networking_types.go:60-67 | a service port listens on and targets the endpoint's port over TCP; two endpoints give the same name or service port exactly when their ports agree |
| NetworkingTypes.PortNamesBound | api/v1alpha1/networking_types.go:40-47 | there are never more distinct port names than endpoints |
| NetworkingTypes.ContainerPortsByPort | api/v1alpha1/networking_types.go:35-54 | the container ports are one entry per distinct port number; domain and path never matter |
| NetworkingTypes.ServicePortsByPort | api/v1alpha1/networking_types.go:56-83 | the service ports are one entry per distinct port number; domain and path never matter |
| NetworkingTypes.ContainerPortsListed | api/v1alpha1/networking_types.go:40-54 | listing the name-keyed map lists every endpoint's container port, each name and number once, no more entries than endpoints |
| NetworkingTypes.AsContainerPorts | api/v1alpha1/networking_types.go:40-54 | the result holds exactly the container ports of the endpoints, duplicates by port merged, no two sharing a name or number, at most one per endpoint |
| NetworkingTypes.ServicePortsListed | api/v1alpha1/networking_types.go:69-83 | listing the name-keyed map lists every endpoint's service port, each name and number once, no more entries than endpoints |
| NetworkingTypes.AsServicePorts | api/v1alpha1/networking_types.go:69-83 | the result holds exactly the service ports of the endpoints, duplicates by port merged, no two sharing a name or number, at most one per endpoint |
| NetworkingTypes.SharedPortExample | api/v1alpha1/networking_types_test.go:12-64 | endpoints 80, 8080 and 8080 on another domain give exactly the ports port80 and port8080 |
| RuntimeTypes.TagsDistinct | api/v1alpha1/runtime_types.go:6-26 | the five size tags are distinct, and the valid sizes are exactly the five listed |
| RuntimeTypes.AdmissionEnumOmitsStandard | api/v1alpha1/runtime_types.go:3 | the admission enum is a strict subset of the valid sizes, missing exactly "standard" |
| RuntimeTypes.AdmissionEnumCorrectedIsRuntimeSizes | api/v1alpha1/runtime_types.go:19-26 | the corrected enum admits exactly the valid sizes |
| Runtime.GetCpuAndMemoryForRuntimeSize | internal/controller/resolvers/runtime.go:9-30 | a quota exists if and only if the size is valid; otherwise the error is the invalid-size error |
| Runtime.GetResourcesForRuntimeSize | internal/controller/resolvers/runtime.go:32-48 | an error exactly on an invalid size, then with empty requirements; otherwise limits and requests are equal, name CPU and memory only, and carry the size's quota |
| Runtime.SizeTable | internal/controller/resolvers/runtime.go:10-25 | the quotas 256m/256Mi, 500m/256Mi, 500m/512Mi, 1/1Gi and 2/2Gi |
| Runtime.SizesMonotone | internal/controller/resolvers/runtime.go:10-25 | going up the sizes never lowers the CPU or the memory quota |
| Runtime.IncorrectSizeExample | internal/controller/resolvers/runtime_test.go:12-60 | the tag "incorrect" gives empty requirements and the invalid-size error |
| Labels.MergedLabels | internal/controller/resolvers/labels.go:5-9 | the merge always carries the two provenance labels with their values |
| Labels.MergeDefaultLabels | internal/controller/resolvers/labels.go:3-18 | the loop computes the fold of the inputs followed by the provenance labels |
| Labels.FoldKeys | internal/controller/resolvers/labels.go:11-15 | the keys of a fold are the union of the inputs' keys |
| Labels.FoldLastWriter | internal/controller/resolvers/labels.go:11-15 | a key's value comes from the last map that holds it |
| Labels.FoldSnoc | internal/controller/resolvers/labels.go:11-15 | folding one more map is a map override by it |
| Labels.MergedKeys | internal/controller/resolvers/labels.go:3-18 | the merged keys are the inputs' keys plus the two provenance keys |
| Labels.MergedLastWriter | internal/controller/resolvers/labels.go:3-18 | outside the provenance keys, the merged value of a key is that of the last input holding it |
| Labels.DefaultsWin | internal/controller/resolvers/labels.go:9 | the provenance values override any input value for their keys |
| Labels.MergeNothing | internal/controller/resolvers/labels.go:3-18 | merging no maps gives exactly the provenance labels |
| Labels.MergeIdempotent | internal/controller/resolvers/labels.go:3-18 | merging a merged map again changes nothing |
| Labels.MergeExample | internal/controller/resolvers/labels_test.go:8-40 | instance and version labels are kept and the provenance labels added |
| Endpoints.WithDomains | internal/controller/resolvers/endpoints.go:8-18 | filtering never lengthens the list |
| Endpoints.WithDomainsMembers | internal/controller/resolvers/endpoints.go:11-15 | an endpoint is kept if and only if it has a non-empty domain; the result is empty exactly when none has |
| Endpoints.EndpointsWithDomains | internal/controller/resolvers/endpoints.go:8-18 | the loop keeps, in order, the endpoints with a domain |
| Endpoints.WithDomainsAppend | internal/controller/resolvers/endpoints.go:11-15 | filtering distributes over concatenation, so relative order is kept |
| Endpoints.WithDomainsSnoc | internal/controller/resolvers/endpoints.go:12-14 | one more endpoint is appended exactly when it has a domain |
| Endpoints.WithDomainsIdempotent | internal/controller/resolvers/endpoints.go:8-18 | filtering twice is filtering once |
| Endpoints.WithDomainsKeepsDomained | internal/controller/resolvers/endpoints.go:8-18 | a list whose every endpoint has a domain is returned unchanged |
| Endpoints.PathFor | internal/controller/resolvers/endpoints.go:38-51 | a path is the endpoint's domain path, of type Prefix, to the application's service on the endpoint's port |
| Endpoints.Group | internal/controller/resolvers/endpoints.go:24-31 | a group is never longer than the endpoint list |
| Endpoints.GroupMembers | internal/controller/resolvers/endpoints.go:24-31 | a group holds exactly the endpoints with its domain; it is empty exactly when none has it |
| Endpoints.GroupAppend | internal/controller/resolvers/endpoints.go:24-31 | grouping distributes over concatenation, so within a domain the endpoints keep their input order |
| Endpoints.GroupSnoc | internal/controller/resolvers/endpoints.go:25-31 | one more endpoint is appended to a group exactly when it has the group's domain |
| Endpoints.Paths | internal/controller/resolvers/endpoints.go:35-52 | one path per endpoint of the group, in order |
| Endpoints.GroupsStep | internal/controller/resolvers/endpoints.go:25-31 | appending one endpoint to its domain's list keeps the map the grouping of the endpoints read so far |
| Endpoints.GroupByDomain | internal/controller/resolvers/endpoints.go:23-31 | the map has exactly the domains as keys, each with its endpoints in input order |
| Endpoints.BuildPaths | internal/controller/resolvers/endpoints.go:35-52 | the inner loop builds one path per endpoint, in order |
| Endpoints.RangeOfGroups | internal/controller/resolvers/endpoints.go:34 | ranging over the grouping map lists every domain of the endpoints once, each with its group |
| Endpoints.BuildRules | internal/controller/resolvers/endpoints.go:34-64 | the rule loop builds, for each listed domain in turn, the rule with that domain's paths |
| Endpoints.BuildIngressRules | internal/controller/resolvers/endpoints.go:20-67 | the rules are exactly one per distinct domain, hosts distinct, each with its domain's paths; the paths over all rules number exactly the endpoints |
| Endpoints.TotalPathsOfRules | internal/controller/resolvers/endpoints.go:54-63 | the paths over rules built host by host number the group sizes of those hosts |
| Endpoints.GroupsPartition | internal/controller/resolvers/endpoints.go:24-31 | over distinct hosts covering every domain, the group sizes add up to the number of endpoints |
| Endpoints.OccurrencesOfDistinct | internal/controller/resolvers/endpoints.go:34 | in a list of distinct hosts a host occurs once or not at all |
| Endpoints.DistinctCard | internal/controller/resolvers/endpoints.go:34 | a list of distinct hosts has as many members as entries |
| Endpoints.RulesListed | internal/controller/resolvers/endpoints.go:34-64 | rules built over an enumeration of the domains are exactly the rule set, with distinct hosts, one per domain |
| Endpoints.RulePaths | internal/controller/resolvers/endpoints.go:34-64 | each rule's host is a domain of the input and its k-th path is that of the k-th endpoint with that domain |
| Endpoints.EmptyDomainRule | internal/controller/resolvers/endpoints.go:26-31 | endpoints without a domain still get a rule, for the empty host |
| Endpoints.SharedDomainExample | internal/controller/resolvers/endpoints.go:20-67 | two endpoints on one domain give one rule with both paths in order |
| ApplicationTypes.FindStatusCondition | internal/controller/application_controller.go:314-325 | a found condition is in the list with the type looked up; none is found exactly when no condition has that type |
| ApplicationTypes.SetStatusCondition | internal/controller/application_controller.go:314-325 | the upsert holds the new condition, grows the list by at most one, and adds nothing else |
| ApplicationTypes.SetStatusConditionLookup | internal/controller/application_controller.go:314-325 | after the upsert, the condition's type finds it, and any other type finds what it found before |
| ApplicationTypes.SetStatusConditionLength | internal/controller/application_controller.go:314-325 | the upsert grows the list by one exactly when no condition had the type |
| ApplicationTypes.SetStatusConditionMembers | internal/controller/application_controller.go:314-325 | the new condition is present, other types' conditions are kept, and nothing else is added |
| ApplicationTypes.SetStatusConditionUnique | internal/controller/application_controller.go:314-325 | a list with one condition per type keeps that shape |
| ApplicationTypes.SetStatusConditionIdempotent | internal/controller/application_controller.go:314-325 | upserting the same condition twice is upserting it once |
| ApplicationTypes.WithCondition | api/v1alpha1/application_types.go:53-69 | changing the status leaves the name, namespace, labels, spec and deletion flag alone |
| Cluster.GetOutcome | internal/controller/application_deployment.go:27-28 | a read succeeds exactly when there is no fault and the object exists, returning it; with no fault, a failure is NotFound |
| Cluster.CreateError | internal/controller/application_deployment.go:94 | a create fails exactly on a fault or an existing object, the latter as AlreadyExists |
| Cluster.ExistingError | internal/controller/application_deployment.go:69 | an update or delete fails exactly on a fault or a missing object, the latter as NotFound |
| Cluster.StatusWritten | internal/controller/application_controller.go:327-330 | a status write replaces only the stored status, and only when it succeeds |
| Cluster.CreatedError | internal/controller/application_deployment.go:84-96 | build-then-create fails exactly when the build fails, a fault occurs or the object exists |
| Cluster.UpdatedError | internal/controller/application_deployment.go:64-73 | build-then-update fails exactly when the build fails, a fault occurs or the object is missing |
| Cluster.SetControllerReference | internal/controller/application_deployment.go:161-163 | on success the owner is recorded and name, namespace and labels kept |
| Cluster.Slot.Get | internal/controller/application_deployment.go:27-28 | a read returns the read outcome of the slot |
| Cluster.Slot.Create | internal/controller/application_deployment.go:94 | the slot holds the object exactly when the create succeeds |
| Cluster.Slot.Update | internal/controller/application_deployment.go:69 | the slot holds the new object exactly when the update succeeds |
| Cluster.Slot.Delete | internal/controller/application_service.go:54 | the slot is emptied exactly when the delete succeeds |
| Cluster.Store.UpdateStatus | internal/controller/application_controller.go:327 | the stored Application gets the given status exactly when the write succeeds |
| ApplicationStatus.ReconcileErrorOutcome | internal/controller/application_controller.go:298-333 | the report always returns an error, with no result or the empty one; the stored Application stays present or absent, its name and spec unchanged |
| ApplicationStatus.ReconciledOutcome | internal/controller/application_controller.go:139-158 | no result; no error exactly when the Application is stored and the write does not fail; the stored name and spec unchanged |
| ApplicationStatus.ReconcileErrorMessageParts | internal/controller/application_controller.go:320-324 | the error message is the fixed prefix, the Application's name, and the error text in parentheses |
| ApplicationStatus.SetApplicationReconcileError | internal/controller/application_controller.go:298-333 | the new store, Application, result and error are those of the re-fetch, upsert and status write |
| ApplicationStatus.RefetchFailureWritesNothing | internal/controller/application_controller.go:309-312 | a failed re-fetch writes nothing and returns an empty result with the fetch error |
| ApplicationStatus.ReconcileErrorRecorded | internal/controller/application_controller.go:309-332 | after a successful re-fetch and write, the stored Application is the re-fetched one with DeploymentAvailable=False and reason ReconcileError, and the original error is returned |
| ApplicationStatus.ReconcileErrorKeepsOtherConditions | internal/controller/application_controller.go:314-325 | conditions of other types survive the report |
| ApplicationStatus.ReconcileErrorWriteFails | internal/controller/application_controller.go:327-330 | a failed status write leaves the store alone and returns the write error instead |
| ApplicationStatus.SetApplicationReconciled | internal/controller/application_controller.go:139-158 | the new store, Application and error are those of upserting the success condition and writing the status |
| ApplicationStatus.ReconciledRecorded | internal/controller/application_controller.go:139-158 | a successful write records DeploymentAvailable=True, reason Reconciled, and returns nothing |
| ApplicationDeployment.BuildDeployment | internal/controller/application_deployment.go:101-165 | the build succeeds exactly on a valid size and no owner-reference failure; an invalid size gives the invalid-size error first |
| ApplicationDeployment.BuiltDeploymentFollowsSpec | internal/controller/application_deployment.go:101-165 | name, namespace, owner, replicas, image, command and one container port per distinct endpoint port follow the Application; limits and requests are both the size's quota |
| ApplicationDeployment.BuiltDeploymentSelector | internal/controller/application_deployment.go:105-130 | the selector is the template's labels: instance, version from the image tag, and the provenance labels |
| ApplicationDeployment.BuiltDeploymentHardened | internal/controller/application_deployment.go:133-151 | the pod runs as non-root with the runtime-default seccomp profile; the container cannot escalate and drops all capabilities |
| ApplicationDeployment.BuiltDeploymentPortsDistinct | internal/controller/application_deployment.go:152 | no two container ports share a name or a number |
| ApplicationDeployment.BuiltDeploymentIgnoresDomains | internal/controller/application_deployment.go:101-165 | endpoints with the same port numbers give the same Deployment, whatever their domains and paths |
| ApplicationDeployment.CreateDeployment | internal/controller/application_deployment.go:78-99 | the build's or the create's error is returned, else the built Deployment, which is then stored |
| ApplicationDeployment.UpdateDeploymentSpec | internal/controller/application_deployment.go:167-181 | on a successful build the object becomes the built Deployment in full, else it is kept and the error returned |
| ApplicationDeployment.DeploymentSync | internal/controller/application_deployment.go:21-76 | a pass without error leaves the built Deployment stored; the stored Application stays present or absent, its name and spec unchanged |
| ApplicationDeployment.ReconcileDeployment | internal/controller/application_deployment.go:21-76 | the new store, Application, result and error are those of the Deployment sync of the old store |
| ApplicationDeployment.DeploymentCreated | internal/controller/application_deployment.go:31-58 | a missing Deployment that is created is the built one, with a one-minute requeue and no status change |
| ApplicationDeployment.DeploymentCreateFailed | internal/controller/application_deployment.go:32-55 | a failed create upserts DeploymentAvailable=False with the error text on the in-memory Application and writes it without a re-fetch; the error returned is the status-write error if that fails, else the create's |
| ApplicationDeployment.DeploymentGetFailed | internal/controller/application_deployment.go:59-62 | a read error other than NotFound is returned and nothing is written |
| ApplicationDeployment.DeploymentUpdated | internal/controller/application_deployment.go:64-75 | a present Deployment is overwritten with the built one and success is recorded |
| ApplicationDeployment.DeploymentUpdateFailed | internal/controller/application_deployment.go:64-73 | a build or update failure keeps the stored Deployment and goes through the reconcile-error report |
| ApplicationDeployment.DeploymentConverges | internal/controller/application_deployment.go:21-76 | without faults, a present Deployment with a valid size ends as the built one with no error |
| ApplicationService.BuildService | internal/controller/application_service.go:105-133 | the build succeeds exactly when the owner reference can be recorded |
| ApplicationService.BuiltServiceFollowsSpec | internal/controller/application_service.go:105-133 | named after and owned by the Application, ClusterIP, selecting on its own labels, one port per distinct endpoint port targeting that port over TCP |
| ApplicationService.BuiltServiceLabels | internal/controller/application_service.go:109-113 | the instance label is the Application's name; the provenance labels are present; every other label of the Application is kept, and no other key appears |
| ApplicationService.BuiltServicePortsDistinct | internal/controller/application_service.go:124 | no two service ports share a name or a number |
| ApplicationService.CreateService | internal/controller/application_service.go:81-103 | the build's or the create's error is returned, else the built Service, which is then stored |
| ApplicationService.UpdateServiceSpec | internal/controller/application_service.go:135-148 | on a successful build the object becomes the built Service in full, else it is kept and the error returned |
| ApplicationService.ServiceSync | internal/controller/application_service.go:21-79 | a pass without error leaves the built Service when there are endpoints, and none when there are none and the read did not fail; the stored Application's name and spec unchanged |
| ApplicationService.ReconcileService | internal/controller/application_service.go:21-79 | the new store, Application, result and error are those of the Service sync of the old store |
| ApplicationService.ServiceNotWanted | internal/controller/application_service.go:33-36 | missing and no endpoints: nothing written, nothing returned |
| ApplicationService.ServiceCreate | internal/controller/application_service.go:38-45 | missing and wanted: the built Service is stored with an empty result, or the error is returned with no status written |
| ApplicationService.ServiceGetFailed | internal/controller/application_service.go:47-50 | a read error other than NotFound is returned and nothing is written |
| ApplicationService.ServiceDelete | internal/controller/application_service.go:52-60 | present and no endpoints: deleted, or the delete error is reported on the status |
| ApplicationService.ServiceUpdate | internal/controller/application_service.go:62-78 | present and wanted: overwritten with the built Service, or the error is reported on the status |
| ApplicationService.ServiceWantedIffEndpoints | internal/controller/application_service.go:21-79 | without faults a Service is left exactly when the Application has endpoints, and it is the built one |
| ApplicationService.ServiceSelectsNoPods | internal/controller/application_service.go:109-122 | as written: the Service's selector matches neither the Deployment's pod labels nor its template's |
| ApplicationService.BuildServiceCorrected | internal/controller/application_service.go:105-133 | corrected: the Service as built, with only its selector replaced |
| ApplicationService.CorrectedServiceSelectsPods | internal/controller/application_service.go:122 | corrected: the selector matches the pod labels of the Deployment of any Application of that name, whatever its image version |
| ApplicationIngress.BuiltIngressFollowsSpec | internal/controller/application_ingress.go:85-111 | named after the Application, no owner, its rules the rule set of the given endpoints: every host a domain of theirs, every domain a host |
| ApplicationIngress.BuiltIngressLabels | internal/controller/application_ingress.go:90-95 | the instance label is the Application's name, the ingress class the operator's, and the provenance labels are present |
| ApplicationIngress.BuildIngress | internal/controller/application_ingress.go:85-111 | named after the Application, in its namespace, with no owner; every rule's host is the domain of a given endpoint |
| ApplicationIngress.CreateIngress | internal/controller/application_ingress.go:63-83 | the create's error is returned, else the built Ingress, which is then stored |
| ApplicationIngress.UpdateIngressSpec | internal/controller/application_ingress.go:113-127 | the object becomes the built Ingress, with the rules of the given endpoints |
| ApplicationIngress.IngressSync | internal/controller/application_ingress.go:16-61 | as written: a pass without error leaves the Ingress built from the domain endpoints when there are some, and none when there are none and the read did not fail; the stored Application's name and spec unchanged |
| ApplicationIngress.ReconcileIngress | internal/controller/application_ingress.go:16-61 | as written: the new store, Application, result and error are those of the Ingress sync of the old store, a nil dereference included |
| ApplicationIngress.IngressCreateFailurePanics | internal/controller/application_ingress.go:28-53 | missing, wanted and not created: the pass dereferences nil |
| ApplicationIngress.IngressCreateFailureExample | internal/controller/application_ingress.go:28-53 | a quota failure on create of a one-domain Application gives the nil dereference |
| ApplicationIngress.ReconcileIngressChecked | internal/controller/application_ingress.go:16-61 | corrected: the new state is that of the checked Ingress sync of the old store |
| ApplicationIngress.IngressSyncChecked | internal/controller/application_ingress.go:16-61 | corrected: the same guarantees as the pass as written |
| ApplicationIngress.IngressSyncCheckedAgrees | internal/controller/application_ingress.go:28-53 | the two versions agree except when a wanted Ingress is missing and its create fails |
| ApplicationIngress.IngressCreateFailureReported | internal/controller/application_ingress.go:33 | corrected: a failed create returns the create error and writes nothing |
| ApplicationIngress.IngressSyncCheckedNeverPanics | internal/controller/application_ingress.go:16-61 | corrected: when no store call fails with a panic, the pass never panics |
| ApplicationIngress.IngressNotWanted | internal/controller/application_ingress.go:28-31 | missing and no domain endpoints: nothing written, nothing returned |
| ApplicationIngress.IngressCreatedThenRewritten | internal/controller/application_ingress.go:33-58 | missing and created: the pass then updates the new object with the built one, or reports the update error |
| ApplicationIngress.IngressGetFailed | internal/controller/application_ingress.go:34-37 | a read error other than NotFound is returned and nothing is written |
| ApplicationIngress.IngressDelete | internal/controller/application_ingress.go:39-47 | present and no domain endpoints: deleted, or the delete error is reported on the status |
| ApplicationIngress.IngressUpdate | internal/controller/application_ingress.go:49-60 | present and wanted: overwritten with the Ingress built from the domain endpoints, or the error reported |
| ApplicationIngress.IngressWantedIffDomains | internal/controller/application_ingress.go:25-60 | without faults an Ingress is left exactly when some endpoint has a domain, with those endpoints' rules |
| ApplicationController.Reconcile | internal/controller/application_controller.go:60-87 | the new store, result and error are those of the reconcile pass of the old store; Services and Ingresses are untouched |
| ApplicationController.ReconcilePass | internal/controller/application_controller.go:60-87 | a pass over a live Application that ends without error leaves its built Deployment; the pass never adds or removes the Application, nor changes its name or spec |
| ApplicationController.ApplicationGone | internal/controller/application_controller.go:64-69 | an Application that is gone is a quiet exit with nothing written |
| ApplicationController.ApplicationGetFailed | internal/controller/application_controller.go:70-71 | any other read error is returned with nothing written |
| ApplicationController.ApplicationBeingDeleted | internal/controller/application_controller.go:74-76 | an Application being deleted is left alone |
| ApplicationController.PassIsDeploymentSync | internal/controller/application_controller.go:78-86 | otherwise the pass is the Deployment sync: its error with an empty result, its result passed through, no result as the empty one |
| ApplicationController.FirstPassCreates | internal/controller/application_controller.go:60-87 | a new valid Application gets its built Deployment and a one-minute requeue |
| ApplicationController.InvalidSizeReported | internal/controller/application_controller.go:60-87 | an invalid size is returned as the error and recorded on the status, with no Deployment |
| ApplicationController.SecondPassConverges | internal/controller/application_controller.go:60-87 | a second pass without faults writes a Deployment with the same container ports as a set, records success, and returns an empty result with no error |

## Left out

- Kubernetes itself is an abstract store. Resource versions, optimistic-concurrency conflicts, watches, caching and concurrent reconciles are left out. Each store failure is a given fault.
- Logging, the event recorder, contexts, `SetupWithManager` and the RBAC markers are left out; they change no state the model tracks.
- `ctrl.SetControllerReference` and the scheme are an owner-name field plus a fault, because their code is not part of this model.
- `meta.SetStatusCondition` and `meta.FindStatusCondition` come from the Kubernetes libraries. The model defines them by their documented behaviour, an upsert keyed by type. Transition times and observed generations are left out.
- The texts of `ErrInvalidRuntimeSize` and of the API server's errors are not part of this model; `Wrappers.Text` gives them fixed stand-ins.
- `RuntimeImage`'s methods are not part of this model. The image is its reference and its tag, taken as given.
- `resource.MustParse` is not modelled: the quantities are integers in millicores and mebibytes.
- The duplicate definitions at application_controller.go:89-296 are not modelled apart from the success branch (139-158). They duplicate `application_deployment.go`, which the model follows.
- The condition type `DeploymentDegraded` is declared (application_controller.go:50) but never set, so the model does not declare it.
- Not modifying the input maps in `MergeDefaultLabels` holds by value semantics and is not stated separately.
- Aliasing between the in-hand object and the stored one is not modelled, because the model passes values.
- Labels.MergeDefaultLabels: Go's variadic append to the caller's slice is modelled as concatenation to a copy.
- ApplicationIngress.UpdateIngressSpec: the case of a nil object is decided by its callers, in `RewriteStep`.
- ApplicationController.SecondPassConverges: the convergence is equality of the container-port sets. Each pass re-lists the ports by ranging over a Go map (networking_types.go:49-51), so with two or more distinct ports the second pass may write them in another order. Kubernetes compares pod templates as ordered lists, so that reordering may start a new rollout, which the model does not capture.
- ApplicationDeployment.DeploymentConverges: the stored Deployment equals this pass's build only up to the order of its container ports, for the same reason.

## Findings

| source | as written | input that shows it | evidently intended | confidence | as-written member | corrected member |
|---|---|---|---|---|---|---|
| internal/controller/application_ingress.go:28-53 | after `createIngress` fails (line 33), its nil result and its error are kept, and the pass goes on to `updateIngressSpec` (line 50), whose `DeepCopyInto` at line 124 writes through the nil pointer | an Application with one endpoint on domain "a.com", no Ingress stored, and a create that fails (a quota refusal); reconcileIngress has no caller (application_controller.go:78), so the panic is latent | a failed create returns its error, as the Service pass does at application_service.go:38-42 | not executed | ApplicationIngress.IngressCreateFailurePanics | ApplicationIngress.IngressCreateFailureReported |
| api/v1alpha1/runtime_types.go:3 | the admission enum lists basic, basic-2x, standard-2x and performance | an Application of size "standard" is refused at admission although the controller gives it a quota | the enum lists all five valid sizes | not executed | RuntimeTypes.AdmissionEnumOmitsStandard | RuntimeTypes.AdmissionEnumCorrectedIsRuntimeSizes |
| internal/controller/application_service.go:109-122 | the selector is the Service's own labels: the Application's labels, instance set to the Application's name (line 112), and the provenance labels; the Deployment's pods carry instance `application-<name>` (application_deployment.go:106) and none of the Application's labels | an Application named "web" with one endpoint: the selector asks for instance "web", the pods carry "application-web"; reconcileService has no caller (application_controller.go:78), so the mismatch is latent | the selector names labels every pod of the Application carries: instance `application-<name>` and the provenance labels | not executed | ApplicationService.ServiceSelectsNoPods | ApplicationService.CorrectedServiceSelectsPods |
