# Sparky Kubernetes operator: reconciliation core

The Sparky operator watches `SpringBootApp` custom resources. For each one it
keeps a set of child objects in the cluster:
- a Deployment `<app>-app`;
- a ClusterIP Service `<app>-service`;
- a ConfigMap `<app>-config` holding `application.properties`;
- an Opaque Secret `<app>-secret` holding Base64-encoded placeholder credentials;
- optionally, an AWS RDS database instance.

`reconcile` writes these in a fixed order and `delete` removes them in the
reverse order. The database and monitoring steps run only when the spec enables
them. The first step that throws ends the pass, and the exception is swallowed
at the top.

This project models that core in Dafny and proves properties of the model.

- **Data.** The resource, its spec (with `ResourceLimits`, `DatabaseConfig` and
  `MonitoringConfig`), its status and the Kubernetes objects the operator writes
  are datatypes. Java `null` is `Option.None`. The `ports` map is a sequence of
  entries with distinct names, in the map's iteration order; the Deployment and
  the Service iterate the same map.
- **Cluster.** The API server is a `Cluster` class holding
  `objects: map<Key, Object>`, where `Key` is kind, namespace and name. Any call
  can throw. The keys whose calls throw are a fixed set `rejecting`, so every
  failure is reproducible and a pass is a function of its inputs.
  Create-or-replace and delete are the pure functions `PutAt` and `Remove`. The
  class methods are proved equal to them.
- **RDS.** The backend is an `RdsBackend` class:
  - instances map an identifier to an optional endpoint;
  - each of describe, create and delete has its own optional failure: a
    service error (an `RdsException` with its code) or a client-side error
    (any other SDK exception);
  - `emptyWhenMissing` chooses whether a describe for a missing identifier
    returns an empty list or a `DBInstanceNotFoundFault`;
  - the create and delete requests issued are logged.
- **Synchronisers.** Each service is a module. The object it writes is a pure
  function of the resource (`DesiredDeployment`, `DesiredService`,
  `DesiredConfigMap`, `DesiredSecret`). The effect on the store is a function
  (`SyncDeployment`, `SyncConfig`, `SyncDatabase`, …). The Java method is a
  Dafny method proved to have exactly that effect.
- **Controller.** `SpringBootAppController` is a class over the cluster and the
  backend.
  - `Reconcile` and `Delete` follow the Java control flow. They are proved equal
    to the straight-line functions `ReconcileRun` and `DeleteRun`.
  - Those functions are in turn proved to be a generic pipeline, `RunPlan`, run
    over the step plans `ReconcilePlan` and `DeletePlan`.
  - Ordering, gating, abort-on-first-failure, framing, idempotence and the
    fault-free round trip are proved about `RunPlan`.

The database instance identifier is `<app>-db-<s>`, where `s` is the first
eight characters of a random UUID drawn on every pass. Two consequences:
- A second pass never finds the instance the first pass requested.
  `Database.FreshPrefixRequestsAnotherInstance` proves that it issues a second
  create request, for a different instance.
- `Database.ProvisioningLifecycle` shows the creating-then-ready lifecycle. It
  holds only when both passes use the same identifier.

Every other derived name is deterministic; this one is drawn afresh on each
pass, so the existence check cannot match an earlier pass's instance. The
prefix is a parameter of every operation that uses it.

A described instance that has no endpoint yet makes the code read the address
of a null endpoint. That is an exception outside the `RdsException` handler, so
the database step fails (`Database.SyncFailsOnInstanceWithoutEndpoint`).

## Model

Source paths are relative to the repository root.

| member | source | states |
|---|---|---|
| Naming.ResourceName | src/main/java/com/sparky/operator/service/BaseService.java:22-24 | the child name has length \|app\|+1+\|type\|, starts with `app + "-"` and ends with the type tag |
| Naming.ResourceNameInjective | src/main/java/com/sparky/operator/service/BaseService.java:22-24 | for one application, two names are equal exactly when their type tags are |
| Naming.ResourceNameInjectiveInApp | src/main/java/com/sparky/operator/service/BaseService.java:22-24 | for one type tag, two names are equal exactly when the application names are |
| Naming.DerivedNamesDistinct | src/main/java/com/sparky/operator/service/BaseService.java:22-24 | the names for "app", "service", "config" and "secret" are pairwise different |
| Crd.NewSpec | src/main/java/com/sparky/operator/crd/SpringBootAppSpec.java:14-39 | a new spec has one replica; image, ports, resources, database and monitoring are absent |
| Crd.NewResourceLimits | src/main/java/com/sparky/operator/crd/SpringBootAppSpec.java:99-102 | all four quantities start absent, each independently optional |
| Crd.NewDatabaseConfig | src/main/java/com/sparky/operator/crd/SpringBootAppSpec.java:146-151 | defaults: disabled, "aurora-mysql", "db.t3.medium", 20, "admin" |
| Crd.NewMonitoringConfig | src/main/java/com/sparky/operator/crd/SpringBootAppSpec.java:203-205 | defaults: disabled, "spring-boot-dashboard" |
| Crd.NewStatus | src/main/java/com/sparky/operator/crd/SpringBootAppStatus.java:14-34 | a new status has every field absent |
| Kube.OwnerLabels | src/main/java/com/sparky/operator/service/DeploymentService.java:52-53 | the labels are exactly `app = <app>` and `sparky-operator-managed = "true"` |
| Kube.PutAt | src/main/java/com/sparky/operator/service/DeploymentService.java:79 | create-or-replace succeeds exactly when the key does not fault; the key then holds the object; no other key changes; a failed call changes nothing |
| Kube.Remove | src/main/java/com/sparky/operator/service/DeploymentService.java:99-102 | delete by name succeeds exactly when the key does not fault; the key is then absent (absence is not an error); no other key changes |
| Kube.Cluster.CreateOrReplace | src/main/java/com/sparky/operator/service/DeploymentService.java:79 | the store and result are those of create-or-replace at the object's own key |
| Kube.Cluster.ReplaceAt | src/main/java/com/sparky/operator/service/DatabaseService.java:263-266 | the store and result are those of create-or-replace at the named key |
| Kube.Cluster.Delete | src/main/java/com/sparky/operator/service/DeploymentService.java:99-102 | the store and result are those of delete by name |
| Kube.Cluster.Get | src/main/java/com/sparky/operator/service/DatabaseService.java:235-238 | the call succeeds exactly when the key does not fault, and then yields the stored object or null |
| Base64.Encode | src/main/java/com/sparky/operator/service/ConfigService.java:137-138 | the encoding is padded: 4·⌈n/3⌉ characters |
| Base64.EncodeAlphabet | src/main/java/com/sparky/operator/service/ConfigService.java:137-138 | every output character is from the RFC 4648 section 4 alphabet, except exactly (3 − n mod 3) mod 3 trailing `=` characters |
| Base64.DecodeEncode | src/main/java/com/sparky/operator/service/ConfigService.java:137-138 | decoding the encoding gives back the bytes (RFC 4648 section 4 alphabet and padding) |
| Base64.AsciiBytes | src/main/java/com/sparky/operator/service/ConfigService.java:137-138 | `getBytes` of an ASCII string: one byte per character, its code |
| Credentials.SecretData | src/main/java/com/sparky/operator/service/ConfigService.java:136-138 | the secret data has exactly the keys "db-username" and "db-password", which decode to "admin" and "TempPassword123!" |
| Credentials.UsernameEncoded | src/main/java/com/sparky/operator/service/ConfigService.java:137 | "admin" encodes to "YWRtaW4=" |
| Credentials.PasswordEncoded | src/main/java/com/sparky/operator/service/ConfigService.java:138 | "TempPassword123!" encodes to its 24-character padded form |
| Credentials.SecretDataEncoded | src/main/java/com/sparky/operator/service/ConfigService.java:136-138 | the stored values are exactly those two encodings |
| Deployments.ContainerPorts | src/main/java/com/sparky/operator/service/DeploymentService.java:114-133 | a null or empty ports map gives exactly one port "http"/8080; otherwise one port per entry with the entry's name and number, in order; names are distinct |
| Deployments.Requirements | src/main/java/com/sparky/operator/service/DeploymentService.java:140-176 | no resources give empty requests and limits; "cpu"/"memory" appear exactly when the quantity is set, with that quantity; no other keys |
| Deployments.CreateResourceRequirements | src/main/java/com/sparky/operator/service/DeploymentService.java:140-176 | filling the maps by conditional puts yields exactly `Requirements` |
| Deployments.DesiredDeployment | src/main/java/com/sparky/operator/service/DeploymentService.java:48-74 | name `<app>-app`, owner labels, spec replicas, selector {app}, template labels cover the selector, one container "app" with the spec image, ports and requirements |
| Deployments.CreateOrUpdateDeployment | src/main/java/com/sparky/operator/service/DeploymentService.java:32-84 | on success the Deployment key holds the desired Deployment and nothing else changes; on failure nothing changes |
| Deployments.DeleteDeployment | src/main/java/com/sparky/operator/service/DeploymentService.java:91-107 | removes exactly the `<app>-app` Deployment key |
| Services.ServicePorts | src/main/java/com/sparky/operator/service/ServiceService.java:108-131 | default "http" 8080→8080 for a null or empty map; otherwise one port per entry with target = port |
| Services.ServicePortsMatchContainerPorts | src/main/java/com/sparky/operator/service/ServiceService.java:108-131 | the service ports pair up with the container ports: same count (map size, or 1), same names, port = targetPort = containerPort |
| Services.CreateServicePorts | src/main/java/com/sparky/operator/service/ServiceService.java:108-131 | the list appended to in the loop is exactly `ServicePorts` |
| Services.DesiredService | src/main/java/com/sparky/operator/service/ServiceService.java:56-68 | name `<app>-service`, owner labels, type ClusterIP, selector exactly {app}, the service ports |
| Services.ServiceSelectsWorkloadPods | src/main/java/com/sparky/operator/service/ServiceService.java:64 | every selector label of the Service is a template label of the Deployment, with the same value |
| Services.CreateOrUpdateService | src/main/java/com/sparky/operator/service/ServiceService.java:35-78 | on success only the Service key changes, to the desired Service; on failure nothing changes |
| Services.DeleteService | src/main/java/com/sparky/operator/service/ServiceService.java:85-101 | removes exactly the `<app>-service` key |
| Config.ApplicationProperties | src/main/java/com/sparky/operator/service/ConfigService.java:165-185 | always begins with the three comment lines and the application-name line; exactly those four lines when the database is off; otherwise longer and ending with the url, username and password lines |
| Config.UrlLineNamesDatabase | src/main/java/com/sparky/operator/service/ConfigService.java:179 | the url line carries `${DB_NAME:<app>}` right after the host and port placeholders |
| Config.AppendHeader | src/main/java/com/sparky/operator/service/ConfigService.java:166-170 | the buffer after the unconditional appends holds the three comment lines and the application-name line |
| Config.AppendDatasource | src/main/java/com/sparky/operator/service/ConfigService.java:176-181 | the database appends add the blank line, the three database comments and the url, username and password lines after what the buffer held |
| Config.CreateApplicationProperties | src/main/java/com/sparky/operator/service/ConfigService.java:165-185 | the text built by appending is exactly `ApplicationProperties` |
| Config.DesiredConfigMap | src/main/java/com/sparky/operator/service/ConfigService.java:102-116 | name `<app>-config`, owner labels, exactly one key "application.properties" holding the properties text |
| Config.DesiredSecret | src/main/java/com/sparky/operator/service/ConfigService.java:136-152 | name `<app>-secret`, owner labels, type Opaque, data is the encoded credentials |
| Config.SyncConfig | src/main/java/com/sparky/operator/service/ConfigService.java:33-54 | the ConfigMap is written before the Secret: a faulting ConfigMap changes nothing; a faulting Secret fails the step with the ConfigMap already written; success means both keys hold the desired objects |
| Config.TeardownConfig | src/main/java/com/sparky/operator/service/ConfigService.java:61-88 | the ConfigMap is deleted before the Secret: a faulting ConfigMap changes nothing; a faulting Secret fails the step with the ConfigMap already removed; success removes exactly those two keys |
| Config.CreateConfigMap | src/main/java/com/sparky/operator/service/ConfigService.java:95-122 | the store is that of create-or-replace of the desired ConfigMap |
| Config.CreateSecret | src/main/java/com/sparky/operator/service/ConfigService.java:129-158 | the store is that of create-or-replace of the desired Secret |
| Config.CreateOrUpdateConfigResources | src/main/java/com/sparky/operator/service/ConfigService.java:33-54 | the store and result are exactly `SyncConfig` |
| Config.DeleteConfigResources | src/main/java/com/sparky/operator/service/ConfigService.java:61-88 | the store and result are exactly `TeardownConfig` |
| Database.AfterCreate | src/main/java/com/sparky/operator/service/DatabaseService.java:154-180 | the request is logged; it fails exactly with the backend's create error, and only an accepted request adds the instance, without an endpoint |
| Database.AfterDelete | src/main/java/com/sparky/operator/service/DatabaseService.java:203-209 | the request is logged; it fails exactly with the backend's delete error, and only an accepted request removes the instance |
| Database.RdsBackend.DescribeDbInstances | src/main/java/com/sparky/operator/service/DatabaseService.java:118-122 | answers as the backend state says: the instance, an empty list, a not-found fault or the backend's describe error (service or client) |
| Database.RdsBackend.CreateDbInstance | src/main/java/com/sparky/operator/service/DatabaseService.java:155-165 | the new backend state and result are those of `AfterCreate` |
| Database.RdsBackend.DeleteDbInstance | src/main/java/com/sparky/operator/service/DatabaseService.java:204-209 | the new backend state and result are those of `AfterDelete` |
| Database.DbInstanceId | src/main/java/com/sparky/operator/service/DatabaseService.java:112 | the identifier is `<app>-db-<prefix>` |
| Database.DbInstanceIdInjective | src/main/java/com/sparky/operator/service/DatabaseService.java:112 | two prefixes give the same identifier exactly when they are equal |
| Database.Decide | src/main/java/com/sparky/operator/service/DatabaseService.java:127-148 | use the first instance exactly when the list is non-empty; create exactly on an empty list or a not-found fault; abort, keeping the error, exactly on any other service or client error |
| Database.CreateRequestFor | src/main/java/com/sparky/operator/service/DatabaseService.java:155-165 | the request carries the identifier, the spec's class, engine, storage and user, the generated password, and is not publicly accessible |
| Database.StatusAfter | src/main/java/com/sparky/operator/service/DatabaseService.java:244-257 | id and endpoint set; phase "DatabaseReady" with "Database <id> is ready at <endpoint>" when there is an endpoint, else "DatabaseCreating" with "Database <id> creation initiated"; createdResources kept |
| Database.StatusAfterPhase | src/main/java/com/sparky/operator/service/DatabaseService.java:254-257 | the phase label written agrees with the lifecycle state (ready or creating) the status records |
| Database.WriteStatus | src/main/java/com/sparky/operator/service/DatabaseService.java:226-277 | only the resource's own key can change; an absent resource or a failing call writes nothing; otherwise the re-fetched resource gets the updated status |
| Database.UpdateAppStatus | src/main/java/com/sparky/operator/service/DatabaseService.java:226-277 | re-fetch, field-by-field update and replace leave the store exactly as `WriteStatus` |
| Database.SyncDatabase | src/main/java/com/sparky/operator/service/DatabaseService.java:96-181 | no delete request; at most one create request, for this identifier with the spec's settings; no store key other than the resource's own changes; a failed step writes nothing to the store; the step succeeds exactly when a described instance has an endpoint, or a missing one (empty list or not-found) has a database config and its create request is accepted |
| Database.CreateOrUpdateDatabase | src/main/java/com/sparky/operator/service/DatabaseService.java:96-181 | store, backend and result are exactly `SyncDatabase` |
| Database.SyncFindsReadyInstance | src/main/java/com/sparky/operator/service/DatabaseService.java:127-134 | an existing instance with an endpoint is recorded with that id and endpoint, and no request is issued |
| Database.SyncRequestsMissingInstance | src/main/java/com/sparky/operator/service/DatabaseService.java:135-170 | a missing instance yields exactly one create request; the instance then exists without endpoint and the status records it as being created |
| Database.SyncCreateFailureFails | src/main/java/com/sparky/operator/service/DatabaseService.java:153-179 | a refused create request is logged, adds no instance, writes nothing and fails the step, because the exception is rethrown or escapes |
| Database.SyncAbortsOnOtherError | src/main/java/com/sparky/operator/service/DatabaseService.java:143-148 | any other describe error fails the step with nothing requested and nothing written |
| Database.SyncFailsOnInstanceWithoutEndpoint | src/main/java/com/sparky/operator/service/DatabaseService.java:127-129 | an instance found without an endpoint fails the step with nothing written |
| Database.FreshPrefixRequestsAnotherInstance | src/main/java/com/sparky/operator/service/DatabaseService.java:112-122 | two passes with different random prefixes issue two create requests for two different instances |
| Database.ProvisioningLifecycle | src/main/java/com/sparky/operator/service/DatabaseService.java:127-170 | with one identifier, the first pass records "DatabaseCreating"; after an endpoint appears, the next pass records "DatabaseReady" at it and requests nothing |
| Database.TeardownDatabase | src/main/java/com/sparky/operator/service/DatabaseService.java:188-219 | deletion never issues a create request; the only error it lets escape is a client-side one, since the handler catches `RdsException` alone |
| Database.DeleteDatabase | src/main/java/com/sparky/operator/service/DatabaseService.java:188-219 | the backend ends exactly as `TeardownDatabase`; the method reports failure exactly when a client-side error escapes, service errors being swallowed |
| Database.TeardownGuard | src/main/java/com/sparky/operator/service/DatabaseService.java:190-209 | no status, no id or an empty id means no request; otherwise exactly one delete for that id, skipping the final snapshot; the instance is removed exactly when the delete is accepted, and the step fails exactly on a client-side delete error |
| Database.TeardownRemovesRecordedInstance | src/main/java/com/sparky/operator/service/DatabaseService.java:188-209 | an id the status records is gone after a delete the backend accepts, and the step succeeds |
| Monitoring.SetupMonitoring | src/main/java/com/sparky/operator/service/MonitoringService.java:25-52 | the stub never fails and changes nothing |
| Monitoring.DeleteMonitoring | src/main/java/com/sparky/operator/service/MonitoringService.java:59-73 | the stub never fails and changes nothing |
| Controller.ReconcilePlan | src/main/java/com/sparky/operator/controller/SpringBootAppController.java:53-83 | only set-up steps, strictly in order deployment, service, database, config, monitoring; the three mandatory steps are present; each gated step is present exactly when enabled |
| Controller.DeletePlan | src/main/java/com/sparky/operator/controller/SpringBootAppController.java:113-137 | only teardowns, strictly in order monitoring, config, database, service, deployment; the mandatory ones are present; each gated step is present exactly when enabled |
| Controller.DeletePlanReversesReconcile | src/main/java/com/sparky/operator/controller/SpringBootAppController.java:100-137 | the delete plan is the reconcile plan reversed, step by step undone |
| Controller.RunStep | src/main/java/com/sparky/operator/controller/SpringBootAppController.java:53-83 | a step changes no store key outside its own keys or outside the app's keys; only database steps touch the backend; only the database sync can touch the resource itself |
| Controller.RunPlan | src/main/java/com/sparky/operator/controller/SpringBootAppController.java:39-93 | the invoked steps are a prefix of the plan; a completed pass invoked all of it; an aborted pass invoked at least one step |
| Controller.RunPlanAppend | src/main/java/com/sparky/operator/controller/SpringBootAppController.java:39-93 | running two plans one after the other runs the second only if the first completed, from where it left off |
| Controller.StopsAtFirstFailure | src/main/java/com/sparky/operator/controller/SpringBootAppController.java:39-93 | an aborted pass stopped at its last invoked step: all earlier steps completed, that one failed, and the pass ends in the world it left |
| Controller.GatedStepsNeverRun | src/main/java/com/sparky/operator/controller/SpringBootAppController.java:63-127 | a disabled database or monitoring step is never invoked by either entry point, whatever fails |
| Controller.RunPlanFrame | src/main/java/com/sparky/operator/controller/SpringBootAppController.java:39-147 | under any faults a pass changes no key outside the app's own; without a database sync it changes only the four derived keys |
| Controller.DistinctAppsDisjointKeys | src/main/java/com/sparky/operator/service/BaseService.java:22-24 | applications with different name or namespace own disjoint store keys |
| Controller.OtherAppsUntouched | src/main/java/com/sparky/operator/controller/SpringBootAppController.java:100-147 | a pass for one application leaves every key of another application as it was |
| Controller.StepOverlay | src/main/java/com/sparky/operator/controller/SpringBootAppController.java:53-83 | a set-up step other than the database overlays writes that depend on the faults alone, not on the store |
| Controller.RunPlanOverlay | src/main/java/com/sparky/operator/controller/SpringBootAppController.java:53-83 | a pass without the database overlays a fixed set of writes on whatever the store holds |
| Controller.ReconcileIdempotentWithoutDatabase | src/main/java/com/sparky/operator/controller/SpringBootAppController.java:53-83 | with the database disabled, a second reconcile on an unchanged spec ends exactly as the first, whatever faults |
| Controller.FaultFreeReconcile | src/main/java/com/sparky/operator/controller/SpringBootAppController.java:53-83 | with no derived key faulting (and a reachable backend when enabled) reconcile completes all its steps and the four derived objects are exactly the desired ones |
| Controller.FaultFreeTeardowns | src/main/java/com/sparky/operator/controller/SpringBootAppController.java:113-137 | teardowns whose keys do not fault all complete and remove exactly their keys |
| Controller.FaultFreeDelete | src/main/java/com/sparky/operator/controller/SpringBootAppController.java:100-147 | with no derived key faulting and no client-side delete error, delete completes and removes exactly the four derived keys |
| Controller.ReconcileThenDelete | src/main/java/com/sparky/operator/controller/SpringBootAppController.java:39-147 | a fault-free reconcile then delete (no client-side delete error) leaves no derived object and every other key as it was before |
| Controller.RunPlanKeepsFaults | src/main/java/com/sparky/operator/controller/SpringBootAppController.java:39-147 | no pass changes which backend calls fail |
| Controller.ClientFailureStopsDelete | src/main/java/com/sparky/operator/controller/SpringBootAppController.java:100-145 | a client-side error from the RDS delete escapes `deleteDatabase`, so delete stops at the database step: the Service and Deployment teardowns never run and only the ConfigMap and Secret are gone |
| Controller.DeleteRunStopsAtDatabase | src/main/java/com/sparky/operator/controller/SpringBootAppController.java:100-145 | with a client-side delete error, `DeleteRun` ends failed after config and database teardown, with only the ConfigMap and Secret removed |
| Controller.ReconcileRestFollowsPlan | src/main/java/com/sparky/operator/controller/SpringBootAppController.java:63-83 | the tail of reconcile as written is the pipeline over database (if enabled), config, monitoring (if enabled) |
| Controller.ReconcileFromConfigFollowsPlan | src/main/java/com/sparky/operator/controller/SpringBootAppController.java:73-83 | the config and monitoring steps as written are the pipeline over config, monitoring (if enabled) |
| Controller.ReconcileFromServiceFollowsPlan | src/main/java/com/sparky/operator/controller/SpringBootAppController.java:58-83 | reconcile from the service step on is the pipeline over service, database (if enabled), config, monitoring (if enabled) |
| Controller.ReconcileFollowsPlan | src/main/java/com/sparky/operator/controller/SpringBootAppController.java:39-93 | reconcile as written is the pipeline run over the reconcile plan |
| Controller.DeleteRestFollowsPlan | src/main/java/com/sparky/operator/controller/SpringBootAppController.java:125-137 | the tail of delete as written is the pipeline over database (if enabled), service, deployment |
| Controller.DeleteFollowsPlan | src/main/java/com/sparky/operator/controller/SpringBootAppController.java:100-147 | delete as written is the pipeline run over the delete plan |
| Controller.SpringBootAppController.Reconcile | src/main/java/com/sparky/operator/controller/SpringBootAppController.java:39-93 | the cluster, the backend and the steps invoked are exactly those of `ReconcileRun` |
| Controller.SpringBootAppController.ReconcileRemaining | src/main/java/com/sparky/operator/controller/SpringBootAppController.java:63-83 | the database step (if enabled) and what follows end exactly as `ReconcileRest` |
| Controller.SpringBootAppController.ReconcileConfigAndMonitoring | src/main/java/com/sparky/operator/controller/SpringBootAppController.java:73-83 | the config step and the monitoring step (if enabled) end exactly as `ReconcileFromConfig` |
| Controller.SpringBootAppController.Delete | src/main/java/com/sparky/operator/controller/SpringBootAppController.java:100-147 | the cluster, the backend and the steps invoked are exactly those of `DeleteRun` |
| Controller.SpringBootAppController.DeleteRemaining | src/main/java/com/sparky/operator/controller/SpringBootAppController.java:125-137 | the database, service and deployment part ends exactly as `DeleteRest` |
| Controller.SpringBootAppController.Handle | src/main/java/com/sparky/operator/SparkyOperator.java:146-166 | an added resource, or an updated one in its new form, is reconciled; a deleted resource is deleted |

## Left out

- Getters, setters and deserialisation of the custom resource are not modelled; the spec and status are immutable values, so a setter is a record update.
- Logging (all of it) is left out; it has no effect on the cluster or the backend.
- `getAwsRegion` and the construction of the RDS client (region from the environment, credentials) are left out; they only configure the AWS SDK.
- The fabric8 and AWS SDK clients are replaced by the `Cluster` store and the `RdsBackend`. Which calls throw is an input: the `rejecting` key set and the backend's per-call failures. Network errors, timeouts and partial writes are not distinguished from one another.
- The random UUID behind the database identifier is not generated; its eight-character prefix is a parameter of every operation that uses it.
- `generatePassword` returns its fixed placeholder; there is no randomness to model.
- Quantities are kept as the strings the spec gives; fabric8's `Quantity` parsing and normalisation are not modelled.
- Concurrent `updateAppStatus` read-modify-write calls are not modelled; each pass runs to completion before the next.
- `SparkyOperator` event plumbing is left out: informer registration, the 30-second resync, thread joining, the shutdown hook. Only its handler's dispatch is modelled (`Handle`).
- RDS deletion is asynchronous in reality; the model removes the instance when the request is accepted.
- A resource without a spec (a null spec) is not modelled; the spec is always present.
- Monitoring has no implementation in the source (its two methods only log), so its steps change nothing.
- Database.TeardownDatabase: its own contract only says that no create request is issued and that only client-side errors escape; what it does issue is stated by `Database.TeardownGuard`.
