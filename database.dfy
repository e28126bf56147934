/**
 * The external database provisioner (DatabaseService). Once per
 * reconciliation it asks the RDS backend about an instance identifier,
 * and either records the instance found, requests a new one and records
 * that it is being created, or gives up. Status is written by re-fetching
 * the SpringBootApp and replacing it; deletion is guarded by the
 * snapshot's recorded database id.
 */
module Database {
  import opened Wrappers
  import opened Crd
  import opened Naming
  import opened Kube

  /** The error code RDS raises when no instance has the identifier asked about. */
  const NotFoundCode: string := "DBInstanceNotFoundFault"

  datatype DbInstance = DbInstance(id: string, endpoint: Option<string>)

  /**
   * An error a client call raises: an `RdsException` carrying the service's
   * error code, or a client-side failure (any other SDK exception, such as
   * missing credentials, an unreachable endpoint or a timeout).
   */
  datatype RdsError = ServiceError(code: string) | ClientError

  /** The not-found fault a describe of an unknown identifier raises. */
  const NotFound: RdsError := ServiceError(NotFoundCode)

  /** What describeDBInstances yields: a list of instances, or the error it raised. */
  datatype DescribeResponse = Listed(instances: seq<DbInstance>) | Raised(error: RdsError)

  datatype CreateRequest = CreateRequest(
    dbInstanceIdentifier: string,
    dbInstanceClass: string,
    engine: string,
    allocatedStorage: int,
    masterUsername: string,
    masterUserPassword: string,
    publiclyAccessible: bool)

  datatype DeleteRequest = DeleteRequest(dbInstanceIdentifier: string, skipFinalSnapshot: bool)

  /**
   * How the backend fails: the error each kind of call raises, if any, and
   * whether a describe of a missing identifier answers with an empty list
   * rather than a not-found fault.
   */
  datatype RdsFaults = RdsFaults(
    describeError: Option<RdsError>,
    createError: Option<RdsError>,
    deleteError: Option<RdsError>,
    emptyWhenMissing: bool)

  /**
   * The RDS backend: the instances it holds (identifier to endpoint, absent
   * while the instance is being created), how its calls fail, and the create
   * and delete requests issued to it.
   */
  datatype RdsState = RdsState(
    instances: map<string, Option<string>>,
    faults: RdsFaults,
    createRequests: seq<CreateRequest>,
    deleteRequests: seq<DeleteRequest>)

  /** The backend's answer to describeDBInstances for one identifier. */
  function DescribeOf(rds: RdsState, id: string): DescribeResponse {
    if rds.faults.describeError.Some? then Raised(rds.faults.describeError.value)
    else if id in rds.instances then Listed([DbInstance(id, rds.instances[id])])
    else if rds.faults.emptyWhenMissing then Listed([])
    else Raised(NotFound)
  }

  /** A client call's effect: the backend afterwards, and the error the call raised, if any. */
  datatype RdsApplied = RdsApplied(rds: RdsState, error: Option<RdsError>)

  /** createDBInstance: the request is issued; when accepted, the instance exists without an endpoint. */
  function AfterCreate(rds: RdsState, req: CreateRequest): (r: RdsApplied)
    ensures r.rds.createRequests == rds.createRequests + [req]
    ensures r.rds.deleteRequests == rds.deleteRequests && r.rds.faults == rds.faults
    ensures r.error == rds.faults.createError
    ensures r.rds.instances == if r.error.None? then rds.instances[req.dbInstanceIdentifier := None] else rds.instances
  {
    var issued := rds.(createRequests := rds.createRequests + [req]);
    if rds.faults.createError.Some? then RdsApplied(issued, rds.faults.createError)
    else RdsApplied(issued.(instances := rds.instances[req.dbInstanceIdentifier := None]), None)
  }

  /** deleteDBInstance: the request is issued; when accepted, the instance is gone. */
  function AfterDelete(rds: RdsState, req: DeleteRequest): (r: RdsApplied)
    ensures r.rds.deleteRequests == rds.deleteRequests + [req]
    ensures r.rds.createRequests == rds.createRequests && r.rds.faults == rds.faults
    ensures r.error == rds.faults.deleteError
    ensures r.rds.instances == if r.error.None? then rds.instances - {req.dbInstanceIdentifier} else rds.instances
  {
    var issued := rds.(deleteRequests := rds.deleteRequests + [req]);
    if rds.faults.deleteError.Some? then RdsApplied(issued, rds.faults.deleteError)
    else RdsApplied(issued.(instances := rds.instances - {req.dbInstanceIdentifier}), None)
  }

  /** The RDS client, as a mutable backend. */
  class RdsBackend {
    var instances: map<string, Option<string>>
    const faults: RdsFaults
    var createRequests: seq<CreateRequest>
    var deleteRequests: seq<DeleteRequest>

    constructor (instances: map<string, Option<string>>, faults: RdsFaults)
      ensures State() == RdsState(instances, faults, [], [])
    {
      this.instances := instances;
      this.faults := faults;
      this.createRequests := [];
      this.deleteRequests := [];
    }

    function State(): RdsState
      reads this
    {
      RdsState(instances, faults, createRequests, deleteRequests)
    }

    method DescribeDbInstances(id: string) returns (r: DescribeResponse)
      ensures r == DescribeOf(State(), id)
    {
      if faults.describeError.Some? {
        r := Raised(faults.describeError.value);
      } else if id in instances {
        r := Listed([DbInstance(id, instances[id])]);
      } else if faults.emptyWhenMissing {
        r := Listed([]);
      } else {
        r := Raised(NotFound);
      }
    }

    /** createDBInstance; `error` is the exception it throws, if any. */
    method CreateDbInstance(req: CreateRequest) returns (error: Option<RdsError>)
      modifies this
      ensures RdsApplied(State(), error) == AfterCreate(old(State()), req)
    {
      createRequests := createRequests + [req];
      error := faults.createError;
      if error.None? {
        instances := instances[req.dbInstanceIdentifier := None];
      }
    }

    /** deleteDBInstance; `error` is the exception it throws, if any. */
    method DeleteDbInstance(req: DeleteRequest) returns (error: Option<RdsError>)
      modifies this
      ensures RdsApplied(State(), error) == AfterDelete(old(State()), req)
    {
      deleteRequests := deleteRequests + [req];
      error := faults.deleteError;
      if error.None? {
        instances := instances - {req.dbInstanceIdentifier};
      }
    }
  }

  /** The instance identifier: `<appName>-db-<s>`, `s` the first eight characters of a random UUID. */
  function DbInstanceId(appName: string, uuidPrefix: string): (id: string)
    ensures id == appName + "-db-" + uuidPrefix
  {
    ResourceName(appName, "db-" + uuidPrefix)
  }

  /** What createOrUpdateDatabase does with the describe response. */
  datatype Decision = UseExisting(instance: DbInstance) | CreateNew | Abort(error: RdsError)

  /**
   * A non-empty list means the instance exists (the first one is used); an
   * empty list or a not-found fault means it must be created; any other
   * error, an `RdsException` with another code or a client-side failure,
   * aborts.
   */
  function Decide(r: DescribeResponse): (d: Decision)
    ensures d.UseExisting? <==> r.Listed? && |r.instances| > 0
    ensures d.UseExisting? ==> d.instance == r.instances[0]
    ensures d.CreateNew? <==> (r.Listed? && r.instances == []) || (r.Raised? && r.error == NotFound)
    ensures d.Abort? <==> r.Raised? && r.error != NotFound
    ensures d.Abort? ==> d.error == r.error
  {
    match r
    case Listed(instances) => if |instances| > 0 then UseExisting(instances[0]) else CreateNew
    case Raised(error) => if error == NotFound then CreateNew else Abort(error)
  }

  /** generatePassword: a fixed placeholder. */
  function GeneratePassword(): string {
    "TempPassword123!"
  }

  /** The create request: the spec's class, engine, storage and user; never publicly accessible. */
  function CreateRequestFor(id: string, config: DatabaseConfig): (req: CreateRequest)
    ensures req.dbInstanceIdentifier == id
    ensures req.dbInstanceClass == config.instanceClass && req.engine == config.engine
    ensures req.allocatedStorage == config.allocatedStorage && req.masterUsername == config.masterUsername
    ensures req.masterUserPassword == GeneratePassword()
    ensures !req.publiclyAccessible
  {
    CreateRequest(id, config.instanceClass, config.engine, config.allocatedStorage, config.masterUsername,
                  GeneratePassword(), false)
  }

  /** The lifecycle the status records: no database, one being created, one ready. */
  datatype DbPhase = NoDatabase | Creating(id: string) | Ready(id: string, endpoint: string)

  /** The lifecycle state a status records. */
  function PhaseOf(s: Option<Status>): DbPhase {
    if s.None? || s.value.databaseId.None? then NoDatabase
    else if s.value.databaseEndpoint.None? then Creating(s.value.databaseId.value)
    else Ready(s.value.databaseId.value, s.value.databaseEndpoint.value)
  }

  /**
   * The status updateAppStatus writes: the existing status (or a fresh one)
   * with id, endpoint, phase and message set and createdResources kept.
   */
  function StatusAfter(current: Option<Status>, id: string, endpoint: Option<string>): (s: Status)
    ensures s.databaseId == Some(id) && s.databaseEndpoint == endpoint
    ensures s.phase == Some(if endpoint.Some? then "DatabaseReady" else "DatabaseCreating")
    ensures endpoint.Some? ==> s.message == Some("Database " + id + " is ready at " + endpoint.value)
    ensures endpoint.None? ==> s.message == Some("Database " + id + " creation initiated")
    ensures s.createdResources == if current.Some? then current.value.createdResources else None
  {
    var base := current.GetOr(NewStatus());
    base.(
      databaseId := Some(id),
      databaseEndpoint := endpoint,
      phase := Some(if endpoint.Some? then "DatabaseReady" else "DatabaseCreating"),
      message := Some(if endpoint.Some? then "Database " + id + " is ready at " + endpoint.value
                      else "Database " + id + " creation initiated"))
  }

  /** The phase label and the lifecycle state the written status records always agree. */
  lemma StatusAfterPhase(current: Option<Status>, id: string, endpoint: Option<string>)
    ensures var s := StatusAfter(current, id, endpoint);
      && (s.phase == Some("DatabaseReady") <==> PhaseOf(Some(s)) == Ready(id, endpoint.GetOr("")))
      && (s.phase == Some("DatabaseCreating") <==> PhaseOf(Some(s)) == Creating(id))
  {
  }

  /** The store key of the SpringBootApp resource itself. */
  function AppKey(app: App): Key {
    Key(AppKind, app.namespace, app.name)
  }

  /**
   * The effect of updateAppStatus: when the re-fetched resource exists, its
   * own status becomes StatusAfter of that status; when it is absent or any
   * call throws, nothing is written. No other key changes, ever.
   */
  function WriteStatus(objects: map<Key, Object>, rejecting: set<Key>, app: App, id: string, endpoint: Option<string>)
    : (r: map<Key, Object>)
    ensures r.Keys == objects.Keys
    ensures forall k :: k in objects && k != AppKey(app) ==> r[k] == objects[k]
    ensures AppKey(app) in rejecting || AppKey(app) !in objects ==> r == objects
    ensures AppKey(app) !in rejecting && AppKey(app) in objects && objects[AppKey(app)].AppObject? ==>
      var current := objects[AppKey(app)].app;
      r[AppKey(app)] == AppObject(current.(status := Some(StatusAfter(current.status, id, endpoint))))
  {
    var k := AppKey(app);
    if k in rejecting || k !in objects || !objects[k].AppObject? then objects
    else
      var current := objects[k].app;
      PutAt(objects, rejecting, k, AppObject(current.(status := Some(StatusAfter(current.status, id, endpoint))))).objects
  }

  datatype DbApplied = DbApplied(objects: map<Key, Object>, rds: RdsState, ok: bool)

  /**
   * The effect of createOrUpdateDatabase. A found instance is recorded (and
   * one without an endpoint throws on its address); a missing one is
   * requested, and recorded as being created once the request is accepted;
   * any other describe error aborts with nothing changed.
   */
  function SyncDatabase(objects: map<Key, Object>, rejecting: set<Key>, rds: RdsState, app: App, uuidPrefix: string)
    : (r: DbApplied)
    ensures r.rds.deleteRequests == rds.deleteRequests && r.rds.faults == rds.faults
    ensures r.rds.createRequests == rds.createRequests
         || (app.spec.database.Some? &&
             r.rds.createRequests == rds.createRequests + [CreateRequestFor(DbInstanceId(app.name, uuidPrefix), app.spec.database.value)])
    ensures r.objects.Keys == objects.Keys
    ensures forall k :: k in objects && k != AppKey(app) ==> r.objects[k] == objects[k]
    ensures !r.ok ==> r.objects == objects
    ensures var id, describe := DbInstanceId(app.name, uuidPrefix), rds.faults.describeError;
      r.ok <==>
        || (describe.None? && id in rds.instances && rds.instances[id].Some?)
        || ((describe == Some(NotFound) || (describe.None? && id !in rds.instances))
            && app.spec.database.Some? && rds.faults.createError.None?)
  {
    var id := DbInstanceId(app.name, uuidPrefix);
    match Decide(DescribeOf(rds, id))
    case UseExisting(instance) =>
      if instance.endpoint.None? then DbApplied(objects, rds, false)
      else DbApplied(WriteStatus(objects, rejecting, app, instance.id, instance.endpoint), rds, true)
    case CreateNew =>
      if app.spec.database.None? then DbApplied(objects, rds, false)
      else
        var created := AfterCreate(rds, CreateRequestFor(id, app.spec.database.value));
        if created.error.Some? then DbApplied(objects, created.rds, false)
        else DbApplied(WriteStatus(objects, rejecting, app, id, None), created.rds, true)
    case Abort(_) => DbApplied(objects, rds, false)
  }

  /**
   * The effect of deleteDatabase: one delete request when the snapshot
   * records a database id, none otherwise. An `RdsException` from the call
   * is caught there; a client-side failure escapes, and is the result's error.
   */
  function TeardownDatabase(rds: RdsState, app: App): (r: RdsApplied)
    ensures r.rds.createRequests == rds.createRequests && r.rds.faults == rds.faults
    ensures r.error.Some? ==> r.error.value.ClientError?
  {
    var databaseId := if app.status.Some? then app.status.value.databaseId else None;
    if databaseId.None? || databaseId.value == "" then RdsApplied(rds, None)
    else
      var deleted := AfterDelete(rds, DeleteRequest(databaseId.value, true));
      RdsApplied(deleted.rds, if deleted.error == Some(ClientError) then deleted.error else None)
  }

  /** updateAppStatus: re-fetch, update the status fields, replace; its own failures are swallowed. */
  method UpdateAppStatus(cluster: Cluster, app: App, databaseId: string, endpoint: Option<string>)
    modifies cluster
    ensures cluster.objects == WriteStatus(old(cluster.objects), cluster.rejecting, app, databaseId, endpoint)
  {
    var fetched, currentApp := cluster.Get(Key(AppKind, app.namespace, app.name));
    if !fetched {
      return;
    }
    if currentApp.Some? && currentApp.value.AppObject? {
      var current := currentApp.value.app;
      var status := if current.status.Some? then current.status.value else NewStatus();
      status := status.(databaseId := Some(databaseId));
      status := status.(databaseEndpoint := endpoint);
      status := status.(phase := Some(if endpoint.Some? then "DatabaseReady" else "DatabaseCreating"));
      status := status.(message := Some(if endpoint.Some? then "Database " + databaseId + " is ready at " + endpoint.value
                                        else "Database " + databaseId + " creation initiated"));
      var replaced := cluster.ReplaceAt(Key(AppKind, app.namespace, app.name), AppObject(current.(status := Some(status))));
    }
  }

  method CreateOrUpdateDatabase(cluster: Cluster, rds: RdsBackend, app: App, uuidPrefix: string) returns (ok: bool)
    modifies cluster, rds
    ensures DbApplied(cluster.objects, rds.State(), ok)
         == SyncDatabase(old(cluster.objects), cluster.rejecting, old(rds.State()), app, uuidPrefix)
  {
    var dbConfig := app.spec.database;
    var dbInstanceIdentifier := ResourceName(app.name, "db-" + uuidPrefix);
    var response := rds.DescribeDbInstances(dbInstanceIdentifier);
    if response.Listed? && |response.instances| > 0 {
      var dbInstance := response.instances[0];
      if dbInstance.endpoint.None? {
        // the address of a missing endpoint: a NullPointerException
        return false;
      }
      UpdateAppStatus(cluster, app, dbInstance.id, dbInstance.endpoint);
      return true;
    }
    if response.Raised? && response.error != NotFound {
      return false;
    }
    if dbConfig.None? {
      // the create request reads a null database config
      return false;
    }
    var request := CreateRequest(dbInstanceIdentifier, dbConfig.value.instanceClass, dbConfig.value.engine,
                                 dbConfig.value.allocatedStorage, dbConfig.value.masterUsername,
                                 GeneratePassword(), false);
    var error := rds.CreateDbInstance(request);
    if error.Some? {
      return false;
    }
    UpdateAppStatus(cluster, app, dbInstanceIdentifier, None);
    ok := true;
  }

  /** deleteDatabase; `ok` is false when an exception escapes it. */
  method DeleteDatabase(rds: RdsBackend, app: App) returns (ok: bool)
    modifies rds
    ensures rds.State() == TeardownDatabase(old(rds.State()), app).rds
    ensures ok <==> TeardownDatabase(old(rds.State()), app).error.None?
  {
    var databaseId := if app.status.Some? then app.status.value.databaseId else None;
    if databaseId.None? || databaseId.value == "" {
      return true;
    }
    var error := rds.DeleteDbInstance(DeleteRequest(databaseId.value, true));
    // the handler catches RdsException only
    ok := error.None? || error.value.ServiceError?;
  }

  /** Describing an instance the backend holds, with an endpoint, records it as ready and requests nothing. */
  lemma SyncFindsReadyInstance(objects: map<Key, Object>, rejecting: set<Key>, rds: RdsState, app: App, uuidPrefix: string)
    requires rds.faults.describeError.None?
    requires DbInstanceId(app.name, uuidPrefix) in rds.instances
    requires rds.instances[DbInstanceId(app.name, uuidPrefix)].Some?
    ensures var r := SyncDatabase(objects, rejecting, rds, app, uuidPrefix);
      var id := DbInstanceId(app.name, uuidPrefix);
      && r.ok && r.rds == rds
      && r.objects == WriteStatus(objects, rejecting, app, id, rds.instances[id])
  {
  }

  /**
   * A missing instance (not-found fault or empty list) with a database
   * config yields exactly one create request; once accepted the backend
   * holds the instance, without an endpoint, and the status records it as
   * being created.
   */
  lemma SyncRequestsMissingInstance(objects: map<Key, Object>, rejecting: set<Key>, rds: RdsState, app: App, uuidPrefix: string)
    requires rds.faults.describeError.None? && rds.faults.createError.None?
    requires DbInstanceId(app.name, uuidPrefix) !in rds.instances
    requires app.spec.database.Some?
    ensures var r := SyncDatabase(objects, rejecting, rds, app, uuidPrefix);
      var id := DbInstanceId(app.name, uuidPrefix);
      && r.ok
      && r.rds.createRequests == rds.createRequests + [CreateRequestFor(id, app.spec.database.value)]
      && r.rds.deleteRequests == rds.deleteRequests
      && r.rds.instances == rds.instances[id := None]
      && r.objects == WriteStatus(objects, rejecting, app, id, None)
  {
  }

  /**
   * Any describe error other than not-found, a client-side failure included,
   * aborts the step with nothing requested and nothing written.
   */
  lemma SyncAbortsOnOtherError(objects: map<Key, Object>, rejecting: set<Key>, rds: RdsState, app: App, uuidPrefix: string)
    requires rds.faults.describeError.Some? && rds.faults.describeError.value != NotFound
    ensures SyncDatabase(objects, rejecting, rds, app, uuidPrefix) == DbApplied(objects, rds, false)
  {
  }

  /** An instance found while still being created has no endpoint; reading its address fails the step. */
  lemma SyncFailsOnInstanceWithoutEndpoint(objects: map<Key, Object>, rejecting: set<Key>, rds: RdsState, app: App, uuidPrefix: string)
    requires rds.faults.describeError.None?
    requires DbInstanceId(app.name, uuidPrefix) in rds.instances
    requires rds.instances[DbInstanceId(app.name, uuidPrefix)].None?
    ensures SyncDatabase(objects, rejecting, rds, app, uuidPrefix) == DbApplied(objects, rds, false)
  {
  }

  /**
   * A missing instance whose create request the backend refuses: the request
   * is logged, no instance appears, nothing is written and the step fails,
   * since the exception escapes the database step.
   */
  lemma SyncCreateFailureFails(objects: map<Key, Object>, rejecting: set<Key>, rds: RdsState, app: App, uuidPrefix: string)
    requires rds.faults.describeError.None? && rds.faults.createError.Some?
    requires DbInstanceId(app.name, uuidPrefix) !in rds.instances
    requires app.spec.database.Some?
    ensures var r := SyncDatabase(objects, rejecting, rds, app, uuidPrefix);
      var id := DbInstanceId(app.name, uuidPrefix);
      && !r.ok && r.objects == objects
      && r.rds.createRequests == rds.createRequests + [CreateRequestFor(id, app.spec.database.value)]
      && r.rds.instances == rds.instances
  {
  }

  /** Distinct random prefixes give distinct instance identifiers. */
  lemma DbInstanceIdInjective(appName: string, p1: string, p2: string)
    ensures DbInstanceId(appName, p1) == DbInstanceId(appName, p2) <==> p1 == p2
  {
    ResourceNameInjective(appName, "db-" + p1, "db-" + p2);
    if "db-" + p1 == "db-" + p2 {
      assert p1 == ("db-" + p1)[3..];
      assert p2 == ("db-" + p2)[3..];
    }
  }

  /**
   * The identifier is drawn afresh on every pass, so a pass after a
   * successful creation never finds that instance: with a new prefix it
   * issues a second create request, for a second instance.
   */
  lemma {:induction false} FreshPrefixRequestsAnotherInstance(
    objects: map<Key, Object>, rejecting: set<Key>, rds: RdsState, app: App, p1: string, p2: string)
    requires rds.faults.describeError.None? && rds.faults.createError.None? && app.spec.database.Some?
    requires DbInstanceId(app.name, p1) !in rds.instances && DbInstanceId(app.name, p2) !in rds.instances
    requires p1 != p2
    ensures var first := SyncDatabase(objects, rejecting, rds, app, p1);
      var second := SyncDatabase(first.objects, rejecting, first.rds, app, p2);
      && |second.rds.createRequests| == |rds.createRequests| + 2
      && second.rds.createRequests[|rds.createRequests|].dbInstanceIdentifier
         != second.rds.createRequests[|rds.createRequests| + 1].dbInstanceIdentifier
      && DbInstanceId(app.name, p1) in second.rds.instances && DbInstanceId(app.name, p2) in second.rds.instances
  {
    DbInstanceIdInjective(app.name, p1, p2);
    SyncRequestsMissingInstance(objects, rejecting, rds, app, p1);
    var first := SyncDatabase(objects, rejecting, rds, app, p1);
    SyncRequestsMissingInstance(first.objects, rejecting, first.rds, app, p2);
  }

  /**
   * With the same identifier on both passes: the first pass records the
   * database as being created; once the backend reports an endpoint, the
   * next pass records it as ready at that endpoint.
   */
  lemma {:induction false} ProvisioningLifecycle(
    objects: map<Key, Object>, rejecting: set<Key>, rds: RdsState, app: App, uuidPrefix: string, endpoint: string)
    requires rds.faults.describeError.None? && rds.faults.createError.None? && app.spec.database.Some?
    requires DbInstanceId(app.name, uuidPrefix) !in rds.instances
    requires AppKey(app) !in rejecting && AppKey(app) in objects && objects[AppKey(app)].AppObject?
    ensures var id := DbInstanceId(app.name, uuidPrefix);
      var first := SyncDatabase(objects, rejecting, rds, app, uuidPrefix);
      var ready := first.rds.(instances := first.rds.instances[id := Some(endpoint)]);
      var second := SyncDatabase(first.objects, rejecting, ready, app, uuidPrefix);
      && |first.rds.createRequests| == |rds.createRequests| + 1
      && PhaseOf(first.objects[AppKey(app)].app.status) == Creating(id)
      && first.objects[AppKey(app)].app.status.value.phase == Some("DatabaseCreating")
      && second.rds == ready
      && PhaseOf(second.objects[AppKey(app)].app.status) == Ready(id, endpoint)
      && second.objects[AppKey(app)].app.status.value.phase == Some("DatabaseReady")
  {
    var id := DbInstanceId(app.name, uuidPrefix);
    SyncRequestsMissingInstance(objects, rejecting, rds, app, uuidPrefix);
    var first := SyncDatabase(objects, rejecting, rds, app, uuidPrefix);
    var ready := first.rds.(instances := first.rds.instances[id := Some(endpoint)]);
    SyncFindsReadyInstance(first.objects, rejecting, ready, app, uuidPrefix);
  }

  /**
   * Deletion is guarded by the recorded id: none (or empty) means no request;
   * otherwise exactly one, skipping the final snapshot. An `RdsException`
   * from it is swallowed; a client-side failure escapes.
   */
  lemma TeardownGuard(rds: RdsState, app: App)
    ensures var r := TeardownDatabase(rds, app);
      if app.status.None? || app.status.value.databaseId.None? || app.status.value.databaseId.value == "" then
        r == RdsApplied(rds, None)
      else
        && r.rds.deleteRequests == rds.deleteRequests + [DeleteRequest(app.status.value.databaseId.value, true)]
        && r.rds.instances == (if rds.faults.deleteError.None? then rds.instances - {app.status.value.databaseId.value} else rds.instances)
        && (r.error.Some? <==> rds.faults.deleteError == Some(ClientError))
  {
  }

  /** A database the status records (being created or ready) is gone from a backend whose delete succeeds. */
  lemma TeardownRemovesRecordedInstance(rds: RdsState, app: App, current: Option<Status>, id: string, endpoint: Option<string>)
    requires rds.faults.deleteError.None? && id != ""
    ensures var r := TeardownDatabase(rds, app.(status := Some(StatusAfter(current, id, endpoint))));
      id !in r.rds.instances && r.error.None?
  {
  }
}
