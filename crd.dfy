/**
 * The SpringBootApp custom resource: its spec (SpringBootAppSpec with the
 * nested ResourceLimits, DatabaseConfig and MonitoringConfig), its status
 * (SpringBootAppStatus) and the resource itself (name, namespace, spec,
 * status). Java `null` is `None`.
 */
module Crd {
  import opened Wrappers

  /** One entry of the `ports` map: port name and port number. */
  datatype PortEntry = PortEntry(name: string, port: int)

  /** No two entries share a name, as in a Java map. */
  ghost predicate DistinctNames(entries: seq<PortEntry>) {
    forall i, j :: 0 <= i < j < |entries| ==> entries[i].name != entries[j].name
  }

  /**
   * The `ports` map, as its entries in the map's iteration order. Every
   * reader of the same spec iterates the same map, so sees the same order.
   */
  type PortMap = entries: seq<PortEntry> | DistinctNames(entries)

  /** CPU and memory quantities; each one independently optional. */
  datatype ResourceLimits = ResourceLimits(
    cpuRequest: Option<string>,
    memoryRequest: Option<string>,
    cpuLimit: Option<string>,
    memoryLimit: Option<string>)

  datatype DatabaseConfig = DatabaseConfig(
    enabled: bool,
    engine: string,
    instanceClass: string,
    allocatedStorage: int,
    masterUsername: string)

  datatype MonitoringConfig = MonitoringConfig(
    enabled: bool,
    grafanaDashboardTemplate: string)

  datatype Spec = Spec(
    image: Option<string>,
    ports: Option<PortMap>,
    replicas: int,
    resources: Option<ResourceLimits>,
    database: Option<DatabaseConfig>,
    monitoring: Option<MonitoringConfig>)

  datatype Status = Status(
    phase: Option<string>,
    message: Option<string>,
    createdResources: Option<seq<string>>,
    databaseId: Option<string>,
    databaseEndpoint: Option<string>)

  /** A SpringBootApp resource: identity, desired state, observed state. */
  datatype App = App(name: string, namespace: string, spec: Spec, status: Option<Status>)

  /** A freshly constructed spec: one replica, every optional part absent. */
  function NewSpec(): (s: Spec)
    ensures s.replicas == 1
    ensures s.image.None? && s.ports.None? && s.resources.None?
    ensures s.database.None? && s.monitoring.None?
  {
    Spec(None, None, 1, None, None, None)
  }

  /** A freshly constructed ResourceLimits: no quantity set. */
  function NewResourceLimits(): (r: ResourceLimits)
    ensures r.cpuRequest.None? && r.memoryRequest.None?
    ensures r.cpuLimit.None? && r.memoryLimit.None?
  {
    ResourceLimits(None, None, None, None)
  }

  /** A freshly constructed DatabaseConfig and its field defaults. */
  function NewDatabaseConfig(): (c: DatabaseConfig)
    ensures !c.enabled
    ensures c.engine == "aurora-mysql" && c.instanceClass == "db.t3.medium"
    ensures c.allocatedStorage == 20 && c.masterUsername == "admin"
  {
    DatabaseConfig(false, "aurora-mysql", "db.t3.medium", 20, "admin")
  }

  /** A freshly constructed MonitoringConfig and its field defaults. */
  function NewMonitoringConfig(): (c: MonitoringConfig)
    ensures !c.enabled && c.grafanaDashboardTemplate == "spring-boot-dashboard"
  {
    MonitoringConfig(false, "spring-boot-dashboard")
  }

  /** A freshly constructed status: every field absent. */
  function NewStatus(): (s: Status)
    ensures s.phase.None? && s.message.None? && s.createdResources.None?
    ensures s.databaseId.None? && s.databaseEndpoint.None?
  {
    Status(None, None, None, None, None)
  }

  /** A database config is present and switched on. */
  predicate DatabaseEnabled(spec: Spec) {
    spec.database.Some? && spec.database.value.enabled
  }

  /** A monitoring config is present and switched on. */
  predicate MonitoringEnabled(spec: Spec) {
    spec.monitoring.Some? && spec.monitoring.value.enabled
  }

  /** The port entries; a null map reads as no entries. */
  function PortEntries(spec: Spec): (entries: PortMap)
    ensures spec.ports.Some? ==> entries == spec.ports.value
    ensures spec.ports.None? ==> entries == []
  {
    if spec.ports.Some? then spec.ports.value else []
  }
}
