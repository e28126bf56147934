/**
 * The workload synchroniser (DeploymentService): derives the Deployment from
 * the spec and create-or-replaces it, or deletes it, by name.
 */
module Deployments {
  import opened Wrappers
  import opened Crd
  import opened Naming
  import opened Kube

  /** The single port a Spring Boot container exposes when no ports are given. */
  const DefaultContainerPort := ContainerPort("http", 8080)

  /** One container port per entry of the ports map, or the default when the map is null or empty. */
  function ContainerPorts(spec: Spec): (r: seq<ContainerPort>)
    ensures PortEntries(spec) == [] ==> r == [DefaultContainerPort]
    ensures PortEntries(spec) != [] ==> |r| == |PortEntries(spec)|
    ensures PortEntries(spec) != [] ==>
      forall i :: 0 <= i < |r| ==>
        r[i].name == PortEntries(spec)[i].name && r[i].containerPort == PortEntries(spec)[i].port
    ensures forall i, j :: 0 <= i < j < |r| ==> r[i].name != r[j].name
  {
    var entries := PortEntries(spec);
    if entries == [] then [DefaultContainerPort]
    else seq(|entries|, i requires 0 <= i < |entries| => ContainerPort(entries[i].name, entries[i].port))
  }

  /** `m` with `key` bound to the quantity when one is given, and untouched otherwise. */
  function PutIfPresent(m: map<string, string>, key: string, quantity: Option<string>): map<string, string>
  {
    if quantity.Some? then m[key := quantity.value] else m
  }

  /**
   * The container's requests and limits: "cpu"/"memory" appear exactly
   * when the corresponding quantity is set, with that quantity; absent
   * quantities are omitted, never zero-filled.
   */
  function Requirements(spec: Spec): (r: ResourceRequirements)
    ensures spec.resources.None? ==> r.requests == map[] && r.limits == map[]
    ensures r.requests.Keys <= {"cpu", "memory"} && r.limits.Keys <= {"cpu", "memory"}
    ensures spec.resources.Some? ==>
      var l := spec.resources.value;
      && ("cpu" in r.requests <==> l.cpuRequest.Some?)
      && ("memory" in r.requests <==> l.memoryRequest.Some?)
      && ("cpu" in r.limits <==> l.cpuLimit.Some?)
      && ("memory" in r.limits <==> l.memoryLimit.Some?)
      && (l.cpuRequest.Some? ==> r.requests["cpu"] == l.cpuRequest.value)
      && (l.memoryRequest.Some? ==> r.requests["memory"] == l.memoryRequest.value)
      && (l.cpuLimit.Some? ==> r.limits["cpu"] == l.cpuLimit.value)
      && (l.memoryLimit.Some? ==> r.limits["memory"] == l.memoryLimit.value)
  {
    if spec.resources.None? then ResourceRequirements(map[], map[])
    else
      var l := spec.resources.value;
      ResourceRequirements(
        PutIfPresent(PutIfPresent(map[], "cpu", l.cpuRequest), "memory", l.memoryRequest),
        PutIfPresent(PutIfPresent(map[], "cpu", l.cpuLimit), "memory", l.memoryLimit))
  }

  /** createResourceRequirements: fills the two maps by conditional puts. */
  method CreateResourceRequirements(spec: Spec) returns (r: ResourceRequirements)
    ensures r == Requirements(spec)
  {
    if spec.resources.None? {
      return ResourceRequirements(map[], map[]);
    }
    var requests: map<string, string> := map[];
    var limits: map<string, string> := map[];
    var l := spec.resources.value;
    if l.cpuRequest.Some? {
      requests := requests["cpu" := l.cpuRequest.value];
    }
    if l.memoryRequest.Some? {
      requests := requests["memory" := l.memoryRequest.value];
    }
    if l.cpuLimit.Some? {
      limits := limits["cpu" := l.cpuLimit.value];
    }
    if l.memoryLimit.Some? {
      limits := limits["memory" := l.memoryLimit.value];
    }
    r := ResourceRequirements(requests, limits);
  }

  /** The store key of an application's Deployment. */
  function DeploymentKey(app: App): Key {
    Key(DeploymentKind, app.namespace, ResourceName(app.name, "app"))
  }

  /**
   * The desired Deployment: named `<app>-app`, owner-labelled, with the
   * spec's replica count, selecting its own pods by the app label, and
   * running one container "app" with the spec's image, ports and resources.
   */
  function DesiredDeployment(app: App): (d: Deployment)
    ensures KeyOf(DeploymentObject(d)) == DeploymentKey(app)
    ensures d.metadata.labels == OwnerLabels(app.name)
    ensures d.replicas == app.spec.replicas
    ensures d.selector == map["app" := app.name]
    ensures forall k :: k in d.selector ==> k in d.templateLabels && d.templateLabels[k] == d.selector[k]
    ensures |d.containers| == 1 && d.containers[0].name == "app" && d.containers[0].image == app.spec.image
    ensures d.containers[0].ports == ContainerPorts(app.spec)
    ensures d.containers[0].resources == Requirements(app.spec)
  {
    Deployment(
      ObjectMeta(ResourceName(app.name, "app"), app.namespace, OwnerLabels(app.name)),
      app.spec.replicas,
      map["app" := app.name],
      map["app" := app.name],
      [Container("app", app.spec.image, ContainerPorts(app.spec), Requirements(app.spec))])
  }

  /** The effect of createOrUpdateDeployment on the store. */
  function SyncDeployment(objects: map<Key, Object>, rejecting: set<Key>, app: App): Applied {
    Put(objects, rejecting, DeploymentObject(DesiredDeployment(app)))
  }

  /** The effect of deleteDeployment on the store. */
  function TeardownDeployment(objects: map<Key, Object>, rejecting: set<Key>, app: App): Applied {
    Remove(objects, rejecting, DeploymentKey(app))
  }

  method CreateOrUpdateDeployment(cluster: Cluster, app: App) returns (ok: bool)
    modifies cluster
    ensures ok <==> DeploymentKey(app) !in cluster.rejecting
    ensures ok ==> cluster.objects == old(cluster.objects)[DeploymentKey(app) := DeploymentObject(DesiredDeployment(app))]
    ensures !ok ==> cluster.objects == old(cluster.objects)
    ensures Applied(cluster.objects, ok) == SyncDeployment(old(cluster.objects), cluster.rejecting, app)
  {
    var resources := CreateResourceRequirements(app.spec);
    var deployment := Deployment(
      ObjectMeta(ResourceName(app.name, "app"), app.namespace, OwnerLabels(app.name)),
      app.spec.replicas,
      map["app" := app.name],
      map["app" := app.name],
      [Container("app", app.spec.image, ContainerPorts(app.spec), resources)]);
    ok := cluster.CreateOrReplace(DeploymentObject(deployment));
  }

  method DeleteDeployment(cluster: Cluster, app: App) returns (ok: bool)
    modifies cluster
    ensures ok <==> DeploymentKey(app) !in cluster.rejecting
    ensures cluster.objects == (if ok then old(cluster.objects) - {DeploymentKey(app)} else old(cluster.objects))
    ensures Applied(cluster.objects, ok) == TeardownDeployment(old(cluster.objects), cluster.rejecting, app)
  {
    ok := cluster.Delete(Key(DeploymentKind, app.namespace, ResourceName(app.name, "app")));
  }
}
