/**
 * The network synchroniser (ServiceService): derives the ClusterIP Service
 * from the spec and create-or-replaces it, or deletes it, by name.
 */
module Services {
  import opened Wrappers
  import opened Crd
  import opened Naming
  import opened Kube
  import Deployments

  /** The single port exposed when no ports are given: "http", 8080 -> 8080. */
  const DefaultServicePort := ServicePort("http", 8080, 8080)

  /** One service port per entry of the ports map (target = port), or the default when the map is null or empty. */
  function ServicePorts(spec: Spec): (r: seq<ServicePort>)
    ensures PortEntries(spec) == [] ==> r == [DefaultServicePort]
    ensures PortEntries(spec) != [] ==> |r| == |PortEntries(spec)|
    ensures PortEntries(spec) != [] ==>
      forall i :: 0 <= i < |r| ==>
        r[i].name == PortEntries(spec)[i].name && r[i].port == PortEntries(spec)[i].port && r[i].targetPort == r[i].port
  {
    var entries := PortEntries(spec);
    if entries == [] then [DefaultServicePort]
    else seq(|entries|, i requires 0 <= i < |entries| => ServicePort(entries[i].name, entries[i].port, entries[i].port))
  }

  /**
   * The Service forwards exactly what the Deployment's container listens on:
   * same count, and pairwise the same name, with port = targetPort = containerPort.
   */
  lemma ServicePortsMatchContainerPorts(spec: Spec)
    ensures |ServicePorts(spec)| == |Deployments.ContainerPorts(spec)|
    ensures |ServicePorts(spec)| == (if PortEntries(spec) == [] then 1 else |PortEntries(spec)|)
    ensures forall i :: 0 <= i < |ServicePorts(spec)| ==>
      && ServicePorts(spec)[i].name == Deployments.ContainerPorts(spec)[i].name
      && ServicePorts(spec)[i].port == Deployments.ContainerPorts(spec)[i].containerPort
      && ServicePorts(spec)[i].targetPort == Deployments.ContainerPorts(spec)[i].containerPort
  {
  }

  /** createServicePorts: appends one port per map entry to a list. */
  method CreateServicePorts(spec: Spec) returns (ports: seq<ServicePort>)
    ensures ports == ServicePorts(spec)
  {
    ports := [];
    if spec.ports.None? || spec.ports.value == [] {
      ports := ports + [ServicePort("http", 8080, 8080)];
    } else {
      var entries := spec.ports.value;
      var i := 0;
      while i < |entries|
        invariant 0 <= i <= |entries|
        invariant |ports| == i
        invariant forall j :: 0 <= j < i ==> ports[j] == ServicePort(entries[j].name, entries[j].port, entries[j].port)
      {
        ports := ports + [ServicePort(entries[i].name, entries[i].port, entries[i].port)];
        i := i + 1;
      }
    }
  }

  /** The store key of an application's Service. */
  function ServiceKey(app: App): Key {
    Key(ServiceKind, app.namespace, ResourceName(app.name, "service"))
  }

  /**
   * The desired Service: named `<app>-service`, owner-labelled, of type
   * ClusterIP, selecting pods by the app label alone.
   */
  function DesiredService(app: App): (s: Service)
    ensures KeyOf(ServiceObject(s)) == ServiceKey(app)
    ensures s.metadata.labels == OwnerLabels(app.name)
    ensures s.serviceType == "ClusterIP"
    ensures s.selector == map["app" := app.name]
    ensures s.ports == ServicePorts(app.spec)
  {
    Service(
      ObjectMeta(ResourceName(app.name, "service"), app.namespace, OwnerLabels(app.name)),
      map["app" := app.name],
      ServicePorts(app.spec),
      "ClusterIP")
  }

  /** The Service selects exactly the pods the Deployment's template labels. */
  lemma ServiceSelectsWorkloadPods(app: App)
    ensures var d := Deployments.DesiredDeployment(app);
      forall k :: k in DesiredService(app).selector ==>
        k in d.templateLabels && d.templateLabels[k] == DesiredService(app).selector[k]
  {
  }

  /** The effect of createOrUpdateService on the store. */
  function SyncService(objects: map<Key, Object>, rejecting: set<Key>, app: App): Applied {
    Put(objects, rejecting, ServiceObject(DesiredService(app)))
  }

  /** The effect of deleteService on the store. */
  function TeardownService(objects: map<Key, Object>, rejecting: set<Key>, app: App): Applied {
    Remove(objects, rejecting, ServiceKey(app))
  }

  method CreateOrUpdateService(cluster: Cluster, app: App) returns (ok: bool)
    modifies cluster
    ensures ok <==> ServiceKey(app) !in cluster.rejecting
    ensures ok ==> cluster.objects == old(cluster.objects)[ServiceKey(app) := ServiceObject(DesiredService(app))]
    ensures !ok ==> cluster.objects == old(cluster.objects)
    ensures Applied(cluster.objects, ok) == SyncService(old(cluster.objects), cluster.rejecting, app)
  {
    var servicePorts := CreateServicePorts(app.spec);
    var service := Service(
      ObjectMeta(ResourceName(app.name, "service"), app.namespace, OwnerLabels(app.name)),
      map["app" := app.name],
      servicePorts,
      "ClusterIP");
    ok := cluster.CreateOrReplace(ServiceObject(service));
  }

  method DeleteService(cluster: Cluster, app: App) returns (ok: bool)
    modifies cluster
    ensures ok <==> ServiceKey(app) !in cluster.rejecting
    ensures cluster.objects == (if ok then old(cluster.objects) - {ServiceKey(app)} else old(cluster.objects))
    ensures Applied(cluster.objects, ok) == TeardownService(old(cluster.objects), cluster.rejecting, app)
  {
    ok := cluster.Delete(Key(ServiceKind, app.namespace, ResourceName(app.name, "service")));
  }
}
