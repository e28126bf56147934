/**
 * The slice of the Kubernetes object model the operator writes, and the
 * cluster it writes to: a store of objects keyed by kind, namespace and
 * name. Each API call either succeeds or throws; the keys whose calls throw
 * are fixed per cluster (`rejecting`), which makes failures reproducible.
 */
module Kube {
  import opened Wrappers
  import opened Crd

  datatype ObjectMeta = ObjectMeta(name: string, namespace: string, labels: map<string, string>)

  datatype ContainerPort = ContainerPort(name: string, containerPort: int)

  /** Quantities are kept as the strings they were parsed from. */
  datatype ResourceRequirements = ResourceRequirements(
    requests: map<string, string>,
    limits: map<string, string>)

  datatype Container = Container(
    name: string,
    image: Option<string>,
    ports: seq<ContainerPort>,
    resources: ResourceRequirements)

  datatype Deployment = Deployment(
    metadata: ObjectMeta,
    replicas: int,
    selector: map<string, string>,
    templateLabels: map<string, string>,
    containers: seq<Container>)

  datatype ServicePort = ServicePort(name: string, port: int, targetPort: int)

  datatype Service = Service(
    metadata: ObjectMeta,
    selector: map<string, string>,
    ports: seq<ServicePort>,
    serviceType: string)

  datatype ConfigMap = ConfigMap(metadata: ObjectMeta, data: map<string, string>)

  datatype Secret = Secret(metadata: ObjectMeta, data: map<string, string>, secretType: string)

  datatype Kind = DeploymentKind | ServiceKind | ConfigMapKind | SecretKind | AppKind

  datatype Key = Key(kind: Kind, namespace: string, name: string)

  datatype Object =
    | DeploymentObject(deployment: Deployment)
    | ServiceObject(service: Service)
    | ConfigMapObject(configMap: ConfigMap)
    | SecretObject(secret: Secret)
    | AppObject(app: App)

  /** The labels every derived object carries: owner app and the operator's marker. */
  function OwnerLabels(appName: string): (labels: map<string, string>)
    ensures labels.Keys == {"app", "sparky-operator-managed"}
    ensures labels["app"] == appName && labels["sparky-operator-managed"] == "true"
  {
    map["app" := appName, "sparky-operator-managed" := "true"]
  }

  /** The store key an object is filed under. */
  function KeyOf(o: Object): (k: Key)
  {
    match o
    case DeploymentObject(d) => Key(DeploymentKind, d.metadata.namespace, d.metadata.name)
    case ServiceObject(s) => Key(ServiceKind, s.metadata.namespace, s.metadata.name)
    case ConfigMapObject(c) => Key(ConfigMapKind, c.metadata.namespace, c.metadata.name)
    case SecretObject(s) => Key(SecretKind, s.metadata.namespace, s.metadata.name)
    case AppObject(a) => Key(AppKind, a.namespace, a.name)
  }

  /** A store after one API call, and whether the call returned normally. */
  datatype Applied = Applied(objects: map<Key, Object>, ok: bool)

  /** `withName(k).createOrReplace(o)`: `k` now holds `o`; nothing else changes. */
  function PutAt(objects: map<Key, Object>, rejecting: set<Key>, k: Key, o: Object): (a: Applied)
    ensures a.ok <==> k !in rejecting
    ensures a.ok ==> k in a.objects && a.objects[k] == o
    ensures forall k' :: k' != k ==> (k' in a.objects <==> k' in objects)
    ensures forall k' :: k' != k && k' in objects ==> a.objects[k'] == objects[k']
    ensures !a.ok ==> a.objects == objects
  {
    if k in rejecting then Applied(objects, false)
    else Applied(objects[k := o], true)
  }

  /** `createOrReplace(o)`: the object is filed under its own key. */
  function Put(objects: map<Key, Object>, rejecting: set<Key>, o: Object): (a: Applied)
  {
    PutAt(objects, rejecting, KeyOf(o), o)
  }

  /** `withName(k).delete()`: `k` is now absent (absence is not an error); nothing else changes. */
  function Remove(objects: map<Key, Object>, rejecting: set<Key>, k: Key): (a: Applied)
    ensures a.ok <==> k !in rejecting
    ensures a.ok ==> k !in a.objects
    ensures forall k' :: k' != k ==> (k' in a.objects <==> k' in objects)
    ensures forall k' :: k' != k && k' in objects ==> a.objects[k'] == objects[k']
    ensures !a.ok ==> a.objects == objects
  {
    if k in rejecting then Applied(objects, false)
    else Applied(objects - {k}, true)
  }

  /** The cluster's API server, as a mutable store of objects. */
  class Cluster {
    var objects: map<Key, Object>
    const rejecting: set<Key>

    constructor (objects: map<Key, Object>, rejecting: set<Key>)
      ensures this.objects == objects && this.rejecting == rejecting
    {
      this.objects := objects;
      this.rejecting := rejecting;
    }

    method CreateOrReplace(o: Object) returns (ok: bool)
      modifies this
      ensures Applied(objects, ok) == Put(old(objects), rejecting, o)
    {
      ok := ReplaceAt(KeyOf(o), o);
    }

    method ReplaceAt(k: Key, o: Object) returns (ok: bool)
      modifies this
      ensures Applied(objects, ok) == PutAt(old(objects), rejecting, k, o)
    {
      ok := k !in rejecting;
      if ok {
        objects := objects[k := o];
      }
    }

    method Delete(k: Key) returns (ok: bool)
      modifies this
      ensures Applied(objects, ok) == Remove(old(objects), rejecting, k)
    {
      ok := k !in rejecting;
      if ok {
        objects := objects - {k};
      }
    }

    /** `withName(k).get()`: the object or `None` when absent; `ok` is false when the call throws. */
    method Get(k: Key) returns (ok: bool, r: Option<Object>)
      ensures ok <==> k !in rejecting
      ensures ok ==> r == (if k in objects then Some(objects[k]) else None)
    {
      ok := k !in rejecting;
      r := if ok && k in objects then Some(objects[k]) else None;
    }
  }
}
