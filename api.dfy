/** A Go pointer or an optional value: None when nil or absent. */
module Optional {
  datatype Option<T> = None | Some(value: T)
}

/**
 The parts of the Kubernetes API object model that the provisioner fills in.
 One module per Go package the source imports: k8s.io/apimachinery meta/v1,
 k8s.io/api core/v1 and k8s.io/api apps/v1. An unset Go field is modelled by
 its zero value ("" for strings, the empty map, an empty sequence) and an unset
 Go pointer by None.
 */
module MetaV1 {

  /** Object metadata. `name` is the final name; `generateName` is the prefix
      the API server extends with a random suffix when `name` is empty. */
  datatype ObjectMeta = ObjectMeta(
    name: string,
    generateName: string,
    namespace: string,
    labels: map<string, string>)

  /** The meta/v1 zero value, an ObjectMeta with no field set. */
  const EMPTY_META := ObjectMeta("", "", "", map[])

  /** A label selector given by equality requirements only. */
  datatype LabelSelector = LabelSelector(matchLabels: map<string, string>)

  /** A label set is selected when it carries every key of the selector with
      the same value (an empty selector selects everything). */
  predicate Matches(selector: LabelSelector, labels: map<string, string>)
  {
    forall k :: k in selector.matchLabels ==> k in labels && labels[k] == selector.matchLabels[k]
  }

  /** The object asks the API server to generate its name from a prefix
      instead of carrying a name chosen by the client. */
  predicate UsesGeneratedName(meta: ObjectMeta)
  {
    meta.name == "" && meta.generateName != ""
  }
}

module CoreV1 {
  import MetaV1

  /** Go's int32, the type of container ports and replica counts. */
  newtype Int32 = x: int | -0x8000_0000 <= x < 0x8000_0000

  datatype Protocol = TCP | UDP | SCTP

  /** The resource kinds that take part in the quality-of-service class. */
  datatype ResourceName = Cpu | Memory

  /** A resource quantity, as an integer in the resource's smallest unit:
      millicores for Cpu, bytes for Memory. */
  type ResourceList = map<ResourceName, nat>

  datatype ResourceRequirements = ResourceRequirements(requests: ResourceList, limits: ResourceList)

  datatype ContainerPort = ContainerPort(name: string, protocol: Protocol, containerPort: Int32)

  datatype Container = Container(
    name: string,
    image: string,
    resources: ResourceRequirements,
    ports: seq<ContainerPort>)

  datatype PodSpec = PodSpec(containers: seq<Container>)

  datatype PodTemplateSpec = PodTemplateSpec(metadata: MetaV1.ObjectMeta, spec: PodSpec)

  /** The namespace the API server uses when none is named. */
  const NAMESPACE_DEFAULT := "default"

  datatype QosClass = Guaranteed | Burstable | BestEffort

  /** A container is Guaranteed when it has a non-zero limit for both cpu and
      memory and its requests are exactly its limits. */
  predicate GuaranteedContainer(c: Container)
  {
    var res := c.resources;
    Cpu in res.limits && Memory in res.limits &&
    res.limits[Cpu] > 0 && res.limits[Memory] > 0 &&
    res.requests == res.limits
  }

  /** A container with no request and no limit at all. */
  predicate UnboundedContainer(c: Container)
  {
    c.resources.requests == map[] && c.resources.limits == map[]
  }

  /** The quality-of-service class of a pod: Guaranteed when every container
      is, BestEffort when no container bounds any resource, Burstable otherwise. */
  function QosClassOf(pod: PodSpec): QosClass
  {
    if |pod.containers| > 0 && forall i :: 0 <= i < |pod.containers| ==> GuaranteedContainer(pod.containers[i])
    then Guaranteed
    else if forall i :: 0 <= i < |pod.containers| ==> UnboundedContainer(pod.containers[i])
    then BestEffort
    else Burstable
  }
}

module AppsV1 {
  import MetaV1
  import CoreV1
  import opened Optional

  datatype DeploymentSpec = DeploymentSpec(
    replicas: Option<CoreV1.Int32>,
    selector: Option<MetaV1.LabelSelector>,
    template: CoreV1.PodTemplateSpec)

  datatype Deployment = Deployment(metadata: MetaV1.ObjectMeta, spec: DeploymentSpec)

  /** The apps/v1 rule that a Deployment's selector is set and selects the
      labels of the pods its template creates (otherwise the Deployment could
      never find its own pods and the API server rejects it). */
  predicate SelectsOwnPods(spec: DeploymentSpec)
  {
    spec.selector.Some? && MetaV1.Matches(spec.selector.value, spec.template.metadata.labels)
  }
}
