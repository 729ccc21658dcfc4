/**
 * The parts of the Kubernetes Deployment and Service and of the OpenShift
 * Route that the manifest builders set.  Ports expressed as an int-or-string
 * are always integer ports here, so they are modelled as `Int32`.
 */
module Manifests {
  import opened Wrappers
  import opened GoInts
  import opened ComponentTypes

  datatype TypeMeta = TypeMeta(apiVersion: string, kind: string)

  datatype PullPolicy = PullAlways | PullIfNotPresent | PullNever

  datatype ContainerPort = ContainerPort(containerPort: Int32)

  /** What a probe checks: a raw TCP connection or an HTTP GET of a path. */
  datatype ProbeHandler =
    | TCPSocket(port: Int32)
    | HTTPGet(path: string, port: Int32)

  datatype Probe = Probe(
    initialDelaySeconds: Int32,
    periodSeconds: Int32,
    handler: ProbeHandler)

  datatype Container = Container(
    name: string,
    image: string,
    imagePullPolicy: PullPolicy,
    env: seq<EnvVar>,
    ports: seq<ContainerPort>,
    readinessProbe: Option<Probe>,
    livenessProbe: Option<Probe>,
    resources: ResourceRequirements)

  datatype PodSpec = PodSpec(containers: seq<Container>)

  datatype PodTemplateSpec = PodTemplateSpec(metadata: ObjectMeta, spec: PodSpec)

  datatype LabelSelector = LabelSelector(matchLabels: map<string, string>)

  datatype DeploymentSpec = DeploymentSpec(
    replicas: Int32,
    selector: LabelSelector,
    template: PodTemplateSpec)

  datatype Deployment = Deployment(
    typeMeta: TypeMeta,
    metadata: ObjectMeta,
    spec: DeploymentSpec)

  datatype ServicePort = ServicePort(port: Int32, targetPort: Int32)

  datatype ServiceSpec = ServiceSpec(
    selector: map<string, string>,
    ports: seq<ServicePort>)

  datatype Service = Service(
    typeMeta: TypeMeta,
    metadata: ObjectMeta,
    spec: ServiceSpec)

  datatype RoutePort = RoutePort(targetPort: Int32)

  datatype TLSTermination = TerminationEdge | TerminationPassthrough | TerminationReencrypt

  datatype InsecureEdgeTerminationPolicy = InsecureNone | InsecureAllow | InsecureRedirect

  datatype TLSConfig = TLSConfig(
    termination: TLSTermination,
    insecureEdgeTerminationPolicy: InsecureEdgeTerminationPolicy)

  datatype RouteTargetReference = RouteTargetReference(
    kind: string,
    name: string,
    weight: Int32)

  /** `host` is "" when the platform is left to assign a default hostname. */
  datatype RouteSpec = RouteSpec(
    host: string,
    port: RoutePort,
    tls: TLSConfig,
    to: RouteTargetReference)

  datatype Route = Route(
    typeMeta: TypeMeta,
    metadata: ObjectMeta,
    spec: RouteSpec)

  /**
   * Label selection: a selector picks an object when every key it names
   * carries the same value among the object's labels.
   */
  predicate Selects(selector: map<string, string>, labels: map<string, string>)
  {
    forall k :: k in selector ==> k in labels && labels[k] == selector[k]
  }
}
