/**
 * Derivation of the Deployment, Service and Route manifests of one
 * Component.  Every builder is a total, pure function of the Component: the
 * same Component always yields the same manifests.  The three manifests are
 * linked by a single label, `component: <name>`, built by `MatchLabels`.
 */
module Generate {
  import opened Wrappers
  import opened GoInts
  import opened ComponentTypes
  import opened Manifests

  /** The key of the label that links a component's manifests. */
  const COMPONENT_LABEL := "component"

  /** The fixed name of the single container of every generated Deployment. */
  const CONTAINER_NAME := "container-image"

  /** Fixed probe timing, in seconds. */
  const PROBE_INITIAL_DELAY: Int32 := 10
  const PROBE_PERIOD: Int32 := 10

  /** The liveness probe's HTTP path. */
  const LIVENESS_PATH := "/"

  /** The Route forwards all traffic to its one backend. */
  const ROUTE_WEIGHT: Int32 := 100

  const DEPLOYMENT_TYPE := TypeMeta("apps/v1", "Deployment")
  const SERVICE_TYPE := TypeMeta("v1", "Service")
  const ROUTE_TYPE := TypeMeta("v1", "Route")

  /** The labels, and the selectors, shared by all manifests of component `name`. */
  function MatchLabels(name: string): (labels: map<string, string>)
    ensures labels.Keys == {COMPONENT_LABEL}
    ensures labels[COMPONENT_LABEL] == name
  {
    map[COMPONENT_LABEL := name]
  }

  /** The replica count of the Deployment: the spec's when set (positive), else 1. */
  function Replicas(spec: ComponentSpec): (n: Int32)
    ensures spec.replicas <= 0 ==> n == 1
    ensures 0 < spec.replicas < TWO_POW_31 ==> n == spec.replicas
  {
    if spec.replicas > 0 then ToInt32(spec.replicas) else 1
  }

  /**
   * Everything the Deployment of `c` is required to be, stated field by
   * field: the metadata, the defaulted replica count, the shared labels, and
   * one container whose ports and probes are present exactly when a target
   * port is set.
   */
  ghost predicate IsDeploymentOf(c: Component, d: Deployment)
  {
    && d.typeMeta == DEPLOYMENT_TYPE
    && d.metadata == ObjectMeta(c.metadata.name, c.metadata.namespace, map[])
    && (c.spec.replicas <= 0 ==> d.spec.replicas == 1)
    && (c.spec.replicas > 0 ==> d.spec.replicas == ToInt32(c.spec.replicas))
    && d.spec.selector.matchLabels == MatchLabels(c.metadata.name)
    && d.spec.template.metadata == ObjectMeta("", "", MatchLabels(c.metadata.name))
    && |d.spec.template.spec.containers| == 1
    && IsContainerOf(c.spec, d.spec.template.spec.containers[0])
  }

  /** The single container of the Deployment of a component with spec `spec`. */
  ghost predicate IsContainerOf(spec: ComponentSpec, k: Container)
  {
    && k.name == CONTAINER_NAME
    && k.image == spec.build.containerImage
    && k.imagePullPolicy == PullAlways
    && k.env == spec.env
    && k.resources == spec.resources
    && (spec.targetPort == 0 ==>
          k.ports == [] && k.readinessProbe == None && k.livenessProbe == None)
    && (spec.targetPort != 0 ==>
          var port := ToInt32(spec.targetPort);
          && |k.ports| == 1
          && k.ports[0].containerPort == port
          && k.readinessProbe.Some?
          && k.readinessProbe.value.initialDelaySeconds == PROBE_INITIAL_DELAY
          && k.readinessProbe.value.periodSeconds == PROBE_PERIOD
          && k.readinessProbe.value.handler == TCPSocket(port)
          && k.livenessProbe.Some?
          && k.livenessProbe.value.initialDelaySeconds == PROBE_INITIAL_DELAY
          && k.livenessProbe.value.periodSeconds == PROBE_PERIOD
          && k.livenessProbe.value.handler == HTTPGet(LIVENESS_PATH, port))
  }

  /** The container of a Deployment: ports and probes only when a target port is set. */
  function GenerateContainer(spec: ComponentSpec): (k: Container)
    ensures IsContainerOf(spec, k)
  {
    var port := ToInt32(spec.targetPort);
    var exposed := spec.targetPort != 0;
    Container(
      CONTAINER_NAME,
      spec.build.containerImage,
      PullAlways,
      spec.env,
      if exposed then [ContainerPort(port)] else [],
      if exposed then Some(Probe(PROBE_INITIAL_DELAY, PROBE_PERIOD, TCPSocket(port))) else None,
      if exposed then Some(Probe(PROBE_INITIAL_DELAY, PROBE_PERIOD, HTTPGet(LIVENESS_PATH, port))) else None,
      spec.resources)
  }

  /** The Deployment that runs component `c`. */
  function GenerateDeployment(c: Component): (d: Deployment)
    ensures IsDeploymentOf(c, d)
  {
    var labels := MatchLabels(c.metadata.name);
    Deployment(
      DEPLOYMENT_TYPE,
      ObjectMeta(c.metadata.name, c.metadata.namespace, map[]),
      DeploymentSpec(
        Replicas(c.spec),
        LabelSelector(labels),
        PodTemplateSpec(ObjectMeta("", "", labels), PodSpec([GenerateContainer(c.spec)]))))
  }

  /** Everything the Service of `c` is required to be. */
  ghost predicate IsServiceOf(c: Component, s: Service)
  {
    && s.typeMeta == SERVICE_TYPE
    && s.metadata == ObjectMeta(c.metadata.name, c.metadata.namespace, map[])
    && s.spec.selector == MatchLabels(c.metadata.name)
    && |s.spec.ports| == 1
    && s.spec.ports[0].port == ToInt32(c.spec.targetPort)
    && s.spec.ports[0].targetPort == ToInt32(c.spec.targetPort)
  }

  /** The Service in front of the pods of component `c`; only built for a set target port. */
  function GenerateService(c: Component): (s: Service)
    requires c.spec.targetPort != 0
    ensures IsServiceOf(c, s)
  {
    var port := ToInt32(c.spec.targetPort);
    Service(
      SERVICE_TYPE,
      ObjectMeta(c.metadata.name, c.metadata.namespace, map[]),
      ServiceSpec(MatchLabels(c.metadata.name), [ServicePort(port, port)]))
  }

  /** Everything the Route of `c` is required to be. */
  ghost predicate IsRouteOf(c: Component, r: Route)
  {
    && r.typeMeta == ROUTE_TYPE
    && r.metadata == ObjectMeta(c.metadata.name, c.metadata.namespace, MatchLabels(c.metadata.name))
    && (c.spec.route == "" ==> r.spec.host == "")
    && (c.spec.route != "" ==> r.spec.host == c.spec.route)
    && r.spec.port.targetPort == ToInt32(c.spec.targetPort)
    && r.spec.tls.termination == TerminationEdge
    && r.spec.tls.insecureEdgeTerminationPolicy == InsecureRedirect
    && r.spec.to.kind == "Service"
    && r.spec.to.name == c.metadata.name
    && r.spec.to.weight == ROUTE_WEIGHT
  }

  /** The Route exposing the Service of component `c`; only built for a set target port. */
  function GenerateRoute(c: Component): (r: Route)
    requires c.spec.targetPort != 0
    ensures IsRouteOf(c, r)
  {
    Route(
      ROUTE_TYPE,
      ObjectMeta(c.metadata.name, c.metadata.namespace, MatchLabels(c.metadata.name)),
      RouteSpec(
        c.spec.route,  // "" leaves the host to the platform
        RoutePort(ToInt32(c.spec.targetPort)),
        TLSConfig(TerminationEdge, InsecureRedirect),
        RouteTargetReference("Service", c.metadata.name, ROUTE_WEIGHT)))
  }

  /** The field-by-field description pins the Deployment down completely. */
  lemma DeploymentDeterminedByDescription(c: Component, d: Deployment)
    ensures IsDeploymentOf(c, d) <==> d == GenerateDeployment(c)
  {
    if IsDeploymentOf(c, d) {
      var containers := d.spec.template.spec.containers;
      ContainerDeterminedByDescription(c.spec, containers[0]);
      assert containers == [containers[0]];
    }
  }

  /** The field-by-field description pins the container down completely. */
  lemma ContainerDeterminedByDescription(spec: ComponentSpec, k: Container)
    ensures IsContainerOf(spec, k) <==> k == GenerateContainer(spec)
  {
  }

  /** The field-by-field description pins the Service down completely. */
  lemma ServiceDeterminedByDescription(c: Component, s: Service)
    requires c.spec.targetPort != 0
    ensures IsServiceOf(c, s) <==> s == GenerateService(c)
  {
  }

  /** The field-by-field description pins the Route down completely. */
  lemma RouteDeterminedByDescription(c: Component, r: Route)
    requires c.spec.targetPort != 0
    ensures IsRouteOf(c, r) <==> r == GenerateRoute(c)
  {
  }
}
