/**
 * The expected manifests of the builders' test tables, each stated as a
 * lemma that the builder yields exactly that manifest.
 */
module GenerateCases {
  import opened Wrappers
  import opened ComponentTypes
  import opened Manifests
  import opened Generate

  const NAME := "test-component"
  const NAMESPACE := "test-namespace"
  const IMAGE := "quay.io/test/test-image:latest"
  const LABELS := map["component" := NAME]
  const META := ObjectMeta(NAME, NAMESPACE, map[])
  const ENV := [EnvVar("test", "value")]
  const RESOURCES := ResourceRequirements(
    map[RESOURCE_CPU := Quantity("2M"), RESOURCE_MEMORY := Quantity("1Gi")],
    map[RESOURCE_CPU := Quantity("1M"), RESOURCE_MEMORY := Quantity("256Mi")])

  /** A component with metadata only: its spec is the zero value. */
  const SIMPLE := Component(META, EMPTY_SPEC)

  /** A component with every optional field the Deployment reads set. */
  const FULL := Component(META,
    ComponentSpec(NAME, "test-application", NoSource, "", RESOURCES, 3, 5000, "", ENV, Build(IMAGE)))

  /** A component exposed on port 5000, without and with a route host. */
  const EXPOSED := Component(META, EMPTY_SPEC.(componentName := NAME, application := "test-application", targetPort := 5000))
  const EXPOSED_WITH_HOST := EXPOSED.(spec := EXPOSED.spec.(route := "example.com"))

  lemma SimpleComponentDeployment()
    ensures GenerateDeployment(SIMPLE) == Deployment(
      TypeMeta("apps/v1", "Deployment"),
      META,
      DeploymentSpec(1, LabelSelector(LABELS),
        PodTemplateSpec(ObjectMeta("", "", LABELS), PodSpec([
          Container("container-image", "", PullAlways, [], [], None, None, NO_RESOURCES)]))))
  {
  }

  lemma FullComponentDeployment()
    ensures GenerateDeployment(FULL) == Deployment(
      TypeMeta("apps/v1", "Deployment"),
      META,
      DeploymentSpec(3, LabelSelector(LABELS),
        PodTemplateSpec(ObjectMeta("", "", LABELS), PodSpec([
          Container("container-image", IMAGE, PullAlways, ENV,
            [ContainerPort(5000)],
            Some(Probe(10, 10, TCPSocket(5000))),
            Some(Probe(10, 10, HTTPGet("/", 5000))),
            RESOURCES)]))))
  {
  }

  lemma ExposedComponentService()
    ensures GenerateService(EXPOSED) == Service(
      TypeMeta("v1", "Service"),
      META,
      ServiceSpec(LABELS, [ServicePort(5000, 5000)]))
  {
  }

  lemma ExposedComponentRoute()
    ensures GenerateRoute(EXPOSED) == Route(
      TypeMeta("v1", "Route"),
      ObjectMeta(NAME, NAMESPACE, LABELS),
      RouteSpec("", RoutePort(5000), TLSConfig(TerminationEdge, InsecureRedirect),
        RouteTargetReference("Service", NAME, 100)))
  {
  }

  lemma ExposedComponentRouteWithHost()
    ensures GenerateRoute(EXPOSED_WITH_HOST) == Route(
      TypeMeta("v1", "Route"),
      ObjectMeta(NAME, NAMESPACE, LABELS),
      RouteSpec("example.com", RoutePort(5000), TLSConfig(TerminationEdge, InsecureRedirect),
        RouteTargetReference("Service", NAME, 100)))
  {
  }
}
