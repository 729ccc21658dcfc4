/**
 * Properties of the manifest builders that relate several fields, several
 * manifests or several components.
 */
module Properties {
  import opened GoInts
  import opened ComponentTypes
  import opened Manifests
  import opened Generate

  /** Outside the wrap-around range, the Deployment never asks for fewer than one replica. */
  lemma ReplicasAtLeastOne(c: Component)
    requires c.spec.replicas < TWO_POW_31
    ensures GenerateDeployment(c).spec.replicas >= 1
  {
  }

  /**
   * A replica count of 2^32 survives the defaulting (it is positive) but
   * becomes 0 in the 32-bit manifest field.
   */
  lemma ReplicasWrapAround(c: Component)
    requires c.spec.replicas == TWO_POW_32
    ensures GenerateDeployment(c).spec.replicas == 0
  {
  }

  /** Zero replicas cannot be requested: an unset count and a count of one give the same Deployment. */
  lemma ZeroReplicasIsDefault(c: Component)
    ensures GenerateDeployment(c.(spec := c.spec.(replicas := 0)))
         == GenerateDeployment(c.(spec := c.spec.(replicas := 1)))
  {
  }

  /** Ports and both probes are present together, exactly when a target port is set. */
  lemma ExposedIffTargetPort(c: Component)
    ensures var k := GenerateDeployment(c).spec.template.spec.containers[0];
      && (k.ports != [] <==> c.spec.targetPort != 0)
      && (k.readinessProbe.Some? <==> c.spec.targetPort != 0)
      && (k.livenessProbe.Some? <==> c.spec.targetPort != 0)
  {
  }

  /**
   * The three manifests of one component share name and namespace, carry
   * the same `component: <name>` labels and selectors, and agree on the
   * port: the container port, both probe ports, the Service's port and
   * target port, and the Route's target port are one value.
   */
  lemma ManifestsAreLinked(c: Component)
    requires c.spec.targetPort != 0
    ensures var d, s, r := GenerateDeployment(c), GenerateService(c), GenerateRoute(c);
      var k := d.spec.template.spec.containers[0];
      var port := k.ports[0].containerPort;
      && d.metadata.name == s.metadata.name == r.metadata.name == c.metadata.name
      && d.metadata.namespace == s.metadata.namespace == r.metadata.namespace == c.metadata.namespace
      && d.spec.selector.matchLabels == d.spec.template.metadata.labels
      && s.spec.selector == d.spec.template.metadata.labels
      && r.metadata.labels == d.spec.template.metadata.labels
      && Selects(d.spec.selector.matchLabels, d.spec.template.metadata.labels)
      && Selects(s.spec.selector, d.spec.template.metadata.labels)
      && r.spec.to.kind == s.typeMeta.kind && r.spec.to.name == s.metadata.name
      && k.readinessProbe.value.handler.port == port
      && k.livenessProbe.value.handler.port == port
      && s.spec.ports[0].port == port && s.spec.ports[0].targetPort == port
      && r.spec.port.targetPort == port
  {
  }

  /**
   * The label is the only link between components: the Service of `a`
   * selects the pods of `b` exactly when the two components have the same name.
   */
  lemma ServiceSelectsOnlyItsComponent(a: Component, b: Component)
    requires a.spec.targetPort != 0
    ensures Selects(GenerateService(a).spec.selector, GenerateDeployment(b).spec.template.metadata.labels)
        <==> a.metadata.name == b.metadata.name
  {
    var selector := GenerateService(a).spec.selector;
    var labels := GenerateDeployment(b).spec.template.metadata.labels;
    if Selects(selector, labels) {
      assert COMPONENT_LABEL in selector;
    }
  }

  /** Spec fields the builders read; everything else of a Component is ignored. */
  ghost predicate SameBuilderInputs(c: Component, c': Component)
  {
    && c.metadata.name == c'.metadata.name
    && c.metadata.namespace == c'.metadata.namespace
    && c.spec.resources == c'.spec.resources
    && c.spec.replicas == c'.spec.replicas
    && c.spec.targetPort == c'.spec.targetPort
    && c.spec.route == c'.spec.route
    && c.spec.env == c'.spec.env
    && c.spec.build == c'.spec.build
  }

  /**
   * The manifests depend only on the builder inputs: the spec's component
   * name, application, source and context and the component's own labels
   * never reach them (the name comes from the metadata).
   */
  lemma OnlyBuilderInputsMatter(c: Component, c': Component)
    requires SameBuilderInputs(c, c')
    ensures GenerateDeployment(c) == GenerateDeployment(c')
    ensures c.spec.targetPort != 0 ==> GenerateService(c) == GenerateService(c')
    ensures c.spec.targetPort != 0 ==> GenerateRoute(c) == GenerateRoute(c')
  {
  }
}
