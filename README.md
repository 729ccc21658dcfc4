# Manifest derivation for application-service Components

This project models how the `gitops` package of application-service turns one
`Component` custom resource into the three manifests a cluster needs to run it:
a Kubernetes `Deployment`, a Kubernetes `Service` and an OpenShift `Route`.
The builders are `generateDeployment`, `generateService` and `generateRoute`.
Their implementation file is not part of this model. Their behaviour is taken
from the table-driven tests in `gitops/generate_test.go`, which compare the
builders' output field by field with expected manifests. The builders' input is
the `Component` type of `api/v1alpha1/component_types.go`.

Modules, leaves first:

- `Wrappers` (`wrappers.dfy`): `Option`, standing for Go's nil pointers.
- `GoInts` (`go_ints.dfy`): Go's 64-bit `int` and 32-bit `int32`, and the
  wrapping conversion `int32(x)`. The spec declares replicas and target port as
  `int`; the manifests hold them as `int32`.
- `ComponentTypes` (`component_types.dfy`): the source kinds `Git` and
  `Image`, the git and image sources, the source union as a tagged variant, the
  build artifacts, environment variables, resource requirements with opaque
  quantities, `ComponentSpec`, object metadata and `Component`.
- `Manifests`: the fields of Deployment, Service and Route that the builders
  set, and label selection (`Selects`).
- `Generate`: the three builders, their shared label helper `MatchLabels`, and
  for each builder a field-by-field description (`IsDeploymentOf`,
  `IsServiceOf`, `IsRouteOf`). Each builder's postcondition is its
  description, and a lemma proves the description admits no other manifest.
- `Properties`: defaulting, conditional ports and probes, the links between
  the three manifests, and which inputs the builders read.
- `GenerateCases`: each row of the three test tables as a lemma.

Every builder is a Dafny function, so calling it twice on the same Component
gives equal manifests by construction; no lemma is stated for that.

Points where the model fixes a reading:

- The manifests take their name and namespace from the Component's metadata,
  not from `Spec.ComponentName`. The first Deployment test has no spec at all
  and still expects the name `test-component`.
- A zero replica count means "not set" and gives one replica. Negative counts
  also give one replica.
- Ports and probes are added when the target port is not 0: the field's zero
  value means "not set". The tests only use 0 and 5000, so `> 0` and `!= 0`
  cannot be told apart from them.
- Replicas and target port are Go `int` in the spec and `int32` in the
  manifests. The model assumes Go's wrapping conversion `int32(x)` between
  them (`GoInts.ToInt32`); the tests use only small values and do not pin
  this. Under this reading a replica count of 2^32 gives 0 replicas, and a
  target port of 2^32 is "set" yet gives a container port, Service port,
  Route target port and probe ports of 0.
- The source union allows a third state, `NoSource`, with neither member set.
  This is the zero value that the first Deployment test passes.

## Model

| member | source | states |
|---|---|---|
| GoInts.ToInt32 | api/v1alpha1/component_types.go:94-98 | the 32-bit value differs from the input by a multiple of 2^32 and equals it whenever the input fits in 32 bits |
| ComponentTypes.ParseSrcType | api/v1alpha1/component_types.go:24-33 | the enumeration accepts a string exactly when it is "Git" or "Image" |
| ComponentTypes.ParseSrcTypeIsInverse | api/v1alpha1/component_types.go:27-33 | parsing yields a source kind exactly when the string is that kind's spelling |
| ComponentTypes.SrcTypeMatchesUnion | api/v1alpha1/component_types.go:24-63 | a source's kind is Git exactly when its serialised union sets `git`, Image exactly when it sets `image`, and absent exactly when it sets neither |
| ComponentTypes.DecodeSource | api/v1alpha1/component_types.go:56-63 | the serialised union is rejected exactly when both members are set, and decodes to no source exactly when neither is |
| ComponentTypes.EncodeSource | api/v1alpha1/component_types.go:56-63 | an encoded source never sets both union members |
| ComponentTypes.SourceRoundTrip | api/v1alpha1/component_types.go:51-63 | decoding an encoded source gives it back, and an accepted union is the encoding of what it decodes to |
| Generate.MatchLabels | gitops/generate_test.go:36-38 | the linking labels have exactly one key, `component`, whose value is the component name |
| Generate.Replicas | gitops/generate_test.go:34-35 | an unset (or negative) replica count gives 1; a positive count that fits in 32 bits is copied |
| Generate.GenerateContainer | gitops/generate_test.go:135-180 | one container named `container-image`, pulled always, with the build image, the env in order and the resources verbatim; one port and two probes on the target port when it is set, none otherwise |
| Generate.GenerateDeployment | gitops/generate_test.go:53-81 | apps/v1 Deployment named and namespaced as the component, defaulted replicas, selector and pod labels `component: <name>`, and the single container above |
| Generate.GenerateService | gitops/generate_test.go:225-243 | v1 Service named and namespaced as the component, selector `component: <name>`, one port whose port and target port are both the spec's target port |
| Generate.GenerateRoute | gitops/generate_test.go:284-308 | v1 Route named, namespaced and labelled for the component, host copied only when set, target port from the spec, edge TLS redirecting insecure traffic, forwarding to Service `<name>` with weight 100 |
| Generate.DeploymentDeterminedByDescription | gitops/generate_test.go:189-196 | a Deployment meets the field-by-field description exactly when it is the generated one |
| Generate.ContainerDeterminedByDescription | gitops/generate_test.go:135-180 | a container meets its description exactly when it is the generated one |
| Generate.ServiceDeterminedByDescription | gitops/generate_test.go:247-255 | a Service meets its description exactly when it is the generated one |
| Generate.RouteDeterminedByDescription | gitops/generate_test.go:353-361 | a Route meets its description exactly when it is the generated one |
| Properties.ReplicasAtLeastOne | gitops/generate_test.go:34-35 | below 2^31 requested replicas, the Deployment asks for at least one replica |
| Properties.ReplicasWrapAround | api/v1alpha1/component_types.go:94-95 | under the modelled `int32` conversion, a requested count of 2^32 becomes 0 replicas |
| Properties.ZeroReplicasIsDefault | gitops/generate_test.go:34 | replicas 0 and replicas 1 give the same Deployment, so zero replicas cannot be requested |
| Properties.ExposedIffTargetPort | gitops/generate_test.go:146-169 | container ports, the readiness probe and the liveness probe are each present exactly when the target port is set |
| Properties.ManifestsAreLinked | gitops/generate_test.go:36-38 | the three manifests share name and namespace and the `component` labels; the Service selects the Deployment's pods; the Route names the Service; all port fields hold one value |
| Properties.ServiceSelectsOnlyItsComponent | gitops/generate_test.go:203-205 | a component's Service selects another component's pods exactly when the two names are equal |
| Properties.OnlyBuilderInputsMatter | gitops/generate_test.go:47-52 | components that agree on metadata name and namespace and on resources, replicas, target port, route, env and build get equal manifests |
| GenerateCases.SimpleComponentDeployment | gitops/generate_test.go:45-82 | a component with no spec gives the expected Deployment: one replica, one bare container, no image, ports or probes |
| GenerateCases.FullComponentDeployment | gitops/generate_test.go:83-186 | a component with replicas 3, port 5000, an image, env and resources gives the expected Deployment |
| GenerateCases.ExposedComponentService | gitops/generate_test.go:212-244 | a component on port 5000 gives the expected Service |
| GenerateCases.ExposedComponentRoute | gitops/generate_test.go:271-309 | a component on port 5000 without a route gives the expected Route with no host |
| GenerateCases.ExposedComponentRouteWithHost | gitops/generate_test.go:310-350 | the same component with route `example.com` gives the expected Route with that host |

## Left out

- generateService and generateRoute on a target port of 0: the tests never call them so; the model requires a set target port. The caller that skips both manifests for port 0 is not part of this model.
- The implementing file of the three builders is not part of this model; their behaviour is modelled from the expected manifests of the tests.
- Properties.ReplicasAtLeastOne: weaker than "never less than one replica"; under the model's reading of the `int32` conversion, a count of 2^31 or more wraps (Properties.ReplicasWrapAround), which the tests neither confirm nor rule out.
- Resource quantities are opaque texts: parsing (`resource.MustParse`) and quantity arithmetic are foreign code.
- Go's distinction between a nil and an empty slice or map, which `reflect.DeepEqual` observes, is not modelled: both are the empty sequence or map.
- Ports are modelled as integers only; the string form of an int-or-string port is never produced by the builders.
- `EnvVar.ValueFrom` and every manifest field the builders leave at its zero value are not modelled.
- `ComponentStatus`, `ComponentList` and the type metadata of the Component are not read by the builders.
- The `init` registration of the types with a scheme is a side effect on a library registry.
- The schema's requirement that a git source carries a `url` key is modelled only as a non-optional field; its contents are not validated.
- The reconciler and the GitOps push machinery that consume the manifests.
