/**
 * The Component custom resource as the manifest builders read it: its
 * object metadata and its spec.  Fields the API declares `omitempty` are
 * optional, and their Go zero value (0 or "") stands for "not set".
 */
module ComponentTypes {
  import opened Wrappers
  import opened GoInts

  /** Where a component's source comes from.  Exactly two kinds exist. */
  datatype ComponentSrcType = Git | Image

  /** The spelling of each source kind in the resource's schema. */
  function SrcTypeName(t: ComponentSrcType): string
  {
    match t
    case Git => "Git"
    case Image => "Image"
  }

  /** The schema's enumeration check: only "Git" and "Image" are accepted. */
  function ParseSrcType(s: string): (r: Option<ComponentSrcType>)
    ensures r.Some? <==> s == "Git" || s == "Image"
  {
    if s == "Git" then Some(Git)
    else if s == "Image" then Some(Image)
    else None
  }

  /** Parsing accepts a string exactly when it is the spelling of a source kind. */
  lemma ParseSrcTypeIsInverse(s: string, t: ComponentSrcType)
    ensures ParseSrcType(s) == Some(t) <==> s == SrcTypeName(t)
  {
  }

  /** A git repository to create the component from; the URL is required. */
  datatype GitSource = GitSource(
    url: string,
    secret: string,      // optional: "" when the repository is public
    devfileUrl: string)  // optional: "" when the repository's own devfile is used

  /** A container image to create the component from. */
  datatype ImageSource = ImageSource(containerImage: string)

  /**
   * The source of a component, as a tagged variant: at most one kind of
   * source is ever present.  `NoSource` is the zero value, which a
   * Component whose spec is left empty carries.
   */
  datatype ComponentSource =
    | NoSource
    | FromGit(git: GitSource)
    | FromImage(image: ImageSource)
  {
    /** The kind of source, when one is given. */
    function SrcType(): (r: Option<ComponentSrcType>)
      ensures r == None <==> this == NoSource
      ensures r == Some(Git) <==> FromGit?
      ensures r == Some(Image) <==> FromImage?
    {
      match this
      case NoSource => None
      case FromGit(_) => Some(Git)
      case FromImage(_) => Some(Image)
    }
  }

  /**
   * The serialised form of a source: two independently optional members,
   * `git` and `image`, of which the union marker allows at most one.
   */
  datatype ComponentSourceUnion = ComponentSourceUnion(
    gitSource: Option<GitSource>,
    imageSource: Option<ImageSource>)

  /** Reads the serialised form; it is rejected when both members are set. */
  function DecodeSource(u: ComponentSourceUnion): (r: Option<ComponentSource>)
    ensures r == None <==> u.gitSource.Some? && u.imageSource.Some?
    ensures r == Some(NoSource) <==> u.gitSource == None && u.imageSource == None
  {
    match (u.gitSource, u.imageSource)
    case (Some(_), Some(_)) => None
    case (Some(g), None) => Some(FromGit(g))
    case (None, Some(i)) => Some(FromImage(i))
    case (None, None) => Some(NoSource)
  }

  /** Writes the serialised form of a source. */
  function EncodeSource(s: ComponentSource): (u: ComponentSourceUnion)
    ensures !(u.gitSource.Some? && u.imageSource.Some?)
  {
    match s
    case NoSource => ComponentSourceUnion(None, None)
    case FromGit(g) => ComponentSourceUnion(Some(g), None)
    case FromImage(i) => ComponentSourceUnion(None, Some(i))
  }

  /** Encoding and decoding are inverse on every source and every accepted union. */
  lemma SourceRoundTrip(s: ComponentSource, u: ComponentSourceUnion)
    ensures DecodeSource(EncodeSource(s)) == Some(s)
    ensures DecodeSource(u) == Some(s) ==> EncodeSource(s) == u
  {
  }

  /** A source's kind is exactly the member its serialised form sets. */
  lemma SrcTypeMatchesUnion(s: ComponentSource)
    ensures s.SrcType() == Some(Git) <==> EncodeSource(s).gitSource.Some?
    ensures s.SrcType() == Some(Image) <==> EncodeSource(s).imageSource.Some?
    ensures s.SrcType() == None <==> EncodeSource(s) == ComponentSourceUnion(None, None)
  {
  }

  /** The artifacts of a component's build: the image it produced ("" before any build). */
  datatype Build = Build(containerImage: string)

  /** One environment variable; a spec holds them in order. */
  datatype EnvVar = EnvVar(name: string, value: string)

  /** The name of a compute resource, such as "cpu" or "memory". */
  type ResourceName = string

  const RESOURCE_CPU: ResourceName := "cpu"
  const RESOURCE_MEMORY: ResourceName := "memory"

  /** A resource quantity, kept opaque: its textual form, never parsed. */
  datatype Quantity = Quantity(text: string)

  type ResourceList = map<ResourceName, Quantity>

  /** Compute resource limits and requests. */
  datatype ResourceRequirements = ResourceRequirements(
    limits: ResourceList,
    requests: ResourceList)

  /** The desired state of a Component. */
  datatype ComponentSpec = ComponentSpec(
    componentName: string,
    application: string,
    source: ComponentSource,
    context: string,                   // optional
    resources: ResourceRequirements,   // optional
    replicas: Int,                     // optional: 0 means not set
    targetPort: Int,                   // optional: 0 means not exposed
    route: string,                     // optional: "" lets the platform choose the host
    env: seq<EnvVar>,                  // optional, order significant
    build: Build)                      // optional

  /** The identifying part of an object's metadata. */
  datatype ObjectMeta = ObjectMeta(
    name: string,
    namespace: string,
    labels: map<string, string>)

  /** A Component resource; its status is not read when manifests are derived. */
  datatype Component = Component(metadata: ObjectMeta, spec: ComponentSpec)

  /** Compute resources with no limits and no requests. */
  const NO_RESOURCES := ResourceRequirements(map[], map[])

  /** The zero value of a spec: every optional field unset. */
  const EMPTY_SPEC := ComponentSpec("", "", NoSource, "", NO_RESOURCES, 0, 0, "", [], Build(""))
}
