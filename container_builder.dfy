/**
 * The chain-style container builder. Every Go method has a value receiver and
 * returns a modified shallow copy, so each operation here is a function from a
 * builder to a new builder; the builder it was called on is a value and cannot
 * change. Go's copies still share their slices and pointers; these values do not.
 */
module ContainerBuilder {
  import opened Options
  import opened CoreV1

  /** Go's `containerBuilder` is a named type over `corev1.Container`. */
  type ContainerBuilder = Container

  /** The name of the main container of a pod. */
  const CtrMain := "numa"

  /** The fields of the container request that `Init` reads. */
  datatype GetContainerReq = GetContainerReq(
    env: seq<EnvVar>,
    image: string,
    imagePullPolicy: PullPolicy,
    resources: ResourceRequirements,
    volumeMounts: seq<VolumeMount>)

  /** Takes env, image, pull policy, resources and mounts from `req` and names the container `CtrMain`. */
  function Init(b: ContainerBuilder, req: GetContainerReq): (r: ContainerBuilder)
    ensures r.env == req.env && r.image == req.image && r.imagePullPolicy == req.imagePullPolicy
    ensures r.name == CtrMain && r.resources == req.resources && r.volumeMounts == req.volumeMounts
    ensures AgreeExcept(b, r, {EnvField, ImageField, ImagePullPolicyField, NameField, ResourcesField, VolumeMountsField})
  {
    b.(env := req.env, image := req.image, imagePullPolicy := req.imagePullPolicy,
       name := CtrMain, resources := req.resources, volumeMounts := req.volumeMounts)
  }

  function Args(b: ContainerBuilder, args: seq<string>): (r: ContainerBuilder)
    ensures r.args == args && AgreeExcept(b, r, {ArgsField})
  {
    b.(args := args)
  }

  function Image(b: ContainerBuilder, x: string): (r: ContainerBuilder)
    ensures r.image == x && AgreeExcept(b, r, {ImageField})
  {
    b.(image := x)
  }

  function ImagePullPolicy(b: ContainerBuilder, policy: PullPolicy): (r: ContainerBuilder)
    ensures r.imagePullPolicy == policy && AgreeExcept(b, r, {ImagePullPolicyField})
  {
    b.(imagePullPolicy := policy)
  }

  /** `ctx` may be `None`, Go's `nil`; the field is set to it either way. */
  function SecurityContext(b: ContainerBuilder, ctx: Option<CoreV1.SecurityContext>): (r: ContainerBuilder)
    ensures r.securityContext == ctx && AgreeExcept(b, r, {SecurityContextField})
  {
    b.(securityContext := ctx)
  }

  function Name(b: ContainerBuilder, x: string): (r: ContainerBuilder)
    ensures r.name == x && AgreeExcept(b, r, {NameField})
  {
    b.(name := x)
  }

  function Command(b: ContainerBuilder, x: seq<string>): (r: ContainerBuilder)
    ensures r.command == x && AgreeExcept(b, r, {CommandField})
  {
    b.(command := x)
  }

  function AppendEnvFrom(b: ContainerBuilder, x: seq<EnvFromSource>): (r: ContainerBuilder)
    ensures |r.envFrom| == |b.envFrom| + |x|
    ensures r.envFrom[..|b.envFrom|] == b.envFrom && r.envFrom[|b.envFrom|..] == x
    ensures AgreeExcept(b, r, {EnvFromField})
  {
    b.(envFrom := b.envFrom + x)
  }

  function AppendEnv(b: ContainerBuilder, x: seq<EnvVar>): (r: ContainerBuilder)
    ensures |r.env| == |b.env| + |x|
    ensures r.env[..|b.env|] == b.env && r.env[|b.env|..] == x
    ensures AgreeExcept(b, r, {EnvField})
  {
    b.(env := b.env + x)
  }

  function AppendPorts(b: ContainerBuilder, x: seq<ContainerPort>): (r: ContainerBuilder)
    ensures |r.ports| == |b.ports| + |x|
    ensures r.ports[..|b.ports|] == b.ports && r.ports[|b.ports|..] == x
    ensures AgreeExcept(b, r, {PortsField})
  {
    b.(ports := b.ports + x)
  }

  function AppendVolumeMounts(b: ContainerBuilder, x: seq<VolumeMount>): (r: ContainerBuilder)
    ensures |r.volumeMounts| == |b.volumeMounts| + |x|
    ensures r.volumeMounts[..|b.volumeMounts|] == b.volumeMounts && r.volumeMounts[|b.volumeMounts|..] == x
    ensures AgreeExcept(b, r, {VolumeMountsField})
  {
    b.(volumeMounts := b.volumeMounts + x)
  }

  /** Replaces the mounts outright, unlike `AppendVolumeMounts`. */
  function VolumeMounts(b: ContainerBuilder, x: seq<VolumeMount>): (r: ContainerBuilder)
    ensures r.volumeMounts == x && AgreeExcept(b, r, {VolumeMountsField})
  {
    b.(volumeMounts := x)
  }

  function Resources(b: ContainerBuilder, x: ResourceRequirements): (r: ContainerBuilder)
    ensures r.resources == x && AgreeExcept(b, r, {ResourcesField})
  {
    b.(resources := x)
  }

  /** `sidecarSupported` stands for `isSidecarSupported()`, which depends on the cluster's Kubernetes version. */
  function AsSidecar(b: ContainerBuilder, sidecarSupported: bool): (r: ContainerBuilder)
    ensures !sidecarSupported ==> r == b
    ensures sidecarSupported ==>
      r.restartPolicy == Some(ContainerRestartPolicyAlways) && AgreeExcept(b, r, {RestartPolicyField})
  {
    if !sidecarSupported then b else b.(restartPolicy := Some(ContainerRestartPolicyAlways))
  }

  /** The built container has exactly the builder's fields. */
  function Build(b: ContainerBuilder): (c: Container)
    ensures AgreeExcept(b, c, {})
  {
    b
  }

  /** Appending is `old ++ x`: the same as replacing the mounts by the old ones followed by `x`. */
  lemma AppendVolumeMountsKeeps(b: ContainerBuilder, x: seq<VolumeMount>)
    ensures AppendVolumeMounts(b, x) == VolumeMounts(b, b.volumeMounts + x)
  {
  }

  /** `VolumeMounts` forgets the earlier mounts: builders differing only in their mounts end up equal. */
  lemma VolumeMountsForgetsPrior(b1: ContainerBuilder, b2: ContainerBuilder, x: seq<VolumeMount>)
    requires AgreeExcept(b1, b2, {VolumeMountsField})
    ensures VolumeMounts(b1, x) == VolumeMounts(b2, x)
  {
  }

  /** Two appends in a row append the concatenation, in order; appending nothing changes nothing. */
  lemma AppendsCompose(b: ContainerBuilder, e1: seq<EnvVar>, e2: seq<EnvVar>, f1: seq<EnvFromSource>, f2: seq<EnvFromSource>,
                       p1: seq<ContainerPort>, p2: seq<ContainerPort>, v1: seq<VolumeMount>, v2: seq<VolumeMount>)
    ensures AppendEnv(AppendEnv(b, e1), e2) == AppendEnv(b, e1 + e2)
    ensures AppendEnvFrom(AppendEnvFrom(b, f1), f2) == AppendEnvFrom(b, f1 + f2)
    ensures AppendPorts(AppendPorts(b, p1), p2) == AppendPorts(b, p1 + p2)
    ensures AppendVolumeMounts(AppendVolumeMounts(b, v1), v2) == AppendVolumeMounts(b, v1 + v2)
    ensures AppendEnv(b, []) == b && AppendEnvFrom(b, []) == b && AppendPorts(b, []) == b && AppendVolumeMounts(b, []) == b
  {
  }

  /** For every setter the second call wins and the first leaves no trace. */
  lemma SettersLastWriteWins(b: ContainerBuilder,
                             args1: seq<string>, args2: seq<string>,
                             image1: string, image2: string,
                             policy1: PullPolicy, policy2: PullPolicy,
                             ctx1: Option<CoreV1.SecurityContext>, ctx2: Option<CoreV1.SecurityContext>,
                             name1: string, name2: string,
                             command1: seq<string>, command2: seq<string>,
                             mounts1: seq<VolumeMount>, mounts2: seq<VolumeMount>,
                             res1: ResourceRequirements, res2: ResourceRequirements)
    ensures Args(Args(b, args1), args2) == Args(b, args2)
    ensures Image(Image(b, image1), image2) == Image(b, image2)
    ensures ImagePullPolicy(ImagePullPolicy(b, policy1), policy2) == ImagePullPolicy(b, policy2)
    ensures SecurityContext(SecurityContext(b, ctx1), ctx2) == SecurityContext(b, ctx2)
    ensures Name(Name(b, name1), name2) == Name(b, name2)
    ensures Command(Command(b, command1), command2) == Command(b, command2)
    ensures VolumeMounts(VolumeMounts(b, mounts1), mounts2) == VolumeMounts(b, mounts2)
    ensures Resources(Resources(b, res1), res2) == Resources(b, res2)
  {
  }

  /** Marking a container as a sidecar twice is the same as once. */
  lemma AsSidecarIdempotent(b: ContainerBuilder, sidecarSupported: bool)
    ensures AsSidecar(AsSidecar(b, sidecarSupported), sidecarSupported) == AsSidecar(b, sidecarSupported)
  {
  }

  /**
   * The builder chain of the unit test, started from a builder with no ports
   * and a request carrying only resources, on a cluster that supports
   * sidecars: the built container has the values the test expects.
   */
  lemma BuilderChainExample(b: ContainerBuilder, res: ResourceRequirements, vol: VolumeMount, envVar: EnvVar, port: ContainerPort)
    requires b.ports == []
    ensures var c := Build(AsSidecar(AppendPorts(AppendEnv(AppendVolumeMounts(Command(ImagePullPolicy(Image(Args(
                       Init(b, GetContainerReq([], "", "", res, [])), ["numa", "args"]), "image"), PullIfNotPresent),
                       ["cmd"]), [vol]), [envVar]), [port]), true));
      && c.name == "numa" && |c.volumeMounts| == 1 && c.resources == res && c.args == ["numa", "args"]
      && c.image == "image" && c.imagePullPolicy == PullIfNotPresent && c.env == [envVar] && c.ports == [port]
      && c.restartPolicy == Some(ContainerRestartPolicyAlways)
  {
  }
}
