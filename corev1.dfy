/**
 * The part of the Kubernetes core/v1 `Container` record that the container
 * builder touches. Element types whose inner structure the builder never
 * looks at are left abstract.
 */
module CoreV1 {
  import opened Options

  type EnvVar(==)
  type EnvFromSource(==)
  type ContainerPort(==)
  type VolumeMount(==)
  type ResourceRequirements(==)
  type SecurityContext(==)

  /** Image pull policy; in Kubernetes a string-valued type. */
  type PullPolicy = string
  const PullAlways: PullPolicy := "Always"
  const PullNever: PullPolicy := "Never"
  const PullIfNotPresent: PullPolicy := "IfNotPresent"

  /** Container restart policy; in Kubernetes a string-valued type. */
  type ContainerRestartPolicy = string
  const ContainerRestartPolicyAlways: ContainerRestartPolicy := "Always"

  /** Pointer fields (`*SecurityContext`, `*ContainerRestartPolicy`) are options; `None` is `nil`. */
  datatype Container = Container(
    env: seq<EnvVar>,
    envFrom: seq<EnvFromSource>,
    image: string,
    imagePullPolicy: PullPolicy,
    name: string,
    resources: ResourceRequirements,
    volumeMounts: seq<VolumeMount>,
    args: seq<string>,
    command: seq<string>,
    ports: seq<ContainerPort>,
    securityContext: Option<SecurityContext>,
    restartPolicy: Option<ContainerRestartPolicy>)

  /** The fields of a `Container`, used to say which ones an operation may change. */
  datatype Field =
    | EnvField | EnvFromField | ImageField | ImagePullPolicyField | NameField | ResourcesField
    | VolumeMountsField | ArgsField | CommandField | PortsField | SecurityContextField | RestartPolicyField

  /** `a` and `b` agree on every field outside `changed`. */
  predicate AgreeExcept(a: Container, b: Container, changed: set<Field>)
  {
    && (EnvField !in changed ==> a.env == b.env)
    && (EnvFromField !in changed ==> a.envFrom == b.envFrom)
    && (ImageField !in changed ==> a.image == b.image)
    && (ImagePullPolicyField !in changed ==> a.imagePullPolicy == b.imagePullPolicy)
    && (NameField !in changed ==> a.name == b.name)
    && (ResourcesField !in changed ==> a.resources == b.resources)
    && (VolumeMountsField !in changed ==> a.volumeMounts == b.volumeMounts)
    && (ArgsField !in changed ==> a.args == b.args)
    && (CommandField !in changed ==> a.command == b.command)
    && (PortsField !in changed ==> a.ports == b.ports)
    && (SecurityContextField !in changed ==> a.securityContext == b.securityContext)
    && (RestartPolicyField !in changed ==> a.restartPolicy == b.restartPolicy)
  }

  /** Agreeing on every field is equality. */
  lemma AgreeExceptNothing(a: Container, b: Container)
    requires AgreeExcept(a, b, {})
    ensures a == b
  {
  }
}
