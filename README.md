# Numaflow rater snapshot and container builder, in Dafny

This project models two small pieces of Numaflow, a Kubernetes-native stream
processing engine.

- **`TimestampedCounts`** (module `Rater`, `rater.dfy`): the rater's per-tick
  snapshot. It is tagged with the tick's timestamp, and it maps each pod of a
  vertex to the cumulative number of messages that pod has processed. The
  autoscaler creates one snapshot per tick, empty, and then records one pod
  reading at a time. A failed scrape hands over no reading (`nil`, here
  `None`). The snapshot then keeps the pod's earlier count instead of deleting
  it. Deleting it would later show up as a false rate spike. Otherwise the
  last reading for a pod wins. The class keeps a ghost history of every
  reading it was given. Its invariant `Valid()` says that the map is the left
  fold of that history (`ApplyAll`), starting from the empty map. The lemmas
  about the fold prove the tick-level properties.
- **`containerBuilder`** (modules `CoreV1` in `corev1.dfy` and
  `ContainerBuilder` in `container_builder.dfy`): a chain-style builder over
  the Kubernetes `Container` record. Every Go method has a value receiver and
  returns a shallow copy of the record. So each one is a function here. Its contract says which
  field it sets or appends to. It also says, through `CoreV1.AgreeExcept`,
  that every other field is unchanged. Because the builder is a value, calling
  a method can never change the builder it was called on. That holds by
  construction.

`Options.Option` stands for Go's nil-able pointers. Module `RaterAsWritten`
(`rater_as_written.dfy`) models the snapshot's map as a shared reference, to
show the one defect listed under "## Findings".

## Model

| member | source | states |
|---|---|---|
| `Rater.TimestampedCounts.constructor` | pkg/mvtxdaemon/server/service/rater/timestamped_counts.go:33-39 | the new snapshot has timestamp `t`, an empty count map and an empty history |
| `Rater.TimestampedCounts.Update` | pkg/mvtxdaemon/server/service/rater/timestamped_counts.go:41-57 | a missing reading leaves the map exactly as it was; a present one sets its pod's count; every other pod keeps its entry; keys only grow; the map stays the fold of the history extended by this reading |
| `Rater.TimestampedCounts.PodCountSnapshot` | pkg/mvtxdaemon/server/service/rater/timestamped_counts.go:59-65 | returns the current pod-to-count contents without changing the object; they equal inserting every present reading recorded so far, in order, into an empty map |
| `Rater.TimestampedCounts.PodTimestamp` | pkg/mvtxdaemon/server/service/rater/timestamped_counts.go:75-79 | returns the timestamp fixed at construction (a `const`, so no method can assign it) |
| `Rater.Applied` | pkg/mvtxdaemon/server/service/rater/timestamped_counts.go:45-56 | one reading: `None` gives back the map unchanged; `Some(p)` adds `p`'s name to the keys and maps it to `p`'s count; every other existing entry is untouched |
| `Rater.AppliedIdempotent` | pkg/mvtxdaemon/server/service/rater/timestamped_counts.go:45-56 | recording the same reading twice equals recording it once; a missing reading twice is a no-op |
| `Rater.AppliedLastWriteWins` | pkg/mvtxdaemon/server/service/rater/timestamped_counts.go:56 | of two readings for the same pod, the later one decides the entry and the earlier one leaves no trace |
| `Rater.AppliedCommutes` | pkg/mvtxdaemon/server/service/rater/timestamped_counts.go:56 | readings for two different pods give the same map in either order |
| `Rater.ApplyAllSnoc` | pkg/mvtxdaemon/server/service/rater/timestamped_counts.go:42-57 | one more `Update` after a sequence of updates extends the fold by exactly one step, so consecutive `Update` calls compute the fold |
| `Rater.ApplyAllIsInsertAllPresent` | pkg/mvtxdaemon/server/service/rater/timestamped_counts.go:45-56 | folding all readings, missing ones included, equals inserting only the present readings, in order |
| `Rater.InsertAllLookup` | pkg/mvtxdaemon/server/service/rater/timestamped_counts.go:56 | after a sequence of insertions a pod is in the map iff it was there before or has a reading; its value is its last reading if it has one, else its old value |
| `Rater.LastForNames` | pkg/mvtxdaemon/server/service/rater/timestamped_counts.go:56 | a pod has a last reading in a sequence of readings exactly when its name occurs in that sequence |
| `Rater.SnapshotIsIndependent` | pkg/mvtxdaemon/server/service/rater/timestamped_counts.go:59-60 | the documented intent: after a snapshot is taken, a later update of the same pod (1 then 2) leaves the snapshot at 1 while the object holds 2 |
| `RaterAsWritten.SharedTimestampedCounts.constructor` | pkg/mvtxdaemon/server/service/rater/timestamped_counts.go:33-39 | the new snapshot has timestamp `t` and a freshly allocated, empty shared map |
| `RaterAsWritten.SharedTimestampedCounts.Update` | pkg/mvtxdaemon/server/service/rater/timestamped_counts.go:45-56 | the shared map's entries become `Applied` of the old entries and the reading |
| `RaterAsWritten.SharedTimestampedCounts.PodCountSnapshot` | pkg/mvtxdaemon/server/service/rater/timestamped_counts.go:61-65 | as written, returns the internal map reference itself |
| `RaterAsWritten.SnapshotSeesLaterUpdate` | pkg/mvtxdaemon/server/service/rater/timestamped_counts.go:64 | as written, a snapshot taken when pod `p1` had count 1 reads 2 after `p1` is updated to 2 |
| `Rater.MissingReadingsPreserve` | pkg/mvtxdaemon/server/service/rater/timestamped_counts.go:45-56 | over any sequence of readings the new keys are the old keys plus the pods that had a reading, and a pod with no present reading keeps its earlier count (never removed, never zeroed) |
| `ContainerBuilder.Init` | pkg/apis/numaflow/v1alpha1/container_builder.go:26-34 | sets env, image, pull policy, resources and volume mounts from the request and the name to `"numa"`; all other fields unchanged |
| `ContainerBuilder.Args` | pkg/apis/numaflow/v1alpha1/container_builder.go:36-39 | args replaced by the given list, every other field unchanged |
| `ContainerBuilder.Image` | pkg/apis/numaflow/v1alpha1/container_builder.go:41-44 | image replaced, every other field unchanged |
| `ContainerBuilder.ImagePullPolicy` | pkg/apis/numaflow/v1alpha1/container_builder.go:46-49 | pull policy replaced, every other field unchanged |
| `ContainerBuilder.SecurityContext` | pkg/apis/numaflow/v1alpha1/container_builder.go:51-54 | security context replaced (also by `nil`), every other field unchanged |
| `ContainerBuilder.Name` | pkg/apis/numaflow/v1alpha1/container_builder.go:56-59 | name replaced, every other field unchanged |
| `ContainerBuilder.Command` | pkg/apis/numaflow/v1alpha1/container_builder.go:61-64 | command replaced, every other field unchanged |
| `ContainerBuilder.AppendEnvFrom` | pkg/apis/numaflow/v1alpha1/container_builder.go:66-69 | the new env-from list is the old list followed by `x`, in order; every other field unchanged |
| `ContainerBuilder.AppendEnv` | pkg/apis/numaflow/v1alpha1/container_builder.go:71-74 | the new env list is the old list followed by `x`, in order; every other field unchanged |
| `ContainerBuilder.AppendPorts` | pkg/apis/numaflow/v1alpha1/container_builder.go:76-79 | the new port list is the old list followed by `x`, in order; every other field unchanged |
| `ContainerBuilder.AppendVolumeMounts` | pkg/apis/numaflow/v1alpha1/container_builder.go:81-84 | the new mount list is the old list followed by `x`, in order; every other field unchanged |
| `ContainerBuilder.VolumeMounts` | pkg/apis/numaflow/v1alpha1/container_builder.go:86-89 | mounts replaced outright by `x`, every other field unchanged |
| `ContainerBuilder.Resources` | pkg/apis/numaflow/v1alpha1/container_builder.go:91-94 | resources replaced, every other field unchanged |
| `ContainerBuilder.AsSidecar` | pkg/apis/numaflow/v1alpha1/container_builder.go:96-103 | identity when sidecars are unsupported; otherwise restart policy becomes `Always` and nothing else changes |
| `ContainerBuilder.Build` | pkg/apis/numaflow/v1alpha1/container_builder.go:105-107 | the container agrees with the builder on every field |
| `ContainerBuilder.AppendVolumeMountsKeeps` | pkg/apis/numaflow/v1alpha1/container_builder.go:81-89 | appending mounts equals replacing them by the old mounts followed by the new ones |
| `ContainerBuilder.VolumeMountsForgetsPrior` | pkg/apis/numaflow/v1alpha1/container_builder.go:86-89 | builders that differ only in their mounts are equal after `VolumeMounts(x)`: the result does not depend on the prior mounts |
| `ContainerBuilder.AppendsCompose` | pkg/apis/numaflow/v1alpha1/container_builder.go:66-84 | two appends in a row equal one append of the concatenation; appending nothing is the identity |
| `ContainerBuilder.SettersLastWriteWins` | pkg/apis/numaflow/v1alpha1/container_builder.go:36-64 | for every setter, a second call overrides the first completely |
| `ContainerBuilder.AsSidecarIdempotent` | pkg/apis/numaflow/v1alpha1/container_builder.go:96-103 | marking as sidecar twice equals once |
| `ContainerBuilder.BuilderChainExample` | pkg/apis/numaflow/v1alpha1/container_builder_test.go:41-64 | the unit test's builder chain yields name `"numa"`, one mount, the given resources, args, image, pull policy, env, ports and restart policy `Always` |
| `CoreV1.AgreeExceptNothing` | pkg/apis/numaflow/v1alpha1/container_builder.go:105-107 | containers that agree on every field are equal, so `Build` returns the builder's record itself |

## Left out

- The `sync.RWMutex` and its locking (timestamped_counts.go:30, 43-44, 62-63, 70-71, 76-77): they exist for concurrent access. The model is single-threaded.
- `TimestampedCounts.String()`: a debug rendering via Go's `fmt`.
- `Rater.TimestampedCounts.PodCountSnapshot`: its doc comment promises a copy of the map, but the Go code returns the internal map itself (see "## Findings"). In Dafny a returned `map` is a value, so this member has the documented copy semantics. Only `RaterAsWritten` models the shared live map, and only for sequential access.
- `float64` counts are `real`: the snapshot does no arithmetic on them. The timestamp is a Go `int64` (a bounded newtype).
- The rate calculation, window history, pod scraping and control loop are not part of this model. The files that implement them are not among the modelled sources.
- `Rater.ApplyAll`, `Rater.Present`, `Rater.InsertAll`, `Rater.Names` and `Rater.LastFor` are specification functions with no Go counterpart. They state what a sequence of `Update` calls computes. The lemmas about them (`Rater.ApplyAllSnoc`, `Rater.ApplyAllIsInsertAllPresent`, `Rater.InsertAllLookup`, `Rater.LastForNames`, `Rater.MissingReadingsPreserve`) likewise have no Go counterpart.
- `isSidecarSupported()` depends on the cluster's Kubernetes version. It is a boolean parameter of `AsSidecar`.
- `CtrMain` is defined outside the builder. It is the constant `"numa"`, the value the unit test expects.
- `getContainerReq` has more fields than the five `init` reads. Only those five are modelled.
- The Kubernetes element types (`EnvVar`, `EnvFromSource`, `ContainerPort`, `VolumeMount`, `ResourceRequirements`, `SecurityContext`) are abstract. The builder never looks inside them. The other `Container` fields are not modelled because the builder does not touch them.
- `req.resources.DeepCopy()` in `init` is modelled as the value itself. A deep copy is equal to its original.
- The builder's copies are shallow in Go, and the model does not capture the sharing this causes. The model gives every builder its own lists and values. In Go, slices and pointers stay shared:
  - `init` shares `req.env` and `req.volumeMounts` with the request (container_builder.go:27, 32).
  - `args` and `command` keep the caller's variadic slice (container_builder.go:37, 62).
  - `volumeMounts` keeps the caller's variadic slice (container_builder.go:87).
  - `securityContext` stores the caller's pointer (container_builder.go:52).
  - `appendEnvFrom`, `appendEnv`, `appendPorts` and `appendVolumeMounts` write into the old backing array when it has spare capacity (container_builder.go:67, 72, 77, 82). Two builders appended from the same one can then overwrite each other's new elements. For example, if `a.Env` has length 2 and capacity 4, `b1 := a.appendEnv(e1)` and then `b2 := a.appendEnv(e2)` leave `b1.Env[2] == e2`. The model's contracts state `AppendEnv(a, [e1]).env[|a.env|] == e1` for every builder.
- Go's `nil` and empty slices are not distinguished: both are the empty sequence.

## Findings

| source | as written | input that shows it | evidently intended | confidence | as-written member | corrected member |
|---|---|---|---|---|---|---|
| pkg/mvtxdaemon/server/service/rater/timestamped_counts.go:59-64 | `PodCountSnapshot` returns the internal `podReadCounts` map itself, although its comment says it returns a copy so that other goroutines cannot modify it | record `p1` = 1, take a snapshot, record `p1` = 2: the snapshot now reads 2 (and concurrently a caller ranging over it races with `Update`) | return a copy: the snapshot keeps reading 1 | not executed; high | `RaterAsWritten.SnapshotSeesLaterUpdate` | `Rater.SnapshotIsIndependent` |
