# flow: resource validation before a workflow starts

This project models the part of the `flow` workflow engine (package `flow`,
file `flow.go`) that runs before any task is scheduled. Tasks
(`Commander`s) are added to a `Queue`. `Queue.Run` then asks every task for
its `Resources()` in insertion order. It stops with an error at the first
task whose lookup fails or that names no container. Only a queue that
passes reaches graph construction (`newGraph`) and then the scheduler
(`g.Process`). `ResourcesFor` is the lookup a task's `Resources()` is
meant to delegate to (no `Commander` implementation is part of `flow.go`). It
reads `resources.<analysis>.cpus`, `.memory`, `.time` and `.container` from
the configuration, in that order. It fails on the first one that reads as
the zero value (`0` or `""`).

Files:

- `wrappers.dfy`: module `Wrappers`, an `Option` type for Go's "value or
  nil" results.
- `config.dfy`: module `Config`. It holds the configuration store, the four
  resource fields with their checking order, and the key format
  `resources.<name>.<field>`.
- `resource.dfy`: module `Resource`. It holds the `Resources` record, Go's
  `(Resources, error)` pair as `Lookup`, `ResourcesFor`, and lemmas about it.
- `workflow.dfy`: module `Workflow`. It holds tasks, the `Queue` class with
  `Add` and `Run`, the validation function `Validate` that specifies `Run`'s
  loop, and lemmas about it.

Modelling choices:

- The global viper instance becomes an explicit `Config.Store` argument.
  Each key has an integer view and a string view. A key missing from a view
  reads as `0` or `""`, as viper's `GetInt` and `GetString` do.
- `Commander` becomes the datatype `Workflow.Task`. It carries the analysis
  name, the command, and the pair its `Resources()` method returns.
- Go's `(Resources, error)` result is kept as a pair. On an error,
  `ResourcesFor` returns the zero record `Resources{}` beside it.
- `newGraph` and `g.Process` are not defined in `flow.go`. `Run` takes them
  as opaque function arguments that report an error or nil for the queue's
  tasks. `log.Fatalf`, which ends the process when `Process` fails, becomes
  the outcome `Exited`.
- `freezeTask` (flow.go:52) rewrites a task's `type:"input"` and
  `type:"output"` fields in place, just before `Run` calls the task's
  `Resources()`. The model assumes that a task's `Resources()` and
  `AnalysisName()` do not read those fields. Under that assumption
  `freezeTask` is a no-op on the abstract task.

Two consequences of the code are worth stating:

- `ResourcesFor` rejects only `0`, so a negative cpus, memory or time value
  passes (`Resource.NegativeSettingAccepted`).
- `Run` drops the field-naming error from `ResourcesFor` and reports only
  the analysis name (flow.go:55). `Workflow.RunError` keeps just the name.

## Model

| member | source | states |
|---|---|---|
| `Config.Key` | flow.go:105-117 | the key is `resources.` followed by the analysis name, a dot, and the field name (`cpus`, `memory`, `time` or `container`) |
| `Config.KeyInjective` | flow.go:105-117 | two lookups use the same key only when both the analysis name and the field are the same |
| `Resource.ResourcesFor` | flow.go:102-127 | errs iff cpus, memory or time reads 0 or the container reads "". An error names the analysis and the first missing field in the order cpus, memory, time, container, and the record beside it is `Resources{}`. On success the record holds exactly the configured values with empty `SingularityExtraArgs`; its integers are non-zero and its container non-empty |
| `Resource.ResourcesForReadsOnlyItsKeys` | flow.go:102-127 | the result depends only on the four keys of that analysis: two stores that agree on them give the same result |
| `Resource.SettingOtherAnalysisIsInvisible` | flow.go:105-117 | in the exact-key store, changing any resource key of another analysis leaves this analysis's lookup unchanged |
| `Resource.NegativeSettingAccepted` | flow.go:106 | only `== 0` is rejected: there is a configuration where the lookup succeeds with negative cpus |
| `Workflow.Validate` | flow.go:51-60 | the validation loop as a function: no error iff every task's `Resources()` succeeds and names a container; a validation error is never a graph error |
| `Workflow.ValidateReportsFirstFailure` | flow.go:51-60 | the error reported is the one for the first failing task in insertion order: `ResourcesFailed` if its lookup erred, else `NoContainer` |
| `Workflow.ValidateAppend` | flow.go:38-40 | appending a task keeps any error already found among earlier tasks; on a passing queue the new task's own check decides |
| `Workflow.InvalidQueueNeverBuildsGraph` | flow.go:51-61 | when some task fails, the outcome is a validation error and does not depend on the graph builder or the scheduler |
| `Workflow.ConfiguredQueueValidation` | flow.go:53-59 | if every task takes its resources from `ResourcesFor`, the queue passes iff every analysis is fully configured; otherwise it fails with `ResourcesFailed` at the first analysis that is not, and the container check never fires |
| `Workflow.Queue.constructor` | flow.go:34-36 | a new queue has no tasks |
| `Workflow.Queue.Add` | flow.go:38-40 | the task is appended at the end: the length grows by one, earlier tasks keep their positions, and the validation result changes as `ValidateAppend` says |
| `Workflow.Queue.Run` | flow.go:42-70 | returns a validation error iff some task fails, and then exactly the first failing task's error. A passing queue, including an empty one, reaches the graph builder: its error is returned as `GraphFailed`, a scheduler error ends the process, and otherwise nil is returned |

## Left out

- `InitConfig` (flow.go:129-175), and its call at the start of `Run` (flow.go:43-45): it reads configuration files and environment variables and creates directories. The model takes an already resolved store instead.
- Viper's own key handling: case-insensitive keys, dotted keys read as nested paths, and conversion of a string setting to an integer. The store answers each exact key string through separate integer and string views.
- Resource.SettingOtherAnalysisIsInvisible and Config.KeyInjective: hold for the exact-key store only. Under viper, analyses `BWA` and `bwa` share their keys (keys are lower-cased), and `x` and `x.cpus` can collide through nested paths.
- `freezeTask`'s effect on tasks whose `Resources()` or `AnalysisName()` read their input or output fields: the model assumes they do not.
- Go's 64-bit `int`: resource values are unbounded integers. Only comparison with 0 matters here, so nothing wraps.
- `RunWorkflow`, `loadPlugin` and `compileWorkflow` (flow.go:178-245): they compile and load a Go plugin through `go build` and the `plugin` package. This is process and dynamic-loading plumbing.
- `copyFile` and `SafeWriteConfigAs` (flow.go:247-264): file I/O and a thin viper wrapper.
- `freezeTask` (flow.go:72-100): reflection over struct tags and `filepath.Abs`, which depends on the working directory, with panics on malformed tags. The model treats it as a no-op.
- `newGraph` and `Graph.Process` are not part of this model: they are opaque arguments of `Run`. The dependency graph and the scheduler are not defined in `flow.go`.
- Log output (`log.Printf` in `Run`) and the text of error messages: errors are structured values carrying the same analysis name and field.
