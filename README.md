# kube-scheduler, modelled in Dafny

kube-scheduler runs containerized jobs on a cron schedule against a
Kubernetes cluster. It keeps at most one run of a job per namespace, and it
reports failures to Honeybadger. This project models its core as a sequential
program, one call at a time:

- `scheduler.dfy` (module `Scheduler`, `scheduler/scheduler.go`): the run-lock
  table. It maps a job key to the marker `"running"`. The key of a job is its
  registry name followed directly by its namespace. `Client` is a class whose
  `jobLock` map is changed by `StartJob` and `FinishJob` and read by `Running`.
  The pure functions `Started` and `Finished` give the table after each call.
  `Replay` gives the table after a sequence of such calls.
- `kubernetes.dfy` (module `Kubernetes`, `kubernetes/kubernetes.go`): three
  pieces.
  - `AutoRetry` is the three-attempt retry loop, proved equal to the function
    `Retry`.
  - `MergeTemplate` writes a job into its template.
  - `RunJob` loads, merges, creates, watches and deletes. It is a method whose
    event loop is proved equal to the trace-producing function `RunJobSpec`.
- `notifier.dfy` (module `Notifier`, `notifier/notifier.go`): the client's
  configured flag, one delivery attempt, and the `Notify` retry loop.
- `kube_scheduler.dfy` (module `KubeScheduler`, `kube-scheduler.go`): the
  earlier single-file version. It holds a `Manager` class with a lock map keyed
  by job name, the reverse lookup `NameFromJob`, the lock discipline of
  `Job.Run`, and `createTaskPod` with its pod-phase loop.
- `common.dfy` (module `Common`): `Option`, `Attempt` (the outcome of one
  fallible call), `Container`, and the `dir/file` path format.

Remote calls are oracles. Each retried operation is a total function
`nat -> Attempt<T>` that gives the outcome of its i-th call. Reading and parsing
a template file is a function from the path to a load result. `time.Sleep` is
a counter.

The model follows the code in three places where one might expect otherwise:

- An unconfigured notifier makes `Notify` return nil, not an error.
- `Job.Equal` compares all five fields, the arguments included.
- The lock table offers `Running` and `StartJob` as two separate calls. There
  is no combined test-and-set.

The earlier file does not compile as written:

- kube-scheduler.go:134 compares slices with `==`. `Job.Equal` compares the
  arguments as sequences.
- kube-scheduler.go:141 calls `log.Printf()` with no arguments. That branch is
  modelled as a plain return.

## Model

| member | source | states |
|---|---|---|
| Common.JoinPath | scheduler/scheduler.go:101-103 | the path is the directory, one `/`, then the file name, and its length is the sum of the two plus one |
| Scheduler.FullPath | scheduler/scheduler.go:101-103 | the schedule file path is the directory, `/`, then the file name |
| Scheduler.JobKey | scheduler/scheduler.go:105-109 | the key splits at the name's length into exactly the name and the namespace |
| Scheduler.NamespacesSeparateKeys | scheduler/scheduler.go:105-109 | one name in two different namespaces gives two different keys, so both may be running at once |
| Scheduler.KeyDependsOnNameAndNamespaceOnly | scheduler/scheduler.go:107-109 | jobs that share a name and a namespace share one lock, whatever their schedule, template, image or arguments |
| Scheduler.KeysOfDifferentPairsCanCoincide | scheduler/scheduler.go:107-109 | with no separator, moving the last character of a name to the front of the namespace keeps the key, so name "ab" in namespace "c" and name "a" in namespace "bc" share one lock |
| Scheduler.Started | scheduler/scheduler.go:64-69 | after a start the key is present with value "running", and every other key keeps its presence and value |
| Scheduler.Finished | scheduler/scheduler.go:71-76 | after a finish the key is absent, every other key is unchanged, and finishing an absent key changes nothing |
| Scheduler.StartIdempotent | scheduler/scheduler.go:68 | starting a job twice gives the same table as starting it once |
| Scheduler.FinishIdempotent | scheduler/scheduler.go:75 | finishing a job twice gives the same table as finishing it once |
| Scheduler.StartThenFinishRestores | scheduler/scheduler.go:64-76 | a start then a finish of a free key gives back the original table |
| Scheduler.HeldUntilFinished | scheduler/scheduler.go:54-76 | a running key stays running through any start and finish calls until a finish of that same key |
| Scheduler.OtherKeysUntouched | scheduler/scheduler.go:64-76 | calls on other keys never change a key's presence or value |
| Scheduler.Client.constructor | scheduler/scheduler.go:24-36 | a new client holds the loaded registry and an empty lock table |
| Scheduler.Client.JobList | scheduler/scheduler.go:78-80 | returns the registry as loaded, with the same names and the same job under each name |
| Scheduler.Client.Running | scheduler/scheduler.go:54-62 | reports true exactly when the job's key is in the table; it modifies nothing |
| Scheduler.Client.StartJob | scheduler/scheduler.go:64-69 | the new table is the old one with the job's key set to "running" |
| Scheduler.Client.FinishJob | scheduler/scheduler.go:71-76 | the new table is the old one without the job's key; if the key was absent the table is unchanged |
| Kubernetes.RetryFrom | kubernetes/kubernetes.go:154-164 | starting at a given attempt, the loop stops at the first success with one sleep per earlier failure; it gives up with the last error after three failed calls and three sleeps |
| Kubernetes.Retry | kubernetes/kubernetes.go:149-166 | autoRetry makes one to three calls. It returns the last call's outcome, and every earlier call failed. A success comes after calls minus one sleeps; a failure comes only after three calls and three sleeps |
| Kubernetes.RetryStopsAtFirstSuccess | kubernetes/kubernetes.go:154-158 | if call k (k < 3) is the first success, autoRetry returns its value after exactly k+1 calls and k sleeps |
| Kubernetes.RetryExhausted | kubernetes/kubernetes.go:154-164 | if all three calls fail, autoRetry returns the third error after three calls and three sleeps |
| Kubernetes.AutoRetry | kubernetes/kubernetes.go:149-166 | the retry loop returns exactly what Retry describes: the result, the call count and the sleep count |
| Kubernetes.JobPath | kubernetes/kubernetes.go:168-170 | the template path is the configuration directory, `/`, then the job's template name |
| Kubernetes.MergeTemplate | kubernetes/kubernetes.go:73-78 | the first container's args become the job's args. Its image becomes the job's image only when that is non-empty. The namespace becomes the job's namespace. All other containers and fields are unchanged |
| Kubernetes.MergeIdempotent | kubernetes/kubernetes.go:73-78 | merging the same job twice gives the same resource as merging it once |
| Kubernetes.Classify | kubernetes/kubernetes.go:94-103 | an event decides the watch exactly when its first condition has type Complete or Failed. A Complete first condition gives success, and a Failed one gives a failure with that condition's message |
| Kubernetes.FirstTerminal | kubernetes/kubernetes.go:92-104 | the loop stops at the first terminal event, or reads the whole stream when there is none |
| Kubernetes.FirstTerminalUnique | kubernetes/kubernetes.go:92-104 | only one index is both before every other terminal event and itself terminal |
| Kubernetes.WatchVerdict | kubernetes/kubernetes.go:92-106 | the watch stays undecided exactly when no event in the stream is terminal |
| Kubernetes.VerdictOfFirstTerminal | kubernetes/kubernetes.go:92-103 | the first terminal event decides the watch. Complete gives success and Failed gives its own message. The loop reads exactly the events up to and including that one |
| Kubernetes.OnlyFirstConditionMatters | kubernetes/kubernetes.go:94-95 | streams whose events agree on their first conditions give the same verdict after the same number of reads |
| Kubernetes.LaterEventsIgnored | kubernetes/kubernetes.go:96-102 | events after the first terminal one change neither the verdict nor the number of events read |
| Kubernetes.RunJob | kubernetes/kubernetes.go:60-107 | RunJob's error and trace are exactly those of RunJobSpec. This covers the template path read, the merged resource submitted, the retried create, watch and delete, the events read and the sleeps |
| Kubernetes.RunJobDeletesExactlyWhatItCreated | kubernetes/kubernetes.go:61-90 | once creation succeeds, the created resource is deleted exactly once, even when the watch fails. When loading or creation fails, nothing is deleted. The submitted resource is the merged template |
| Kubernetes.DeleteNeverChangesResult | kubernetes/kubernetes.go:80-90 | any two delete outcomes give the same RunJob error |
| Kubernetes.RunJobOutcomeFollowsWatch | kubernetes/kubernetes.go:92-106 | with create and watch established, RunJob returns nil exactly when the verdict is not Failed. A Failed verdict gives that condition's message |
| Kubernetes.FailedConditionIsReported | kubernetes/kubernetes.go:100-101 | a first terminal Failed condition with message m makes RunJob fail with an error carrying m, and the created resource is still deleted once |
| Notifier.NewClient | notifier/notifier.go:16-29 | the client posts to Honeybadger exactly when the API key is non-empty |
| Notifier.NotifyHoneybadger | notifier/notifier.go:58-65 | an unconfigured client succeeds without posting; a configured one returns its post's error |
| Notifier.Notify | notifier/notifier.go:40-56 | Notify makes one to three attempts, and every attempt before the last failed. It returns the last attempt's result: nil at the first success, or the third error with three sleeps. When unconfigured it returns nil after one attempt, with no post and no sleep |
| KubeScheduler.Job.Equal | kube-scheduler.go:130-136 | true exactly when all five fields are equal, the arguments compared as sequences |
| KubeScheduler.EqualIsEquivalence | kube-scheduler.go:130-136 | Equal is reflexive, symmetric and transitive |
| KubeScheduler.FilePath | kube-scheduler.go:164-166 | the path is the configuration directory, `/`, then the file name |
| KubeScheduler.FirstTerminalPhase | kube-scheduler.go:195-214 | the phase loop stops at the first Failed or Succeeded phase, or reads the whole stream |
| KubeScheduler.FirstTerminalPhaseUnique | kube-scheduler.go:195-214 | only one index is both before every other terminal phase and itself terminal |
| KubeScheduler.PreparePod | kube-scheduler.go:182-183 | the first container's args become the job's args, and the pod's namespace becomes the job's namespace. Everything else is unchanged |
| KubeScheduler.CreateTaskPod | kube-scheduler.go:168-217 | createTaskPod's outcome is exactly TaskPod's. This covers the template path, the prepared pod, the created pod, the pods deleted and the error |
| KubeScheduler.TaskPodPhases | kube-scheduler.go:195-216 | a first terminal phase Failed deletes the pod once and returns an error naming it. Succeeded deletes it once and returns nil. A stream with no terminal phase returns nil and deletes nothing |
| KubeScheduler.TaskPodDeletesOnlyAfterTerminalPhase | kube-scheduler.go:185-216 | the pod is deleted, only the created pod and only once, exactly when it was created, watched, and reached a terminal phase. A delete failure is reported only on success |
| KubeScheduler.Manager.constructor | kube-scheduler.go:64-68 | a new manager holds the loaded registry and an empty lock map |
| KubeScheduler.Manager.ReadFromJobLock | kube-scheduler.go:93-98 | returns (v, true) exactly when the name is present with state v, and ("", false) otherwise; it modifies nothing |
| KubeScheduler.Manager.WriteToJobLock | kube-scheduler.go:100-104 | the name maps to the new state, and every other name keeps its presence and state |
| KubeScheduler.Manager.DeleteFromJobLock | kube-scheduler.go:106-110 | the name is removed, other names are unchanged, and deleting an absent name changes nothing |
| KubeScheduler.Manager.NameFromJob | kube-scheduler.go:112-120 | returns some registry name whose job equals the given one when such a name exists. Otherwise it returns "" and the error "Job is not in job list" |
| KubeScheduler.Manager.Run | kube-scheduler.go:138-162 | skips when the lookup fails or the name is locked. Otherwise it holds the lock as "started" while the pod runs and reports a pod error. In every case the lock map ends as it began |

## Left out

- The mutex and all concurrency are left out. Every lock-table call is one atomic step. `Job.Run` checks the lock and then writes it in two separate critical sections (kube-scheduler.go:145, 151); that race is not modelled.
- The cron engine is left out: `AsyncAddScheduledJob`, `Start`, `Stop` (scheduler/scheduler.go:38-52) and the `AddJob` loop in `main`. Cron expressions are interpreted by a foreign library.
- File reading and YAML/JSON parsing are left out. This covers the schedule file in `NewClient` (scheduler/scheduler.go:24-36) and in `main`, and the template files. The constructors receive the parsed registry, and templates come from an oracle.
- Kubernetes client construction (kubernetes/kubernetes.go:26-49) and the kube client set-up in `main` are remote I/O. `Create`, `Watch`, `Delete`, `CreatePod`, `WatchPod`, `DeletePod` and `PodLog` are oracle outcomes. `PodLog` only feeds a log line, so it is not modelled.
- Kubernetes.RunJob: when the watch's retries are exhausted, `watchJob` asserts a nil value to `watch.Interface` (kubernetes/kubernetes.go:146), which panics. The model returns the `WatchError` of kubernetes/kubernetes.go:87-88 instead. The deferred delete runs in both cases.
- Kubernetes.RunJob: the assertion `event.Object.(*v1.Job)` (kubernetes/kubernetes.go:93) would panic on an event that is not a Job. The model assumes every event carries a Job. `events.Stop()` is not modelled.
- Kubernetes.RunJob: the template is changed in place through a pointer to its first container. The model builds the merged resource as a new value.
- Kubernetes.RunJob: an error is modelled as the step that failed plus its cause. The `errors.Wrap` prefixes (kubernetes/kubernetes.go:63, 68, 82, 88) are not kept. `fmt.Errorf(condition.Message)` (kubernetes/kubernetes.go:101) uses the message as a format string, so a `%` in it is expanded by Go (`"100%"` becomes `"100%!(NOVERB)"`). The model carries the message unchanged. Whether the result is nil is modelled exactly.
- Kubernetes.RunJob: the watch is a finite sequence of events. In the source, `range events.ResultChan()` (kubernetes/kubernetes.go:92) waits until the channel closes. A watch that never closes and never sends a terminal condition blocks forever, and the deferred delete (kubernetes/kubernetes.go:84) then never runs. The model assumes every stream ends, so the delete-exactly-once property holds only for streams that end.
- KubeScheduler.CreateTaskPod: the pod phases are a finite sequence. In the source, `range statuses` (kube-scheduler.go:195) waits until the channel closes. A pod that never reaches a terminal phase and whose stream never closes blocks `Job.Run` forever, and the lock release (kube-scheduler.go:152) never happens. The model assumes every stream ends.
- Kubernetes.MergeTemplate, Kubernetes.RunJobSpec, Kubernetes.RunJob, KubeScheduler.PreparePod, KubeScheduler.TaskPod, KubeScheduler.CreateTaskPod, KubeScheduler.Manager.Run and the lemmas about them: a template with no container makes the source panic with an index out of range (kubernetes/kubernetes.go:73, kube-scheduler.go:182). Their preconditions exclude such a template, so the panic is not modelled.
- Kubernetes.AutoRetry: a failed call's value is dropped. The source returns nil with the error in that case anyway.
- Logging (`glog`, `log`), Honeybadger configuration and the content of a Honeybadger post are left out. The Honeybadger posts in `Job.Run` and after a failed pod delete appear only as the flags `notified` and `deleteFailureReported`.
- `time.Sleep` is modelled only as a counter of one-second sleeps.
- Signal handling, flags and `godotenv` in `main` are left out.
- KubeScheduler.Manager.NameFromJob: Go's map iteration order is not modelled. The model picks any matching name, so its contract holds for every order.
