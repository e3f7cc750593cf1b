# pgpilot-operator: a verified model

pgpilot-operator runs one pgwatch pod for every `PgpilotMonitor` object. This project models the
two parts of it that carry proof obligations and proves what they promise, in every run and for
every input.

**The reconciler.** `Machine.dfy` is the monitor controller seen from one monitor key: the API
objects the key's passes read and write, the work queue (dirty mark, timer, one pass at a time)
and the pass in progress as a program counter with its local copies. One step is one API call
with the computation that follows it, the local build between two calls, or one act of the
outside: spec and metadata edits,
deletion, library and Secret changes, pods becoming ready or not, somebody else overwriting a
child, a crash of the operator. Every call can be accepted, refused, or carried out with its
reply lost; updates are subject to optimistic concurrency. A run is the sequence of its states
and steps (`IsRun`, and `IsClusterRun` for all keys together). `Invariants.dfy` holds the inductive
invariant, `Safety.dfy`, `Pipeline.dfy`, `Events.dfy` and `Transitions.dfy` what it says about all runs,
`Convergence.dfy` what an undisturbed pass amounts to, `Cluster.dfy` how the machines of all
keys share one store. `Reconciler.dfy` is the code itself, statement by statement, as a class
whose methods let the outside act before each call; its methods are proved to walk the machine,
so every invariant of the machine holds of them. `LibraryController.dfy` treats the metric
library's controller in the same way.

**The compiler.** `MetricsMerge.dfy`, `ConfigMaps.dfy`, `Children.dfy`, `Labels.dfy` and
`Text.dfy` model the builders: the last-wins merge, the two generated files, the content hash,
the connection string, arguments, labels and selectors. `Compiler.dfy` puts them together, adds
an interpreter for the rules by which pgwatch reads the files, and proves that the compiled
files mean what the spec means.

`Operator.dfy` is where the parts meet: in every run of a cluster, a live monitor that nobody
is going to look at again is served by a pod that runs exactly the schedule and definitions its
spec and libraries ask for.

`Api.dfy` and `Prelude.dfy` hold the shared types. `dafny verify dfyconfig.toml` checks
everything.

## Modelling choices

- Strings are Go strings: one `char` is one byte.
- The YAML printers and readers, SHA-256 (section 6.2 of FIPS 180-4) and pgwatch's own registry
  are arbitrary inputs (`Toolkit`). That readers invert printers, that printed text holds no NUL
  byte, that a preset names only defined metrics: each is a hypothesis of the theorems that need
  it and of no other. Nothing is assumed of the digest: where two hashes are compared, a collision
  of the two streams at hand (`Collide`) is one side of the equivalence.
- Go's map iteration order is Dafny's `:|`. Where two version keys of one metric parse to the
  same integer and carry different SQL, the Go program's output depends on that order. What the
  builders may return is therefore a relation (`Merges`, `Compiles`), the machine takes any
  result the relation allows in each pass, and the theorems about runs hold for all of them.
  `MergeIsUniqueIff` and `BuildIsUniqueIff` say exactly when there is only one.
- Durations are integer nanoseconds truncated to seconds, in place of `float64` arithmetic.
- A read sees the store as it is at that step: informer caches do not lag. The restart of a
  crashed operator is one step, after which its list wakes every monitor. There is one
  controller instance.
- List in `libraryToMonitors` succeeds; the source returns nothing when it fails.
- The outside may do anything to a stored monitor except two things: add or remove this
  operator's own finalizer, and write the status, which is this controller's alone.
- A forced server-side apply makes the operator-owned fields equal to what was applied. A write
  that changes nothing yields no new version and no event.
- The fields `stamp`, `foreign` and `audit`, and the flag `final` of the status write, are
  bookkeeping. Of these a step reads only the number of passes begun, to name the next one.
- `ApplyChildren`, `ApplyBuilt`, `ApplyRest`, `ReconcileLive`, `ReportReadiness` and
  `DropFinalizer` are stretches of `Reconcile`, and `CheckSecret` one of `ValidateCredentials`,
  cut out so that each is proved alone. The three
  builders run in one piece before the first apply; they only compute.
- The connection string is read back by delimiters alone; that the characters between them are
  allowed is not checked.

## Where the code and its documentation disagree

The model follows the code.

- `api/v1/pgpilotmetriclibrary_types.go:44-47` describes a `"*"` SQL key as a fallback. The code
  drops every key that is not an integer (`SqlSurvivesIff`).
- The same type says pgwatch's defaults apply to an omitted interval; the code writes 60 seconds
  (`IntervalIsPositive`).
- `statementTimeoutSeconds` is documented and never reaches the generated objects
  (`TimeoutsStayBehind`).
- `api/v1/pgpilotmonitor_types.go:153-154` says a spec without any enabled sink is rejected; the
  controller runs it with no `--sink` argument (`SinkIff`).
- `docs/crd-reference.md:72` protects all `app.kubernetes.io/*` and `pgpilot.io/*` labels; the
  code protects five keys (`UserLabelSurvivesIff`).
- `docs/troubleshooting.md:112` promises events on transitions only; `SecretNotFound` and
  `LibraryResolveFailed` are recorded by every pass that fails to read
  (`SecretWarningIsRepeated`, `LibraryWarningIsRepeated`), and a readiness event is repeated
  exactly after a lost status write (`ReadinessAlternatesIff`, `SomeRunRepeats`).
- The watch on monitors has no predicate, so a pass's own status write, which moves
  `lastReconciled`, starts another pass until two of them fall in the same second
  (`SecondPassIsIdle`).
- An unknown preset fails the compilation only together with user metrics (`CompileFailsIff`).

## Model

| member | source | states |
|---|---|---|
| Operator.EveryMonitorIsServed | internal/controller/pgpilotmonitor_controller.go:70-215 | in every cluster run, and for every order in which Go visits its maps, a live monitor that nobody will look at again has a stored ConfigMap and a Deployment of one replica from which pgwatch runs exactly the intended schedule and definitions of the stored spec and libraries, field by field; it finds the monitor's database, logs in with the inline pair or the Secret's two keys, the annotation is the hash of the stored data, and the status announces database, config and readiness as true for the current generation |
| Operator.NoNilDereference | internal/builder/deployment.go:155-168 | in every reachable state a pass that is about to build or apply has credentials, so the unchecked dereference is never reached without them |
| Operator.RolloutIffDataChanges | internal/builder/deployment.go:31-34 | between any two builds the pod template's hash stays the same exactly when the ConfigMap data does, or the two data are a collision of the digest |
| Operator.HashesAreOfStoredData | internal/controller/pgpilotmonitor_controller.go:121-148 | in every run, the hash a status reports, and the annotation of a Deployment that is ours, is the hash of data that the ConfigMap held then or earlier |
| Operator.PodsAreNotShared | internal/builder/deployment.go:49-58 | in every reachable state the stored selectors of one monitor match the stored pods of another of the namespace only if the two are the same |
| Operator.BuildIsCoherent | internal/controller/pgpilotmonitor_controller.go:121-148 | names, volume, annotation and hash of the objects built by one pass refer to each other; one replica, which logs in with the spec's credentials |
| Invariants.StepKeepsInv | internal/controller/pgpilotmonitor_controller.go:70-215 | every step of pass, queue, outside or crash keeps the whole invariant: store, pass in progress, wake-up |
| Invariants.RunKeepsInv | internal/controller/pgpilotmonitor_controller.go:70-215 | so does every run from any state that meets it |
| Invariants.EveryStateIsGood | internal/controller/pgpilotmonitor_controller.go:70-215 | every state of every run from an empty start meets it |
| Safety.NoLostWakeUp | internal/controller/pgpilotmonitor_controller.go:327-346 | in every reachable state an idle, clean key without a timer is finished: deleting without our finalizer, or every child equal to a build of the stored spec and libraries, with current generation, hash and readiness, and DatabaseReachable, ConfigGenerated and Ready true for the current generation |
| Safety.RunningPassIsCurrent | internal/controller/pgpilotmonitor_controller.go:264-282 | unless the key is dirty again, what a running pass has read, library by library, is what is stored |
| Safety.ObservedGenerationIsTruthful | internal/controller/pgpilotmonitor_controller.go:171-208 | observedGeneration never exceeds generation, and when equal every child was applied from exactly the current spec |
| Safety.ObservedGenerationNeverFalls | internal/controller/pgpilotmonitor_controller.go:171-208 | between any two moments of a run that see the same incarnation neither observedGeneration nor generation falls |
| Safety.PipelineOrder | internal/controller/pgpilotmonitor_controller.go:121-148 | the pass behind the reported hash is no later than the one behind the Deployment, that no later than the one behind the ConfigMap, also under crashes and lost replies |
| Pipeline.ReportedHashIsOfItsPass | internal/controller/pgpilotmonitor_controller.go:134-139 | a reported hash is the one that the pass behind it came to apply |
| Invariants.CredentialMarksSay | internal/controller/pgpilotmonitor_controller.go:228-262 | after each branch of the credentials check, and after a missing library, the one entry of the type has the stated status and reason for the current generation |
| Invariants.ConfigStoredSays | internal/controller/pgpilotmonitor_controller.go:134-139 | after the ConfigMap is applied ConfigGenerated is true for the current generation, and DatabaseReachable is as it was |
| Invariants.ObservedSays | internal/controller/pgpilotmonitor_controller.go:171-192 | after readiness is read, Ready is true with PodRunning exactly for a ready pod, else false with PodNotReady, for the current generation; the other two conditions are as they were |
| Safety.OperatorWritesAreNarrow | internal/controller/pgpilotmonitor_controller.go:300-309 | in every run no step of the operator changes spec, generation or deletion mark; every foreign finalizer is there as often as before and in the same order; ours is added to live objects only and removed from deleting ones only, and an object goes only if no finalizer but ours was on it; a status is written only on the version that is stored at that instant, and is the pass's own |
| Safety.KeptWithoutOurs | internal/controller/pgpilotmonitor_controller.go:84 | removing our finalizer removes it however often it stands there, keeps the number and order of all others, and leaves nothing only if nothing else was there |
| Safety.ChildrenOnlyUnderFinalizer | internal/controller/pgpilotmonitor_controller.go:82-98 | a child is applied only for the stored incarnation and only while our finalizer is on it |
| Safety.ReleasedStays | internal/controller/pgpilotmonitor_controller.go:82-90 | an incarnation that is gone, or deleting without our finalizer, stays so |
| Safety.NothingAfterRelease | internal/controller/pgpilotmonitor_controller.go:82-98 | no run applies a child for it any more |
| Events.ReadinessAlternatesIff | internal/controller/pgpilotmonitor_controller.go:176-208 | in every run the readiness events of an incarnation strictly alternate, PodRunning first, unless a final status write that would have flipped ready was lost and a readiness event came after; exactly then they do not |
| Events.ReadinessAlternates | internal/controller/pgpilotmonitor_controller.go:176-192 | they alternate in every run that loses no such write |
| Events.SomeRunRepeats | internal/controller/pgpilotmonitor_controller.go:185-208 | a run from the empty state that meets the failing condition: a crash between step 7 and its status write |
| Events.SecretWarningIsRepeated | internal/controller/pgpilotmonitor_controller.go:235-248 | every failed read of the Secret is told, though DatabaseReachable makes a transition only if it was absent or true |
| Events.LibraryWarningIsRepeated | internal/controller/pgpilotmonitor_controller.go:105-116 | every failed read of a library is told, though Ready makes a transition only if it was absent or true |
| Events.CallsShrink | internal/controller/pgpilotmonitor_controller.go:300-309 | every call brings a pass nearer its end, whatever the reply and whatever others wrote |
| Events.PassEnds | internal/controller/pgpilotmonitor_controller.go:300-309 | under any interleaving a pass returns after a bounded number of its own calls, with at most five status attempts |
| Transitions.TransitionTimesAreHonest | internal/controller/pgpilotmonitor_controller.go:311-324 | in every run a monitor's conditions are a map, no type disappears, and a transition time moves only in a step that flips the status |
| Conditions.SetKeepsMap | internal/controller/pgpilotmonitor_controller.go:311-324 | setting a condition keeps one entry for each type |
| Conditions.SetIsKeyedUpdate | internal/controller/pgpilotmonitor_controller.go:311-324 | it changes the entry of its own type alone, and the time exactly when the type is new or its status flips |
| Conditions.SetIsIdempotent | internal/controller/pgpilotmetriclibrary_controller.go:61-67 | setting the same condition again changes nothing, whatever the clock says |
| Convergence.PassIsAssignment | internal/controller/pgpilotmonitor_controller.go:92-215 | the stepwise undisturbed pass, every call with an outcome and a clock of its own, refines one atomic assignment of finalizer, children and status |
| Convergence.PassConverges | internal/controller/pgpilotmonitor_controller.go:121-208 | from any state of the children one undisturbed pass over a ready pod makes each part of the build of spec and libraries, announces all three conditions as true for the current generation, and touches nothing else but finalizer and status; it wakes its own key only if it changed something |
| Convergence.FinalStatusSettles | internal/controller/pgpilotmonitor_controller.go:171-192 | computing the final status over itself moves nothing but lastReconciled |
| Convergence.FinalStatusAnnounces | internal/controller/pgpilotmonitor_controller.go:171-192 | whatever the status was before, the final status says where the credentials come from, that the config was generated, and Ready true with PodRunning or false with PodNotReady as the pod is, all for the current generation |
| Convergence.SecondPassRebuilds | internal/controller/pgpilotmonitor_controller.go:118-168 | a second pass changes no child exactly when its build agrees with what is stored |
| Convergence.SecondPassIsIdle | internal/controller/pgpilotmonitor_controller.go:171-215 | if the two builds agree, a second pass changes no child and of the monitor only lastReconciled; its own write wakes the key exactly when the second has changed |
| Cluster.StepProjects | internal/controller/pgpilotmonitor_controller.go:327-346 | every cluster step is, for each key, one step of its machine or none |
| Cluster.RunProjects | internal/controller/pgpilotmonitor_controller.go:327-346 | every cluster run is, for each key, a run of its machine |
| Cluster.StepsCommute | internal/builder/labels.go:45-47 | steps of two different monitors commute on the whole store |
| Cluster.InterleavingIsInvisible | internal/builder/labels.go:45-47 | any interleaving of two monitors' steps leaves the store as running one after the other |
| Cluster.LibraryToMonitors | internal/controller/pgpilotmonitor_controller.go:348-377 | the nested loops return the matching monitors in list order, each once however often it refers to the library |
| Cluster.MatchingIsExact | internal/controller/pgpilotmonitor_controller.go:348-377 | exactly the referencing monitors, without repetition |
| Cluster.RequestsAreTheWoken | internal/controller/pgpilotmonitor_controller.go:348-377 | the requests are exactly the keys the machine wakes on a library event |
| Cluster.DependenciesAreWoken | internal/controller/pgpilotmonitor_controller.go:264-282 | if putting or dropping a library changes what a monitor would build, that monitor is woken |
| Reconciler.MonitorReconciler.Reconcile | internal/controller/pgpilotmonitor_controller.go:70-215 | with the outside acting before every call, the procedure is a run of the machine ending in the same result |
| Reconciler.MonitorReconciler.ValidateCredentials | internal/controller/pgpilotmonitor_controller.go:222-262 | the three branches, with their marks, event and status write, are the machine's |
| Reconciler.MonitorReconciler.CheckSecret | internal/controller/pgpilotmonitor_controller.go:235-251 | the Secret branch: found it marks the database reachable and goes on; missing it marks both conditions, tells, writes the status and comes back in 30 seconds |
| Reconciler.MonitorReconciler.ResolveLibraries | internal/controller/pgpilotmonitor_controller.go:264-282 | the loop reads the references in order and stops at the first that fails |
| Reconciler.MonitorReconciler.ApplyChildren | internal/controller/pgpilotmonitor_controller.go:118-139 | from the resolved libraries on, with the builders run as they are, the steps are the machine's, whatever fails |
| Reconciler.MonitorReconciler.ApplyBuilt | internal/controller/pgpilotmonitor_controller.go:128-139 | the ConfigMap first, then mark, event and hash |
| Reconciler.MonitorReconciler.ApplyRest | internal/controller/pgpilotmonitor_controller.go:141-168 | Deployment, Service and ServiceMonitor in this order |
| Reconciler.MonitorReconciler.ReportReadiness | internal/controller/pgpilotmonitor_controller.go:170-215 | reading readiness, marking Ready true for a ready pod and false for another, telling the flip and the final status write are the machine's steps |
| Reconciler.MonitorReconciler.DropFinalizer | internal/controller/pgpilotmonitor_controller.go:82-90 | the deletion branch is the machine's, whose write takes our finalizer and no other |
| Reconciler.MonitorReconciler.PatchStatus | internal/controller/pgpilotmonitor_controller.go:300-309 | the retry loop ends within five attempts and tells whether the status was written |
| Reconciler.MonitorReconciler.ProcessNextItem | internal/controller/pgpilotmonitor_controller.go:327-346 | taking a key, reconciling it and re-adding it on error or delay is a run of the machine |
| LibraryController.LibraryStatusIsTruthful | internal/controller/pgpilotmetriclibrary_controller.go:43-76 | over every run: conditions stay a map, a current observed generation tells truly whether the stored library has metrics, and a key nobody will look at again is current |
| LibraryController.LibraryStepKeepsInv | internal/controller/pgpilotmetriclibrary_controller.go:43-76 | every step keeps the library controller's invariant |
| LibraryController.TransitionsAreReal | internal/controller/pgpilotmetriclibrary_controller.go:61-67 | the transition time moves only when the status flips |
| LibraryController.StatusIsFixedPoint | internal/controller/pgpilotmetriclibrary_controller.go:61-73 | a pass over its own status computes the identical status at any later time |
| LibraryController.TwoPassesAreEnough | internal/controller/pgpilotmetriclibrary_controller.go:70-73 | left alone the controller goes idle after at most two passes, the second leaving the object untouched; there is a second exactly when the first changed something and its event arrives |
| LibraryController.LibraryReconciler.Reconcile | internal/controller/pgpilotmetriclibrary_controller.go:43-76 | the procedure, with others writing between its calls, is a run of the machine |
| Compiler.CompilationPreservesMeaning | internal/builder/configmap.go:80-119 | whatever order Go visits its maps in, pgwatch, started with the generated arguments on the generated files, schedules the preset overridden by libraries in order overridden by custom; each definition it uses is field by field the last the user wrote, or else the built-in one; both files are found |
| Compiler.BuildIsUniqueIff | internal/builder/configmap.go:178-186 | the build is a function of spec and libraries exactly when every unshadowed metric is unambiguous, or compilation fails |
| Compiler.TimeoutsStayBehind | internal/builder/configmap.go:143-151 | specs and libraries that differ in statement timeouts alone have the same builds |
| Compiler.CompileFailsIff | internal/builder/pgwatch_builtin.go:27-36 | compilation fails exactly for an unknown preset together with user metrics |
| Compiler.FilesAreFound | internal/builder/deployment.go:128-135 | every file named in the arguments is a key of the ConfigMap and reads back as what was rendered |
| Compiler.ScheduleIsOverride | internal/builder/configmap.go:93-112 | whichever of the three branches is taken, the schedule is preset overridden by user intervals |
| Compiler.RegistryIsOverride | internal/builder/configmap.go:158-188 | the registry pgwatch ends up with is the built-in one, overridden by the user's definitions, each field in its own place |
| Compiler.SourceIsTheDatabase | internal/builder/configmap.go:80-91 | the one source loaded is the monitor's database, enabled, and its connection string reads back as the intended target exactly when that can be read back |
| Compiler.CredentialsStayOutOfTheConfigMap | docs/architecture.md:50-52 | changing nothing but credentials leaves ConfigMap and hash as they are |
| Compiler.BuildAll | internal/controller/pgpilotmonitor_controller.go:118-162 | the imperative builders return what the relation allows, and the function Compile where the metrics leave nothing open |
| ConfigMaps.BuildConfigMap | internal/builder/configmap.go:30-67 | data, name, labels and hash, or the error of an unknown preset |
| ConfigMaps.ConfigMapSaysWhose | internal/builder/configmap.go:54-66 | the ConfigMap has the monitor's own name and carries the five system labels |
| ConfigMaps.RenderSources | internal/builder/configmap.go:80-119 | the switch renders the specified source |
| ConfigMaps.RenderMetrics | internal/builder/configmap.go:162-197 | for every map order the file has, under each name, the user's definition field by field, or else the built-in metric when a preset is named, and nothing else |
| ConfigMaps.FileSaysWhatItShould | internal/builder/configmap.go:162-188 | so does the file that the compiler's specification names |
| ConfigMaps.ExpandPreset | internal/builder/pgwatch_builtin.go:27-41 | preset intervals with the user's over them; an error exactly for an unknown preset |
| ConfigMaps.ComputeContentHash | internal/builder/configmap.go:199-215 | for every map order the hash is that of the one sorted, framed stream |
| ConfigMaps.SortStrings | internal/builder/configmap.go:206 | the key slice is sorted in place and keeps its elements |
| ConfigMaps.CollectKeys | internal/builder/configmap.go:202-205 | the slice lists every key once, in whatever order |
| ConfigMaps.DecodeInvertsStream | internal/builder/configmap.go:208-213 | a decoder recovers every NUL-free map from the hashed stream |
| ConfigMaps.HashIdentifiesData | internal/builder/configmap.go:199-215 | two NUL-free maps share a hash exactly when they are equal or their streams are a collision of the digest |
| ConfigMaps.NulBreaksTheHash | internal/builder/configmap.go:208-213 | with NUL bytes in values two different maps share a hash, whatever the digest |
| ConfigMaps.GeneratedDataIsNulFree | internal/builder/configmap.go:39-52 | generated data meets the framing's hypothesis |
| ConfigMaps.ConnStrRoundTripsIff | internal/builder/configmap.go:121-134 | the split of section 3 of RFC 3986 gives back host, port, database and sslmode with their defaults, exactly when the host is free of '/', '?', '#', '@' and of colons outside brackets, the database of '?' and '#', the sslmode of '#', and the port is not negative |
| ConfigMaps.ConnStrIdentifiesTarget | internal/builder/configmap.go:121-134 | for such databases different effective targets give different strings |
| MetricsMerge.MergeMetrics | internal/builder/metrics_merge.go:46-67 | the nested loops compute a last-wins outcome over libraries in order followed by custom, and the function Merge where every unshadowed metric is unambiguous |
| MetricsMerge.MergeIsUniqueIff | internal/builder/metrics_merge.go:46-67 | the merge has one outcome exactly when every unshadowed metric is unambiguous |
| MetricsMerge.Accumulator.AddMetric | internal/builder/metrics_merge.go:69-102 | adding one metric extends the last-wins meaning of both maps by it |
| MetricsMerge.ParseVersions | internal/builder/metrics_merge.go:79-86 | the loop leaves exactly the integer keys, each with the SQL of a key that parses to it |
| MetricsMerge.OrderIsInvisibleIff | internal/builder/metrics_merge.go:79-86 | the visiting order cannot be seen exactly when keys that parse alike carry the same SQL |
| MetricsMerge.VersionsAreReached | internal/builder/metrics_merge.go:79-86 | every result the specification of the loop admits is left behind by some visiting order |
| MetricsMerge.SqlSurvivesIff | internal/builder/metrics_merge.go:79-86 | a definition keeps SQL exactly when some key is an integer; a lone "*" is dropped |
| MetricsMerge.VersionIsKept | internal/builder/metrics_merge.go:79-86 | SQL under a key that is a decimal numeral of a version is filed under that version, unless a key of the same version says otherwise |
| MetricsMerge.NoVersionIsInvented | internal/builder/metrics_merge.go:79-86 | every version in a definition is written, by sign and digits, in some key with this SQL |
| MetricsMerge.FoldIsLastWins | internal/builder/metrics_merge.go:56-64 | both maps hold exactly the occurring names, each with its last occurrence |
| MetricsMerge.LastWinsIsUnique | internal/builder/metrics_merge.go:46-67 | last-wins determines the intervals, and the definitions where unshadowed metrics are unambiguous |
| MetricsMerge.MergeConcatenates | internal/builder/metrics_merge.go:56-64 | merging a concatenation is right-biased override |
| MetricsMerge.CustomWins | internal/builder/metrics_merge.go:56-64 | the last custom entry of a name gives its interval and every field of its definition, whatever the libraries say |
| MetricsMerge.LastLibraryWins | internal/builder/metrics_merge.go:56-64 | a name no custom entry has is given by the last entry of the last library that has it |
| MetricsMerge.NothingElseIsMerged | internal/builder/metrics_merge.go:56-64 | no name is merged that neither custom nor a library has |
| MetricsMerge.ShadowedEntriesAreDead | internal/builder/metrics_merge.go:56-64 | deleting an entry that a later one shadows changes nothing |
| MetricsMerge.IntervalIsPositive | internal/builder/metrics_merge.go:70-77 | an interval is at least 1: the duration truncated to seconds, or 60 when absent or below one second |
| Children.BuildArgs | internal/builder/deployment.go:128-153 | appending step by step gives sources, then metrics if there is such a file, then the enabled sinks |
| Children.ListensWhereScrapedIff | internal/builder/deployment.go:139-145 | pgwatch listens on the port container and Service expose exactly when the configured port is not negative |
| Children.SinkIff | internal/builder/deployment.go:137-150 | there is a sink argument exactly when Prometheus is enabled, or gRPC is enabled with an endpoint; a spec without sinks is built all the same |
| Children.PodHasTheCredentials | internal/builder/deployment.go:155-197 | in the generated Deployment's environment PGUSER and PGPASSWORD are the inline pair if complete, else the Secret's two keys or their defaults |
| Children.ObjectsFit | internal/builder/service.go:15-47 | Deployment, Service and ServiceMonitor have one name; the Service points at the pod's port, the ServiceMonitor at the Service's, in the monitor's namespace alone; one replica of the configured image mounts the monitor's ConfigMap |
| Children.ObjectsSayWhose | internal/builder/deployment.go:22-59 | Deployment, pods, Service and ServiceMonitor carry the five system labels; users' labels and annotations get through under all other keys |
| Children.ImageIsAskedFor | internal/builder/deployment.go:199-209 | the image is repository and tag as configured, each with its default when empty |
| Children.SinksAreNamed | internal/builder/deployment.go:146-150 | a usable gRPC sink is the last argument and holds the endpoint; otherwise no sink is gRPC |
| Children.SelectorsCloseAndIsolate | internal/builder/servicemonitor.go:17-35 | for all user labels and annotations every selector matches its own monitor's objects and no other's, and the hash annotation is never masked |
| Labels.SelectorIsolates | internal/builder/labels.go:21-36 | no user label moves an object into or out of a selector |
| Labels.UserLabelSurvivesIff | internal/builder/labels.go:31-36 | a user label survives exactly when it does not contradict one of the five system keys |
| Labels.SelectorIff | internal/builder/labels.go:13-28 | a selector matches exactly the objects whose instance is the monitor and whose name is the application's |
| Labels.SystemLabelsSayWhose | internal/builder/labels.go:21-36 | the five system labels name the monitor, the application, the manager and the component, whatever users merge in |
| Labels.ResourceNameInjective | internal/builder/labels.go:45-47 | generated names of one kind are equal only for equal monitor names |
| Text.ParseInvertsPrint | internal/builder/configmap.go:130-133 | a printed decimal parses to the number |
| Text.AtoiIff | internal/builder/metrics_merge.go:80-84 | a text parses to an integer exactly when it is an optional sign and decimal digits that write it, within 64 bits |
| Text.AtoiInvertsPrint | internal/builder/metrics_merge.go:80-84 | every 64-bit integer, printed, parses to itself |
| Text.LessIff | internal/builder/configmap.go:206 | the order of keys is that of the first byte in which two texts differ, a proper prefix first |
| Text.AscendingIsUnique | internal/builder/configmap.go:206 | a set of keys has one ascending listing, so the hash cannot depend on the initial order |
| Text.HexInjective | internal/builder/configmap.go:214 | different digests print differently |
| Text.HexReadsBack | internal/builder/configmap.go:214 | each byte is written as two hexadecimal digits, the high half first |

## Left out

- Informer cache lag, leader election between several operator instances, and the API server's
  own internals beyond versions, generations, finalizers and deletion marks.
- Failure of List in `libraryToMonitors`: the source then wakes nobody, and no wake-up property
  could hold.
- Operations on children by anyone else are single overwrites (`Disturb...` steps); field
  ownership finer than "the operator's fields" is not modelled.
- `status.podName`, the pod list behind it, and the texts of events; condition messages carry no
  error text, and names in them stand without Go's quotation marks.
- Resources, probes, security contexts, volume mounts other than the ConfigMap's name, pull
  policy, gRPC TLS, and the fixed ServiceMonitor intervals: single constants or copied fields.
- Contents of Secrets, except as an arbitrary map in `PodHasTheCredentials`.
- YAML and SHA-256 internals, and the contents of pgwatch's registry.
- `float64` rounding of durations.
- Owner references and garbage collection: a collected child is one more overwrite by others.
- `cmd/main.go`, API discovery, manifests, charts, dashboards and generated deep copies.
- MetricsMerge.MergeMetrics: equals the function `Merge` only where every unshadowed metric has
  unambiguous version keys, because otherwise the Go program's own result depends on map order.
- Writers of the monitor's status other than this controller.
