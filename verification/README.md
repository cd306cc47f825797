# Agent orchestrator: a Dafny model

The orchestrator runs agents on Kubernetes. An `Agent` resource says what should run; a controller keeps one Pod (and
optionally a Service) per Agent, brings deleted Agents back, and lets go of them on request; a REST API edits Agents; a
per-agent cache and an event history live in memory or in Redis; a watcher pauses agents nobody uses. This project
models these parts and proves that what is wanted survives concurrency, deletion, crashes and the passing of time.

Check everything with `dafny verify dfyconfig.toml`.

## The parts

| file | what it models |
|---|---|
| `AgentTypes.dfy`, `Decimal.dfy` | the Agent, the Pod built from it, the generation annotation, the reconciler's decision |
| `Lifecycle.dfy` | one Agent as an interleaving of single API calls: reconciler, resurrection goroutines, users, REST handlers, kubelet, crashes |
| `LifecycleTheorems.dfy` | what holds in every state those interleavings reach, and runs that show which assumptions matter |
| `ReconcileRuns.dfy` | one undisturbed `Reconcile`, or deletion, is a run of the interleaved worker, so convergence and the return of deleted Agents hold for such runs |
| `Controller.dfy` | `Reconcile` and `reconcileService` as a program, convergence of repeated calls, Services of several agents, the resurrection retry loop |
| `MergePatch.dfy` | JSON merge patches and the get-then-patch handlers |
| `Handlers.dfy`, `EnvJson.dfy` | the requests that use them, and PUT, against an Agent that others change in between |
| `Env.dfy` | merging and deleting environment variables |
| `TtlMap.dfy` | the plain map with expiry that both caches stand for |
| `CacheConcurrency.dfy` | the in-memory cache, one critical section at a time: linearizability |
| `InMemoryCache.dfy` | the in-memory cache as a program over maps updated in place |
| `Keys.dfy` | key layouts of the stores |
| `RedisServer.dfy`, `RedisCache.dfy` | the Redis commands used, and the Redis cache as a program |
| `RedisIndex.dfy` | when the index set of the Redis cache agrees with the entries |
| `Float64.dfy` | what JSON does to a 64-bit integer |
| `History.dfy` | the two history stores, with Go's slices and shared buffers |
| `Idle.dfy` | the idle watcher: a pass, safety over interleavings, liveness over ticks |

## What is assumed

- One reconcile worker for a resource. Pod lists are up to date. Nobody else creates Pods with the owner labels, adds
  finalizers, or removes the agent finalizer. The Update that removes the last finalizer of a deleted object removes it.
- `podLabels` and `podAnnotations` leave the reserved keys alone. `Controller.SettlesIff` says exactly
  when an override is harmless, and `Controller.UnfoundPodsPileUp` what happens otherwise.
- Reads of the Agent may be stale in all lifecycle theorems: they return any version that was ever stored. Pods stay
  owned exactly as long as none is created for an Agent that is gone (`LifecycleTheorems.AlwaysOwnedIff`), which is so
  when what is read are versions, however old, of the stored Agent
  (`LifecycleTheorems.OldReadsOfTheStoredAgentAreFine`). `LifecycleTheorems.StaleReadBreaksFingerprint` shows what
  happens otherwise.
- Convergence is about calls without interference and without API faults.
- One clock, which does not go back, stamps entries, expires keys and drives the watcher. Time-to-live values are whole
  seconds of sane size, as the REST API makes them. The commands of one Redis operation are not interleaved with those of
  another, except where a lemma says so.
- Namespaces contain no slash, where isolation of agents is claimed; names may contain anything, and
  `Keys.AgentsMeetIff` says which agents then share field keys. The activity record is written by touches and by the
  watcher only.

## Where the code does not do what is said about it

- `README.md` (the repository's) and the comment of the handler say that `/restart` forces a new Pod. It writes an
  annotation, which does not change the generation, so the Pod is kept (`LifecycleTheorems.RestartKeepsPod`,
  `LifecycleTheorems.EditReplacesPodIff`).
- The comment on `specChanged` speaks of a change that requires recreation. Any change of the spec counts, also one
  after which both specs ask for the same Pod; `AgentTypes.NeedlessReplacementIff` says exactly
  which, and `AgentTypes.NeedlessEdits` gives two.
- PUT is documented to apply every value that is present. It applies a present field exactly when it knows it or the
  value was there already (`Handlers.PresentFieldAppliedIff`, `Handlers.ApiServer.HandleUpdate`), and it does not know
  `resources`, which its request has (`Handlers.ResourcesAreIgnored`, `Handlers.ResourcesRequest`).
- The comment in the Redis `Set` says that the index lives at least as long as the longest entry. A later `Set` with a
  shorter time-to-live shortens it, and an entry without expiry outlives it. `RedisIndex.SetKeepsCoverIff` says exactly
  when the index stays complete, `RedisIndex.IndexAgreesInBand` for which runs, `RedisIndex.BandIsTight` that no weaker
  band would do.
- `List` of the Redis cache prunes an index entry some time after it missed the field. A `Set` in between is hidden from
  later `List` and `ClearAgent` calls (`RedisIndex.SetBeforePruneIsHidden`).
- The comment on `TouchActivity` says that the time stamp round-trips cleanly through JSON. It is rounded to a multiple
  of 256 ns (`Float64.TimestampError`, `Float64.TimestampErrorIsTight`).
- The repository's README says that an agent is paused when its idle time exceeds the timeout. The code pauses when it
  reaches it (`Idle.BoundIsExact`).
- The Failed condition is set before the patch base is copied and so is never stored
  (`Handlers.FailedConditionIsNotStored`).
- A stop that read `paused: true` sends no `paused` at all and loses to a start that slipped in
  (`MergePatch.AssignmentInForceIff`).
- Merging environment variables is documented as an upsert, but it loses what a concurrent request added since its
  read: a variable is in force exactly when the last request that wrote the list mentions it, or had already read it
  (`Handlers.VariableInForceIff`, `Handlers.MergeLosesVariable`).
- A name that starts with "agt-" and a digit shares its Service with another agent
  (`Controller.ServiceNamesCollideIff`).

## Model

| member | source | states |
|---|---|---|
| LifecycleTheorems.InvStep | internal/controller/agent_controller.go:50-210 | every API call of every participant keeps the lifecycle invariant, with stale Agent reads allowed |
| LifecycleTheorems.InvOverRuns | internal/controller/agent_controller.go:50-290 | the invariant holds after every run of interleaved calls, edits, deletes, crashes and stale reads |
| LifecycleTheorems.AlwaysOwnedIff | internal/controller/agent_controller.go:62-120 | with reads however stale, every live Pod has its owner stored with the finalizer throughout a run iff the run creates no Pod for an Agent that is gone |
| LifecycleTheorems.OldReadsOfTheStoredAgentAreFine | internal/controller/agent_controller.go:53-60 | reading old versions of the stored Agent never leads to such a Pod |
| LifecycleTheorems.GenerationIdentifiesSpec | internal/controller/agent_controller.go:379-386 | two objects ever stored under one uid and generation have the same spec |
| LifecycleTheorems.LivePodFingerprint | internal/controller/agent_controller.go:81-134 | with reads however stale, a live Pod of the stored Agent reads as unchanged iff it is what the current spec builds |
| LifecycleTheorems.LivePodRunsTheSpec | internal/controller/agent_controller.go:322-386 | with reads however stale, a live Pod of the stored Agent whose annotation carries the stored generation has the image, command, arguments and every other field of the stored spec |
| LifecycleTheorems.LivePodIsOwned | internal/controller/agent_controller.go:62-120 | every live Pod is one of the stored and guarded Agent, after any run that creates none for an Agent that is gone |
| LifecycleTheorems.KeptPodRunsTheSpecReadIff | internal/controller/agent_controller.go:122-139 | with reads however stale, a kept Pod is what the spec read asks for iff the spec it was built from asks for the same, as it does when it belongs to the Agent read |
| LifecycleTheorems.KeptPodRunsTheSpecRead | internal/controller/agent_controller.go:122-139 | so a kept Pod runs the spec read, field by field, when what is read are versions of the stored Agent |
| LifecycleTheorems.EditReplacesPodIff | internal/rest/handlers.go:533-542 | an edit makes an up-to-date Pod read as changed iff it changes the spec |
| LifecycleTheorems.RestartKeepsPod | internal/rest/handlers.go:533-542 | the edit that /restart makes changes one annotation and leaves the Pod up to date |
| LifecycleTheorems.AtMostOneLivePod | internal/controller/agent_controller.go:293-311 | at most one Pod of an agent is live, in every reachable state |
| LifecycleTheorems.NoLivePodAtFinalizerRemoval | internal/controller/agent_controller.go:157-200 | when the Update that removes the finalizer is sent, no Pod of the agent is live |
| ReconcileRuns.CallIsARun | internal/controller/agent_controller.go:50-151 | one undisturbed call of Reconcile is a run of the interleaved worker between the same objects |
| ReconcileRuns.ReachableStatesConverge | internal/controller/agent_controller.go:50-151 | from every reachable state whose Pods are owned and whose Agent is not being deleted, undisturbed work of the worker leads to a settled state within four calls |
| LifecycleTheorems.TaskNeedsHealing | internal/controller/agent_controller.go:171-207 | a resurrection task exists only for an Agent whose stored object had healing on when its finalizer went |
| LifecycleTheorems.DoomedForGood | internal/controller/agent_controller.go:171-207 | an Agent stored with healing off never gets a task, over any run in which nobody turns it back on |
| LifecycleTheorems.RestDeleteIsFinal | internal/rest/handlers.go:478-495 | after the DELETE handler's flag write hit a uid, no interleaving ever starts a task for that uid unless someone re-enables healing |
| LifecycleTheorems.OneResurrectionOverRuns | internal/controller/agent_controller.go:202-207 | from any state, a whole run starts at most one task for a uid and creates at most one Agent in its place |
| LifecycleTheorems.OneResurrectionEach | internal/controller/agent_controller.go:202-207 | so every run from the start does, and tasks and heirs never share an original |
| LifecycleTheorems.HeirCarriesTheOriginal | internal/controller/agent_controller.go:176-190 | an heir is created with the stored spec and labels of its original and its annotations but for the two resurrection keys |
| LifecycleTheorems.LineageKeepsSpec | internal/controller/agent_controller.go:216-241 | over any number of deletions and healings spec and labels come through unchanged |
| ReconcileRuns.DeletionIsARun | internal/controller/agent_controller.go:157-210 | from any state with a deleting Agent, undisturbed work of the worker ends with the Agent gone, no Pod live, and a task exactly when healing was on |
| ReconcileRuns.DeletedAgentRunsAgain | internal/controller/agent_controller.go:157-260 | and with healing on it brings the Agent back under a new uid with its spec and labels, and settles it within four calls |
| LifecycleTheorems.DeletedAgentCanReturn | internal/controller/agent_controller.go:204-207 | there is such a run from the start |
| LifecycleTheorems.StaleReadBreaksFingerprint | internal/controller/agent_controller.go:54-60 | with a stale Agent read a later Agent of the name can adopt a Pod of another image and take it for its own |
| Lifecycle.VersionsStep | internal/controller/agent_controller.go:67-79 | every step keeps versions unique, generations increasing and snapshots among the versions once stored |
| Lifecycle.CurrentSnapshot | internal/controller/agent_controller.go:192-200 | an Update that passes the version check meets exactly the object that was read |
| Lifecycle.PodsStep | internal/controller/agent_controller.go:81-134 | every step keeps each Pod equal to what its origin's spec builds and at most one live, and the worker's findings about Pods true |
| Lifecycle.TasksStep | internal/controller/agent_controller.go:171-241 | every step keeps tasks and heirs faithful to the object stored at finalizer removal |
| Lifecycle.OwnedStepIff | internal/controller/agent_controller.go:104-120 | with reads however stale, a step keeps live Pods owned iff it does not create one for an Agent that is gone |
| Lifecycle.GuardsStep | internal/controller/agent_controller.go:67-79 | every step keeps an Agent that once had the finalizer stored with it, until it goes |
| Lifecycle.OwnersStep | internal/controller/agent_controller.go:157-200 | while it reads versions of the stored Agent, however old, the worker holds on to that Agent |
| Lifecycle.HeirloomOfResurrection | internal/controller/agent_controller.go:225-231 | the resurrected annotations are the original ones except for resurrected-at, which is the time, and resurrection-uid, which is the original's uid |
| AgentTypes.BuiltPodRuns | internal/controller/agent_controller.go:322-377 | a built Pod has each field of its spec in its place, the defaults IfNotPresent and Always, and the user's tags over the owner, manager, app and generation |
| AgentTypes.PodShowsTheWorkload | internal/controller/agent_controller.go:340-376 | two specs build the same Pod spec iff they agree on every field that concerns the Pod, up to the two defaults |
| AgentTypes.PodShowsTheTags | internal/controller/agent_controller.go:324-338 | user labels and annotations win, the program's fill the other keys |
| AgentTypes.NeedlessReplacementIff | internal/controller/agent_controller.go:379-386 | after any edit the replacement is the old Pod with a new generation annotation iff both specs ask for the same workload, labels and annotations |
| AgentTypes.SamePodIff | internal/controller/agent_controller.go:322-377 | two specs build the same Pod at one generation iff they ask for the same |
| AgentTypes.SelectsBuiltPodIff | internal/controller/agent_controller.go:294-303 | the selector finds a built Pod iff user labels keep the two selector keys |
| AgentTypes.SpecChangedIff | internal/controller/agent_controller.go:381-386 | a Pod built at one generation reads as changed at another iff they differ |
| AgentTypes.OverriddenGenerationIff | internal/controller/agent_controller.go:333-338 | with the generation key overridden a fresh Pod reads as changed unless the override is the generation, so at one of two consecutive generations it does |
| Controller.RecognizableIff | internal/controller/agent_controller.go:324-338 | a Pod built now is found and reads as up to date iff user labels keep the selector and a user annotation is the generation |
| Controller.SettlesIff | internal/controller/agent_controller.go:81-134 | an unpaused Agent settles, within four calls and for good, iff its Pods are recognizable; otherwise every call for ever changes something |
| Controller.UnfoundPodsPileUp | internal/controller/agent_controller.go:103-120 | with the selector labels overridden each call adds one more Pod that none will find |
| Decimal.Injective | internal/controller/agent_controller.go:384 | printing a generation in decimal loses nothing |
| Controller.Reconciler.FindAgentPod | internal/controller/agent_controller.go:304-310 | finds the first Pod with the owner labels that is not terminating, or none |
| Controller.Reconciler.UpdateStatus | internal/controller/agent_controller.go:389-398 | writes phase, Pod, message and observed generation and leaves the rest |
| Controller.Reconciler.ReconcileService | internal/controller/agent_controller.go:457-541 | leaves the Services and the reported Service name that the specification gives |
| Controller.Reconciler.Reconcile | internal/controller/agent_controller.go:62-151 | one call takes the world to the specified next world |
| Controller.Reconciler.HandleDeletion | internal/controller/agent_controller.go:157-210 | deletes the Pod it finds, removes the finalizer, and hands uid, spec, labels and annotations to a resurrection iff healing is on |
| Controller.LettingGoLeavesNoneIff | internal/controller/agent_controller.go:160-169 | deletion leaves no own Pod iff there was one at most |
| Controller.ServiceNameStart | internal/controller/agent_controller.go:543-550 | a Service name does not start with a digit |
| Controller.ServiceNamesCollideIff | internal/controller/agent_controller.go:543-550 | two agents share a Service name iff they are equal or one is the other's "agt-" form |
| Controller.ServiceMatchesSpec | internal/controller/agent_controller.go:463-532 | afterwards the Service exists iff a port is asked for, with that port and protocol; others are untouched; a second call changes nothing |
| Controller.ServiceSays | internal/controller/agent_controller.go:476-532 | port, protocol with TCP as default, and target port; a new Service selects exactly the Pods that the controller finds; an existing one keeps its selector |
| Controller.ServiceGoes | internal/controller/agent_controller.go:463-474 | without a port the Service goes, and its name from the status |
| Controller.ServiceCallsCommute | internal/controller/agent_controller.go:457-541 | calls for agents with different Service names commute |
| Controller.CallKeepsWellformed | internal/controller/agent_controller.go:50-151 | a call keeps at most one own Pod, faithful to its generation, and the spec |
| Controller.CallGetsCloser | internal/controller/agent_controller.go:50-151 | each call lowers the distance to a settled world, or leaves a settled world exactly as it is |
| Controller.FourCallsConverge | internal/controller/agent_controller.go:50-151 | four calls settle any well-formed world: paused with no own Pod, or one Pod of the current spec with Service and status matching |
| Controller.FourCallsReport | internal/controller/agent_controller.go:103-150 | after four calls an unpaused Agent has one own Pod, which runs the spec; its phase is reported as Running, Failed, Stopped or Pending, with its name; and the Service has the port and protocol |
| Controller.FourCallsPause | internal/controller/agent_controller.go:87-101 | after four calls a paused Agent has no Pod and is reported as stopped |
| Controller.ReplacementReport | internal/controller/agent_controller.go:122-134 | a call that replaces a Pod reports Updating under its name, and deletes it and no other |
| Controller.ThreeCallsMayNotConverge | internal/controller/agent_controller.go:67-134 | three calls are not always enough |
| Controller.SleepTotal | internal/controller/agent_controller.go:245-247 | the sleeps before attempt k add up to 150 k (k + 1) ms |
| Controller.SleepBound | internal/controller/agent_controller.go:245-247 | the loop sleeps 36 s at most |
| Controller.Resurrect | internal/controller/agent_controller.go:245-282 | ends within 15 attempts at the first that creates the Agent or finds one of another uid, as created or skipped, else given up |
| Controller.BackByTheFirstSuccess | internal/controller/agent_controller.go:252-281 | if attempt k would succeed and none before finds another Agent, the Agent is back by attempt k |
| Controller.SettlesOneWay | internal/controller/agent_controller.go:245-282 | for given answers of the API server the loop has exactly one outcome and number of attempts |
| MergePatch.DiffThenApply | internal/rest/handlers.go:575-585 | the patch from a read object to its edit, applied to the read object, gives the edit |
| MergePatch.DisjointPatchesCommute | internal/rest/handlers.go:575-585 | patches of disjoint members commute on every stored object |
| MergePatch.ApplyIdempotent | internal/rest/handlers.go:582 | a patch that is sent twice has the effect of one |
| MergePatch.AllPatchesHold | internal/rest/handlers.go:779-785 | after any number of disjoint patches every one is in force |
| MergePatch.OrderDoesNotMatter | internal/rest/handlers.go:952-959 | any of a set of disjoint patches may be moved to the front |
| MergePatch.UntouchedPathIsKept | internal/rest/handlers.go:575-585 | a path that the patch does not mention keeps what is stored |
| MergePatch.HandlerKeepsOtherFields | internal/rest/handlers.go:575-585 | whatever was written between read and patch, a field the handler does not assign keeps the stored value |
| MergePatch.HandlersKeepEachOthersFields | internal/idle/watcher.go:131-143 | the same for the named fields that handlers, watcher and reconciler assign |
| MergePatch.AssignmentInForceIff | internal/rest/handlers.go:575-585 | the handler's own assignment is in force afterwards iff it differed from what was read or is what is stored |
| MergePatch.PatchedAt | internal/rest/handlers.go:575-585 | what a patch does at one field of whatever is stored: the edited value when it differs from what was read, else the stored one |
| Handlers.FailedConditionIsNotStored | internal/controller/agent_controller.go:109-110 | the status patch, with all five fields of updateStatus, never carries the condition; copied before, it would |
| Handlers.MakeEdits | internal/rest/handlers.go:560-625 | the assignments of a request change exactly the fields it wants, and no other path, on any Agent that was read |
| Handlers.EditSpec | internal/rest/handlers.go:407-440 | PUT changes exactly the present fields among those it knows, and no other path of the object |
| Handlers.PresentFieldAppliedIff | internal/rest/handlers.go:147-154 | a present field is applied iff PUT knows it or the value was there already |
| Handlers.ResourcesAreIgnored | internal/rest/handlers.go:407-440 | asking PUT for other resources changes nothing at all |
| Handlers.ResourcesRequest | internal/rest/handlers.go:147-164 | such a request and Agent exist |
| Handlers.ApiServer.HandleUpdate | internal/rest/handlers.go:386-446 | PUT, from any version ever stored, changes the present fields it knows of what is stored now and no other path, or nothing when anything was written since |
| Handlers.PutAgainstOthers | internal/rest/handlers.go:386-446 | against any patches between its read and its write, PUT succeeds iff none of them changed anything |
| Handlers.ApiServer.Handle | internal/rest/handlers.go:575-585 | a get-then-patch request writes the fields it wants and leaves the others as they are stored by then |
| Handlers.FieldsAreRegisters | internal/rest/handlers.go:533-545 | any sequence of such requests, started from objects however old, acts on each field like an independent register |
| Handlers.NoLostUpdate | internal/rest/handlers.go:779-785 | what a request wrote stays until a later request writes the same field |
| Handlers.OrderOfArrival | internal/rest/handlers.go:575-585 | requests that write different fields can arrive in either order |
| Handlers.PausedInForceIff | internal/rest/handlers.go:560-625 | after any requests spec.paused is true iff the last that wrote it is a stop or the watcher's, absent iff it is a start or a wake, and untouched when none wrote it |
| Handlers.HealingInForceIff | internal/rest/handlers.go:779-785 | the same of spec.selfHealingDisabled and the two healing requests |
| Handlers.NoteInForce | internal/rest/handlers.go:575-580 | restart-at, started-at, stopped-at, stop-reason and wake-reason are what the last request that wrote them says |
| Handlers.StatusReported | internal/controller/agent_controller.go:389-398 | each of the five status fields becomes what was reported, unless it was read so |
| Handlers.PutWrites11 | internal/rest/handlers.go:407-440 | the eleven spec fields, by name, become what is present in the PUT request, and resources stay |
| Handlers.VariableInForceIff | internal/rest/handlers.go:952-959 | a variable is in force iff the last request that wrote the list mentions it so, or leaves it alone and had read it so |
| Handlers.MergeLosesVariable | internal/rest/handlers.go:952-959 | of two merges that read the same list the second to arrive drops the first one's variable |
| EnvJson.DecodeEncode | internal/rest/handlers.go:1020-1036 | an environment list comes back from its JSON as it was written |
| EnvJson.VarParts | internal/rest/handlers.go:1020-1036 | the names under which the parts of a variable stand |
| Env.MergeEnvVars | internal/rest/handlers.go:1020-1036 | the indexed loop computes the fold of single upserts, with duplicates allowed on both sides |
| Env.DeleteEnvKey | internal/rest/handlers.go:1000-1006 | the loop keeps exactly the variables of other names, in order |
| Env.WithoutAppend | internal/rest/handlers.go:1000-1006 | one variable more is kept, at the end, iff it has another name |
| Env.MergeLookup | internal/rest/handlers.go:1019-1036 | looking a name up after a merge gives the new value when mentioned and the old one otherwise |
| Env.MergeKeepsOrder | internal/rest/handlers.go:1022-1033 | existing names stay where they are, new ones follow, each once |
| Env.MergeEntry | internal/rest/handlers.go:1027-1034 | which value stands at each position after a merge |
| Env.MergeAssociative | internal/rest/handlers.go:1020-1036 | merging is associative, as sequences |
| Env.MergeIdempotent | internal/rest/handlers.go:1020-1036 | merging the same variables twice is merging them once |
| Env.DeleteDistributes | internal/rest/handlers.go:1000-1006 | deleting a name commutes with merging |
| Env.MergeThenDelete | internal/rest/handlers.go:1000-1006 | merging one variable and deleting its name is deleting it from the original |
| TtlMap.StandsReadsAlike | internal/cache/cache.go:30-36 | a store that dropped only expired entries answers every read like the full map, now and later |
| TtlMap.ReadOfSet | internal/cache/cache.go:83-96 | what was set is read, with its times, until its time to live has passed, and for ever without one; other fields are as before |
| TtlMap.ReadsWhatIsLive | internal/cache/cache.go:30-36 | reading and listing find exactly the entries whose time has not passed |
| CacheConcurrency.Linearizable | internal/cache/cache.go:62-204 | every run, with overlapping readers and looks at the clock outside locks, has per agent one order of the completed operations that is legal on the plain TTL map and respects real time |
| CacheConcurrency.GetSeesLastWrite | internal/cache/cache.go:99-132 | in a legal order a Get returns the entry and value of the last Set of its field until it expires, and nothing after a Delete or a Clear |
| CacheConcurrency.ListSeesLastWrites | internal/cache/cache.go:149-166 | a List returns what was set last and is live when its loop ends, and nothing that was not live when it began |
| CacheConcurrency.StepKeepsInv | internal/cache/cache.go:62-204 | every critical section, including the double-checked creation and the GC sweep, keeps each inner map standing for the replay of its epoch |
| CacheConcurrency.WorkTakes | internal/cache/cache.go:92-204 | an operation on an inner map, attached or orphaned, is legal as the last event of the epoch of that map |
| CacheConcurrency.ClearKeepsHistory | internal/cache/cache.go:169-174 | a ClearAgent closes the epoch, so that operations caught on the detached map come just before it |
| CacheConcurrency.LinearizationLegal | internal/cache/cache.go:62-174 | epochs one after the other, each closed by its ClearAgent, are legal on the plain map |
| CacheConcurrency.LinearizationRealTime | internal/cache/cache.go:62-174 | that order never puts an operation before one that had returned when it was invoked |
| InMemoryCache.Cache.GetOrCreate | internal/cache/cache.go:62-79 | returns the inner map of the agent and creates an empty one only when there was none |
| InMemoryCache.Cache.Set | internal/cache/cache.go:83-96 | the plain map of the agent gains the entry with its expiry, others stay |
| InMemoryCache.Cache.GetEntry | internal/cache/cache.go:117-132 | returns what the plain TTL map holds alive |
| InMemoryCache.Cache.Delete | internal/cache/cache.go:135-146 | removes the field from the plain map of this agent alone |
| InMemoryCache.Cache.List | internal/cache/cache.go:149-166 | returns exactly the live fields |
| InMemoryCache.Cache.ClearAgent | internal/cache/cache.go:169-174 | empties the plain map of this agent alone |
| InMemoryCache.Cache.GcPass | internal/cache/cache.go:177-203 | drops exactly the expired entries and changes no plain map |
| Keys.AgentKeyInjective | internal/cache/cache.go:58-60 | agents do not share a key |
| Keys.FieldKeyInjective | internal/cache/redis_cache.go:36-38 | a field key determines namespace, name and field, for any field string |
| Keys.IndexAndHistoryKeysInjective | internal/history/history.go:49-51 | index and history keys determine the agent |
| Keys.FamiliesDisjoint | internal/cache/redis_cache.go:36-42 | field, index and history keys never meet |
| Keys.AgentsMeetIff | internal/cache/redis_cache.go:36-38 | two agents can meet in some field key iff they share the namespace and one name is the other or continues it after a colon |
| RedisCache.RedisCache.Set | internal/cache/redis_cache.go:45-75 | for any names: the plain map gains the entry under its key; the server has the entry and the index with its new deadline |
| RedisCache.RedisCache.GetEntry | internal/cache/redis_cache.go:87-100 | for any names: finds exactly what is live in the plain TTL map under the key, with its times and its value, an integer as a float64 |
| RedisCache.RedisCache.Delete | internal/cache/redis_cache.go:103-109 | for any names: removes the key from the plain map, and the field from the index |
| RedisCache.RedisCache.List | internal/cache/redis_cache.go:112-128 | for any names: returns the indexed fields that are alive, with times and values, and prunes the others, leaving the plain map alone |
| RedisCache.RedisCache.ClearAgent | internal/cache/redis_cache.go:131-144 | for any names: removes from the plain map exactly the keys of the fields that the index names |
| RedisCache.ClearServes | internal/cache/redis_cache.go:131-144 | fields the index does not name survive ClearAgent |
| RedisCache.OthersUntouched | internal/cache/redis_cache.go:36-144 | no operation on one agent changes anything under the keys of another that it cannot meet |
| RedisIndex.ListOnlyWhatGetEntryFinds | internal/cache/redis_cache.go:119-126 | List returns a field iff it is indexed and GetEntry finds it, with the same entry |
| RedisIndex.CoversIff | internal/cache/redis_cache.go:40-42 | each live entry being indexed, by an index that lasts as long, is exactly what makes List complete from now on |
| RedisIndex.SetKeepsCoverIff | internal/cache/redis_cache.go:64-74 | Set keeps List complete iff it has a ttl and every other entry ends within twice that ttl |
| RedisIndex.DeleteKeepsCover | internal/cache/redis_cache.go:103-109 | Delete keeps List complete |
| RedisIndex.ListKeepsCover | internal/cache/redis_cache.go:112-128 | List keeps List complete |
| RedisIndex.PruneKeepsCoverIff | internal/cache/redis_cache.go:122-125 | the prune of an interleaved List keeps the index complete iff the field is not live at that moment |
| RedisIndex.SetBeforePruneIsHidden | internal/cache/redis_cache.go:119-126 | a Set between a List's miss and its prune is in the store but invisible to List and ClearAgent |
| RedisIndex.ClearEmptiesIff | internal/cache/redis_cache.go:131-144 | ClearAgent leaves no live field iff every live field was indexed |
| RedisIndex.IndexAgreesInBand | internal/cache/redis_cache.go:45-144 | over any run on agents that cannot meet it, if an agent's ttls lie in [m, 2m], reading, listing and clearing it agree with the plain TTL map |
| RedisIndex.ValueComesBack | internal/cache/redis_cache.go:45-100 | over any run, a value that was set and not overwritten, deleted or cleared since comes back, with its times, iff its time to live has not passed; List agrees |
| RedisIndex.IndexAfter | internal/cache/redis_cache.go:64-144 | Set adds its field to the index, Delete takes it out, List takes out what is not live, ClearAgent leaves none |
| RedisIndex.IndexLasts | internal/cache/redis_cache.go:67-73 | a Set keeps the index for twice its ttl, or for a day |
| RedisIndex.BandIsTight | internal/cache/redis_cache.go:67-73 | with any larger spread two writes hide a live entry from List and ClearAgent |
| RedisIndex.NoExpiryOutlivesIndex | internal/cache/redis_cache.go:71-73 | an entry without ttl is out of the index a day after the last write, and survives ClearAgent |
| Float64.Float64Iff | internal/idle/watcher.go:63-67 | the numbers a float64 holds are the multiples of their own unit |
| Float64.RoundIsFloat64 | internal/idle/watcher.go:103-111 | the rounded number is a float64 |
| Float64.RoundNearest | internal/idle/watcher.go:103-111 | no float64 is nearer |
| Float64.RoundTies | internal/idle/watcher.go:103-111 | of two that are equally near, the even one |
| Float64.JsonNearest | internal/cache/redis_cache.go:97-99 | an integer of either sign comes back as the nearest float64, below 2^53 as itself |
| Float64.JsonKeepsOthers | internal/cache/redis_cache.go:97-99 | other values come back as they are |
| Float64.RoundMonotone | internal/idle/watcher.go:103-111 | rounding keeps the order of time stamps, across magnitudes |
| Float64.TimestampError | internal/idle/watcher.go:63-67 | a time stamp in [2^60, 2^61) ns comes back within 128 ns, and exactly iff it is a multiple of 256 |
| Float64.TimestampErrorIsTight | internal/idle/watcher.go:63-67 | 128 ns are really lost for some time stamps |
| History.LogIsSinceLastClear | internal/history/history.go:20-28 | the log of an agent is what was appended to it since its last Clear |
| History.TrimEveryTime | internal/history/history.go:66-70 | trimming after each append is trimming the whole log once |
| History.GoAppend | internal/history/history.go:130 | append shows the old window and the event, in place or in a new buffer |
| History.InMemoryHistory.constructor | internal/history/history.go:105-113 | starts empty, with 1000 entries when the limit is not positive |
| History.InMemoryHistory.Append | internal/history/history.go:120-134 | the log gains the event and the store still lists the newest entries of every agent |
| History.InMemoryHistory.List | internal/history/history.go:137-148 | a fresh copy of the last min(n, max) events since the last Clear, in order, one by one |
| History.InMemoryHistory.Clear | internal/history/history.go:151-156 | empties this agent's log alone |
| History.ListedStays | internal/history/history.go:143-148 | a list already returned keeps its contents through later appends to any agent |
| History.LTrimKeepsLast | internal/history/history.go:69-70 | LTRIM with a negative start keeps the newest entries, LRANGE 0 -1 is everything |
| History.StoredKeeps | internal/history/history.go:55-63 | the stored event has kind, reason and message, and the second in which it happened |
| History.RedisHistory.Append | internal/history/history.go:54-72 | as the in-memory Append, with stored times |
| History.RedisHistory.List | internal/history/history.go:74-88 | the last min(n, max) events since the last Clear, with times in whole seconds |
| History.RedisHistory.Clear | internal/history/history.go:90-92 | empties this agent's log alone |
| History.StoresAgree | internal/history/history.go:20-28 | driven by the same operations, both stores list the same events once times are written with whole seconds |
| Idle.Watcher.PauseAgent | internal/idle/watcher.go:131-143 | the patch from the listed Agent sets paused and the two annotations of what is stored by then, and nothing else |
| Idle.PausedItemIsThePatch | internal/idle/watcher.go:131-143 | that is what the JSON merge patch of the pausing request does to the stored object |
| Idle.Watcher.Check | internal/idle/watcher.go:70-127 | a pass over a list that may be old treats each agent by itself: skipped, seeded, kept or paused, on the record the pass began with |
| Idle.PassPausesIff | internal/idle/watcher.go:84-125 | a pass pauses an agent iff it was listed unpaused and its time stamp is as old as its timeout, idleTimeout seconds or else the global one if that is not 0; other annotations stay |
| Idle.PassPausesInMemoryIff | internal/idle/watcher.go:84-125 | in memory that is the very time of the touch |
| Idle.PauseMarks | internal/idle/watcher.go:137-139 | the stop reason and time that a pause writes |
| Idle.PassSeedsIff | internal/idle/watcher.go:93-115 | a pass seeds exactly the watched agents without a number on record |
| Idle.ReadBackError | internal/idle/watcher.go:103-115 | the record that comes back is off by at most 128 ns on Redis and exact in memory |
| Idle.VerdictAgrees | internal/idle/watcher.go:113-117 | rounding changes the verdict only when the idle time is within 128 ns of the timeout |
| Idle.VerdictDiffersIff | internal/idle/watcher.go:113-117 | exactly when rounding changes the verdict |
| Idle.ReadBackMonotone | internal/idle/watcher.go:103-111 | a later touch never reads back as an earlier time |
| Idle.AgentInUseIsNeverPaused | internal/idle/watcher.go:65-127 | however touches, clears and passes interleave, an agent touched less than its timeout, in seconds or the global one, before every pass is never paused |
| Idle.NewAgentInUseIsNeverPaused | internal/rest/server.go:178-192 | the same from creation on, when there is no record yet |
| Idle.BoundIsExact | internal/idle/watcher.go:117-119 | an idle time equal to the timeout pauses; a touch between the time of the pass and its look still saves the agent |
| Idle.PausedIff | internal/idle/watcher.go:39-59 | after n untouched ticks the agent is paused iff the last came a timeout or more after the record |
| Idle.PausedInTime | internal/idle/watcher.go:39-127 | with T its idleTimeout in seconds or else the global one, an untouched agent is paused by a tick in [v + T, v + T + I), and by none before |
| Idle.PausedInTimeAfterCreation | internal/idle/watcher.go:90-95 | without a record the agent is paused less than T + 2I after creation |

## Left out

- HTTP routing, request binding, CORS, logging, the web UI, log streaming, Helm charts and kubeconfig loading: no state property.
- Kubernetes events and message texts: no decision reads them back. The history records of the controller are not tied to the lifecycle model.
- Stale Pod lists and several reconcile workers: duplicate Pods are possible then, so both are assumed away.
- Foreign finalizers: with one, deletion would start a task at every Reconcile.
- Creation answers of a resurrection task that are lost in transit: the retry would find its own Agent and stop.
- Redis connection errors and JSON decoding errors: best effort in the source, which treats them as missing data.
- Interleaving of the single commands of Redis operations, beyond the prune race: the pipeline of one operation is taken as one step.
- Overflow of durations and of time stamps: ranges are those of the REST API and of the years 2006 to 2043.
- The polling loop of `wakeAgent`: its answer may rest on a stale phase, so it promises little.
- The default check interval of 30 s: the bounds hold for every positive interval; ticks that fall out because a pass takes long are not modelled.
- The `lastUpdated` time in the status and transition times of conditions: no decision reads them.
- Controller.Reconciler.Reconcile: one fault-free call; what happens when single API calls fail is covered by the interleavings of `Lifecycle`, which abstract from status and Service.
- Idle.Watcher.Check: sequential; other requests between its reads and writes are covered by the interleavings after `Idle.Possible`, for one agent at a time.
- RedisCache.RedisCache.ClearAgent: promises to remove only what the index names; `RedisIndex.ClearEmptiesIff` says when that is everything.
