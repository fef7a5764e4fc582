# Verified models of Opni's plugin sync, health, hooks, tasks, bootstrap and benchmark cores

A Dafny project that models six components of Opni whose correctness depends on whole runs or on unbounded
inputs, and proves what they promise. `dafny verify dfyconfig.toml` checks everything.

* **Plugin sync** (`pkg/patch`, `pkg/agent/v2`). `Manifest` is the join of two manifests, `PatchClient` the agent's
  file operations, `Convergence` their effect in any order, `Necessity` why the compatibility condition is exact,
  `PatchSteps`, `PatchRuns` and `Schedules` every interleaving of the concurrent operations' system calls, `Retry` what a new
  attempt finds, `SyncAttempts` any number of attempts, `PatchKeys`, `CachePaths`, `CacheFiles`, `PatchCache` and
  `SingleFlight` the gateway's cache, `SyncServer` the server and `AgentSync` the agent's loop around everything. `PluginWorld` holds the foreign
  functions.
* **Health** (`pkg/health`). `HealthListener` and `HealthMonitor` are state machines over the atomic steps of
  connections, `Close`, the `Run` loop and watchers; `HealthUpdates` follows each health to where it came from.
* **Plugin hooks** (`pkg/plugins/loader.go`). `PluginHooks` interleaves `Hook`, `LoadOne` and `Complete` under their
  locks; an append to a hook list is a read and a write, because late hooks append under a read lock only.
* **Tasks** (`pkg/task`). `TaskStatus` is the stored status and the restart table, `TaskRuns` one task id over
  launches, handler returns, crashes and resumes, `TaskStores` whole stores under one controller after another.
* **Bootstrap** (`pkg/bootstrap`, `pkg/ecdh`, `pkg/tokens`, `pkg/b2mac`, `pkg/pkp`). `KeyAgreement`, `BootstrapAuth`,
  `Tokens` (with Join), `MacHeader`, `PublicKeyPin`, over `Encodings` and `Text`.
* **Benchmark batching** (`internal/bench`). `Series` and `Workload` say what a tick generates, `WriteBatches` holds the
  flat and the batched generator, `BenchBuffers` the buffers they share with the write workers.

Foreign code (binary patches, compression, digests, X25519, signatures, JSON) is a field of a datatype (`World`,
`Crypto`, `Signer`) with only the laws its predicate `Lawful` or `Commutes` states; nothing is assumed globally.
`SyncExamples` and `SignerExample` show that the laws can be met. Bytes are characters in the sync, health and task
models, and integers below 256 where text is encoded and decoded. Clocks, random numbers, answers of agents, failing
system calls and failing storage are parameters or steps.

Where the code and its documentation disagree, the code is modelled: `pkg/task/types.go:56-57` says that a failing
Pending handler makes the task Failed, but there is no such edge (`pkg/task/controller.go:228-230`):
`PendingErrorHappens` reaches such a task and `PendingErrorStrands` proves that it stays Pending.

Some properties one might expect do not hold of the code, and are replaced by exact conditions:

* Sync does not always converge. `ChangedAndRenamed` gives inputs; `ConvergesIffCompatible` proves that it converges in
  every order exactly if the two directories are `Compatible`.
* The gateway's cache may hand out a patch that does not work: patches are written in place and returned unseen when
  found. `TornHappens` reaches such an answer; `FoundRightUnlessTorn` proves that a found patch is right if and only
  if its last write was not broken off early or it was cleaned since, `TornStays` that nothing but cleaning helps, and
  `ServedDischarges` that a damaged patch never harms the agent's directory.
* The gateway's cache takes any text an agent sends as an old digest for a file name, and cleans what does not match
  it. A text with path elements may lead to another plugin: `LossHappens` gives, for every undamaged plugin, a text
  with which asking for a patch removes it. `LosesOnlyOwnIff` proves that looking up a name loses nothing but the plugin
  it names and the patches touching it if and only if the name is plain (one path segment) or leads to no readable
  file; the server's promises hold when every digest an agent sends is plain, as `AgentSync` proves its own are.
* A patch may outlive a plugin it leads from or to. `DanglingHappens` reaches such a state; `DanglingIffRaced` proves
  that it comes about exactly if that plugin was cleaned between the generation of the patch and its writing.
* An agent that died while creating a plugin may find its own torn file in the way. `TornFileClashes` gives such a run;
  `CompatibleIffBenign` proves that the next attempt is safe if and only if discovery does not take such a file for
  another module.
* A load hook may never be invoked for a plugin. `GapHappens` reaches such a state; `LoadHookExactlyOnceUnlessInGap`
  proves it happens exactly if the hook joined between a load's look at the hooks and the plugin becoming active.
* A task may stay Running with nothing running it, and a client may be left with a cluster and no keyring.
  `UnreadLaunchHappens` and `LeftOverHappens` reach these; `UnreadLaunchStrands`, `StrandedForGood` and `StrandedIff`
  say when, and that it stays so.
* A benchmark may hang when its context ends. `BlockedHappens` reaches a worker that cannot hand its buffer back;
  `BlockedIff` says exactly when that is, and `WaitNeverEnds` and `WaitGoesOn` that the generator's last wait ends if
  and only if it made no more buffers of its own than it holds.
* The MAC header, hex tokens and pins do not round-trip for all values; `HeaderRoundTrip`, `TokenRoundTrip` and
  `PinRoundTrip` say exactly for which.

## Model

| member | source | states |
|---|---|---|
| `Manifests.IndexPlugins` | pkg/patch/manifest.go:20-32 | the map filled in a loop holds, under each id, the entry a search from the end finds, and the set holds all digests |
| `Manifests.CompareAll` | pkg/patch/manifest.go:33-66 | the loop emits, per gateway entry, the Create, Update or Rename it needs against the entry the agent has under that id |
| `Manifests.RemoveRest` | pkg/patch/manifest.go:67-80 | the loop emits a Remove per agent entry whose id and digest the gateway does not have |
| `Manifests.LeftJoinOn` | pkg/patch/manifest.go:18-83 | the result is sorted and a permutation of the specified operations: one Create, Update or Rename per gateway entry that needs it, then Removes |
| `Manifests.JoinMembers` | pkg/patch/manifest.go:33-80 | for manifests with unique ids the operations are exactly the differences between the manifests, each once |
| `Manifests.EmittedDiffers` | pkg/patch/manifest.go:33-80 | for any two manifests, duplicates included, every operation emitted is such a difference |
| `Manifests.Sort` | pkg/apis/control/v1/extensions.go:61-71 | sorts by kind, then module, then file name, keeping every operation as often as it occurs |
| `Manifests.PatchLessMeans` | pkg/apis/control/v1/extensions.go:61-71 | what it compares, written out: the kind by the protocol's numbers, then the module, then the file name, as texts |
| `PatchClient.PluginDir.DoCreate` | pkg/patch/client.go:271-281 | writes the file in place; a failed write leaves the old file or a first part of the new bytes, and no other file is touched |
| `PatchClient.PluginDir.DoRename` | pkg/patch/client.go:258-269 | refuses an existing target and a missing source; otherwise moves the file, and nothing else changes |
| `PatchClient.PluginDir.DoUpdate` | pkg/patch/client.go:283-365 | replaces the file by the patched contents if old and new digests are right, otherwise reports why and changes nothing |
| `PatchClient.PluginDir.DoRemove` | pkg/patch/client.go:367-377 | removes the file; a missing file is no error |
| `Convergence.JoinListsPending` | pkg/patch/manifest.go:18-83 | joining the manifests of two directories lists exactly the operations pending between them |
| `Convergence.StepDischarges` | pkg/patch/client.go:226-250 | between compatible directories, applying one pending operation with correct data succeeds, keeps them compatible, and removes that operation and no other from what is pending |
| `Convergence.ServedDischarges` | pkg/patch/client.go:283-365 | whatever the data of an Update, it either fails and changes nothing or does exactly what was asked; with correct data no operation fails |
| `Convergence.NothingPending` | pkg/patch/manifest.go:33-80 | nothing is pending exactly if both directories hold the same (id, file name, digest) set |
| `Convergence.AllOrdersConverge` | pkg/patch/client.go:225-256 | all pending operations, in any order, succeed, make the agent's plugins exactly the gateway's, and leave a second join empty |
| `Necessity.ConvergesIffCompatible` | pkg/patch/client.go:225-377 | with unique ids on each side, every order of every correct reply converges if and only if a changed plugin keeps its file name, no gateway file name holds another module on the agent, and rename targets are free |
| `SyncExamples.ChangedAndRenamed` | pkg/patch/manifest.go:45-53 | a module whose contents and file name both change does not converge |
| `SyncExamples.TornFileClashes` | pkg/patch/client.go:271-281 | a run that meets all assumptions and leaves a torn file after which the directories are not compatible |
| `SyncExamples.ToyLawful` | pkg/patch/patcher.go:11-15 | the laws required of digests, patches and compression can be met |
| `PatchRuns.EveryRunConverges` | pkg/patch/client.go:225-256 | in every interleaving of the operations' system calls, once all have finished the agent has exactly the gateway's plugins and nothing is pending |
| `PatchRuns.ProgressNeverFails` | pkg/patch/client.go:225-377 | at every point of every interleaving, no successful system call of an operation with correct data leads to failure: no occupied target, missing file or wrong digest can come up |
| `PatchRuns.OnlyOsErrorsFail` | pkg/patch/client.go:225-377 | so an operation that has failed was sent a damaged patch, or at some step its own system call failed and could not have led there by succeeding |
| `PatchRuns.NeverHalfChanged` | pkg/patch/client.go:258-377 | at every point of every run, failures and death included, the files of an Update, Rename or Remove are as before it or as after it |
| `Retry.CompatibleIffBenign` | pkg/patch/client.go:271-281 | after any part of any run the directories are compatible if and only if no unfinished write left something discovery takes for another module |
| `Retry.ResyncFindsTheRest` | pkg/agent/v2/agent.go:322-349 | while they are, a new join lists exactly what remains of each unfinished operation |
| `Retry.RetryMeasure` | pkg/agent/v2/agent.go:322-349 | and is no longer than the number of operations that did not finish |
| `SyncAttempts.PendingFalls` | pkg/agent/v2/agent.go:322-349 | over any number of attempts, however far each got, what is pending and what has finished add up to no more than what was pending at the start |
| `SyncAttempts.StillCompatibleIff` | pkg/agent/v2/agent.go:322-349 | after each attempt the directories are compatible if and only if it left no unfinished write discovery takes for another module |
| `SyncAttempts.SyncedAtLast` | pkg/agent/v2/agent.go:322-349 | an attempt in which all operations finish leaves exactly the gateway's plugins and nothing pending |
| `SyncAttempts.AttemptsBounded` | pkg/agent/v2/agent.go:322-349 | if every attempt finishes something, there are no more attempts than operations at the start |
| `AgentSync.Act` | pkg/patch/client.go:226-250 | one successful system call of one operation is a step of the interleaving model, with the code it fails with |
| `AgentSync.Patch` | pkg/patch/client.go:225-256 | under any schedule of its operations' system calls and failures a Patch call is a run of the interleaving model; it returns no error exactly if all operations finished, and otherwise the error of a failing system call, unless an operation failed by itself; it ends if the schedule is long enough |
| `AgentSync.SyncPlugins` | pkg/agent/v2/agent.go:503-532 | from discovery over the gateway's reply to the patch operations, what happens is one attempt on the pending operations, and costs the gateway's cache no undamaged plugin; an unreachable gateway gives Unavailable; with a fair chance only failing system calls give an error, Internal for want of permission and Unavailable otherwise, and success means the gateway's plugins |
| `AgentSync.SyncLoop` | pkg/agent/v2/agent.go:322-349 | there is one result per attempt, the k-th at the k-th chance; all but the last are Unavailable; all chances are tried unless the last attempt ended otherwise; synced exactly if the last result is OK, given up exactly if it is Internal; the directory is what the history of attempts made of it, and synced means the gateway's plugins while the directories stay compatible; the gateway's cache has lost no undamaged plugin |
| `AgentSync.SyncedByNext` | pkg/agent/v2/agent.go:322-349 | if the attempts before ended Unavailable and the next chance is fair, long enough and without failing system calls, the loop ends synced by it, with the gateway's plugins |
| `AgentSync.SyncedOnceReachable` | pkg/agent/v2/agent.go:322-349 | an agent that cannot reach its gateway any number of times and then gets such a chance is synced |
| `Schedules.CompleteIsLong` | pkg/patch/client.go:225-377 | a schedule with enough system calls for the files of both directories lets every operation end |
| `PatchKeys.KeyInjective` | pkg/patch/filesystem.go:182-184 | different pairs of digests have different patch keys, even if the old digest is any text an agent sent |
| `PatchKeys.GlobsTouch` | pkg/patch/filesystem.go:225-232 | the two globs match exactly the patches leading to a digest and those starting at it |
| `CachePaths.ResolvesToItself` | pkg/patch/filesystem.go:262-264 | a name leads to the file of that name in a directory exactly if it is plain: not empty, not a dot or two, without a slash |
| `CacheFiles.SweepDigest` | pkg/patch/filesystem.go:218-238 | cleaning a digest removes, by its path and the two globs, exactly its plugin and the patches touching it, and no other file anywhere |
| `CacheFiles.FoundIntact` | pkg/patch/filesystem.go:186-212 | whatever the name is made of, looking it up succeeds exactly for an undamaged plugin of that name |
| `CacheFiles.LookedCareful` | pkg/patch/filesystem.go:186-212 | looking up a plain name loses no undamaged plugin and no end of a patch |
| `CacheFiles.LosesOnlyOwnIff` | pkg/patch/filesystem.go:186-239 | looking up a name loses nothing but the plugin it names and the patches touching it if and only if the name is plain or leads to no readable file |
| `CacheFiles.LossHappens` | pkg/patch/filesystem.go:132-212 | for every undamaged plugin there is a text such that a request for any patch from it is a miss, removes that plugin and leaves its patches |
| `CacheFiles.GeneratedTwice` | pkg/patch/filesystem.go:144-156 | generating again after a failure finds nothing left to clean |
| `CacheFiles.WithPatchSound` | pkg/patch/filesystem.go:159-164 | however a write of a correct patch ends, every patch file is correct or, if its writing was broken off, a first part of a correct one |
| `CacheFiles.WithPatchMeans` | pkg/patch/filesystem.go:159-164 | a write that is not begun changes nothing; any other leaves a first part of the patch under its key, all of it if it succeeds, and is recorded as torn exactly if something is missing |
| `CacheFiles.CachedCorrect` | pkg/patch/filesystem.go:132-171 | the patch file found for a pair of digests is right unless its writing was broken off |
| `PatchCache.FilesystemCache.Archive` | pkg/patch/filesystem.go:55-114 | keeps the cache invariant; writes exactly the plugins that are missing or damaged |
| `CacheFiles.PutAllStores` | pkg/patch/filesystem.go:55-114 | afterwards every archived plugin is present and undamaged, and no undamaged plugin was rewritten |
| `PatchCache.FilesystemCache.GeneratePatch` | pkg/patch/filesystem.go:116-130 | succeeds exactly if both plugins are undamaged, with a patch that turns the one digest's contents into the other's; otherwise the error of the first that is not, and the files that looking it up leaves; with plain names nothing undamaged is lost |
| `PatchCache.FilesystemCache.RequestPatch` | pkg/patch/filesystem.go:132-180 | for any text as old digest: a file at the path the key leads to is returned as it is, right for a plain name unless its writing was broken off; otherwise the patch is generated exactly if both plugins are undamaged and returned exactly if it could be written; with a plain name nothing undamaged is lost; one hit or one miss is counted |
| `PatchCache.FilesystemCache.MakePatch` | pkg/patch/filesystem.go:138-169 | the case of a miss: what is generated, written and left, and that the second attempt after a failure changes nothing |
| `PatchCache.FilesystemCache.WritePatch` | pkg/patch/filesystem.go:159-164 | the three ends of an in-place write, keeping the invariant and both ends of every patch |
| `PatchCache.FilesystemCache.GetPlugin` | pkg/patch/filesystem.go:186-212 | returns only contents that have the digest asked for, exactly if the plugin is undamaged; a name that leads nowhere, to no file, to a file that does not decompress or to other contents gives the error, and only the last is cleaned; with a plain name nothing undamaged is lost |
| `PatchCache.FilesystemCache.CleanOne` | pkg/patch/filesystem.go:218-239 | removes the file the name leads to and those the two globs match, whatever the name is made of |
| `PatchCache.FilesystemCache.Clean` | pkg/patch/filesystem.go:214-248 | of digests, removes exactly the plugins and the patches, whole or torn, from or to one of them, keeping the invariant and both ends of every patch |
| `PatchCache.FilesystemCache.ListDigests` | pkg/patch/filesystem.go:250-260 | every cached digest once |
| `SingleFlight.SharedCorrectly` | pkg/patch/filesystem.go:132-180 | in every interleaving of requests, cleanings, failed generations and failed writes, over any files an earlier run left, every answer is the patch of its key unless that file was read while torn, and between two generations of a key its file was cleaned or could not be opened |
| `SingleFlight.FoundRightUnlessTorn` | pkg/patch/filesystem.go:170-171 | a found file is answered with the right patch if and only if the key was cleaned since, or its last write was not broken off early and, without one, it was right at the start |
| `SingleFlight.TornStays` | pkg/patch/filesystem.go:138-171 | a torn file stays wrong until it is cleaned |
| `SingleFlight.TornHappens` | pkg/patch/filesystem.go:159-171 | a run in which a call returns a torn patch as a hit and without an error |
| `SingleFlight.DanglingIffRaced` | pkg/patch/filesystem.go:132-239 | in every run over files with both ends, a patch is without an end if and only if that end was cleaned between the generation of the patch and its writing, and neither was it archived nor the patch cleaned since |
| `SingleFlight.DanglingHappens` | pkg/patch/filesystem.go:132-239 | a run that leaves such a patch |
| `SingleFlight.CountersAddUp` | pkg/patch/filesystem.go:132-180 | when no call is in progress and none failed, hits plus misses are the completed calls and misses the patches generated |
| `SyncServer.GetFilesystemPlugins` | pkg/patch/manifest.go:85-155 | lists exactly the files whose name begins with plugin_ and that have build information, each with its module, contents and digest |
| `SyncServer.PluginSyncServer.GetPluginManifest` | pkg/patch/server.go:130-153 | loads and archives once; afterwards every plugin of the manifest is in the cache, undamaged |
| `SyncServer.PluginSyncServer.SendWhole` | pkg/patch/server.go:192-203 | a Create with contents that have the new digest, exactly if the cache holds them |
| `SyncServer.PluginSyncServer.SendPatch` | pkg/patch/server.go:182-209 | the same for an Update, in the source's order: the patch if the cache gives one, the whole plugin if one end is missing, otherwise an error |
| `SyncServer.PluginSyncServer.FillEntry` | pkg/patch/server.go:170-211 | every entry answered keeps what was asked; if its old digest is plain, it has correct data unless its patch is torn in the cache, an Update becomes a Create exactly if there is no patch and one of its plugins is not in the cache, and nothing undamaged is lost |
| `SyncServer.PluginSyncServer.FillAll` | pkg/patch/server.go:166-215 | in whatever order the entries are filled, all are answered so, and nothing fails if nothing needed is damaged, the old digests are usable names and all writes succeed |
| `SyncServer.PluginSyncServer.SyncPluginManifest` | pkg/patch/server.go:155-220 | refuses exactly the invalid manifests; otherwise answers every operation of the join; if every digest the agent sent is plain, with correct data unless a patch is torn, and without losing an undamaged plugin or an end of a patch; does not fail on an undamaged cache, the first time or later, if they are usable names |
| `SyncServer.PluginSyncServer.RunGarbageCollection` | pkg/patch/server.go:103-128 | a plugin cached before is gone afterwards exactly if it is in no entry of the gateway's manifest and is none of the versions any cluster was last known to have; the patches left are exactly those touching no plugin removed, torn ones among them, so both ends of every patch are there if they were before |
| `SyncServer.CollectDigests` | pkg/patch/server.go:108-114 | collects the digests of all manifest entries and of every cluster's last known versions, and no others |
| `SyncServer.Unwanted` | pkg/patch/server.go:119-124 | selects exactly the cached digests that are not to be kept |
| `HealthListener.NoSendAfterClose` | pkg/health/listener.go:112-246 | in every interleaving of Close with any number of connections no status or health is sent on a closed channel |
| `HealthListener.StatusesAlternate` | pkg/health/listener.go:101-163 | each agent's published statuses alternate, starting with connected, over all overlapping reconnects, and the last says whether it is connected |
| `HealthListener.EntryBelongsToLockHolder` | pkg/health/listener.go:127-163 | an agent's incoming-update entry belongs to the one handler holding the agent's mutex |
| `HealthListener.UpdatesGetNewer` | pkg/health/listener.go:165-226 | what one connection's loop publishes is about its agent and strictly newer each time |
| `HealthUpdates.PublishedFrom` | pkg/health/listener.go:151-226 | every health published was polled from the agent, sent in for that agent before, answered at the greeting, or is the farewell |
| `HealthUpdates.CurrentIsPublished` | pkg/health/listener.go:165-226 | what a connection's loop compares with is the last health it published, or else the greeting's |
| `HealthUpdates.NothingPassedOver` | pkg/health/listener.go:190-226 | no health that is newer and different is passed over |
| `HealthUpdates.PublishedDiffers` | pkg/health/listener.go:190-226 | what the loop publishes is newer than what it published before and says something else |
| `HealthUpdates.InProgramOrder` | pkg/health/listener.go:112-246 | in every run each connection goes through its places one after another, leaving early only before it has a permit, and Close closes the two channels in turn once it has every permit |
| `HealthMonitor.ChannelsUsedOpen` | pkg/health/monitor.go:53-206 | in every interleaving of Run, its exit and watcher clean-up no channel is closed twice and no update is sent on a closed one |
| `HealthMonitor.WatcherTracksMonitor` | pkg/health/monitor.go:72-189 | a listed watcher's values with its queued updates replayed are the monitor's current map, up to the update being delivered |
| `HealthMonitor.DrainedWatcherIsCurrent` | pkg/health/monitor.go:119-189 | once a live watcher has drained both queues, its last event for every id with a health record is what GetHealthStatus returns |
| `HealthMonitor.AnswersLastReceived` | pkg/health/monitor.go:72-125 | in every run GetHealthStatus answers with the health and the status last received for the id since Run last returned |
| `HealthMonitor.AnswersNothing` | pkg/health/monitor.go:53-125 | and with none if none was received |
| `HealthMonitor.DrainedWatcherHasLast` | pkg/health/monitor.go:119-189 | once a live watcher has drained both queues, its last event for an id carries the health last received and the status last received, or none |
| `HealthMonitor.LeavesForGood` | pkg/health/monitor.go:155-206 | a watcher that has left its loop takes and emits nothing more |
| `PluginHooks.LoadHookAtMostOnce` | pkg/plugins/loader.go:98-216 | in every run a load hook is invoked at most once per plugin, and only if it should be |
| `PluginHooks.LoadHookExactlyOnceUnlessInGap` | pkg/plugins/loader.go:98-216 | after Hook has returned and the plugin is active, exactly once, except exactly if the hook joined while the load was between invoking hooks and activating the plugin: then never |
| `PluginHooks.GapHappens` | pkg/plugins/loader.go:204-212 | a run in which a wanted hook is never invoked for an active plugin |
| `PluginHooks.CompletionHookOnceOrTwice` | pkg/plugins/loader.go:125-135 | a completion hook is invoked at most twice, only after completion, always with the number of all plugins, and at least once when Hook and Complete have returned |
| `PluginHooks.NextLists` | pkg/plugins/loader.go:98-116 | no step loses a hook added under the write lock or lists one twice, although appends under the read lock race |
| `TaskRuns.TransitionsAreLawful` | pkg/task/controller.go:218-291 | in every run with crashes and resumes the stored transitions start with Pending, each adjacent pair is an edge or a restart into Pending, and Failed only follows Running |
| `TaskRuns.CompletedOnTerminal` | pkg/task/controller.go:274-291 | OnTaskCompleted is called on entering a terminal state, which the store then holds as state and last transition |
| `TaskRuns.CompletedOncePerLaunch` | pkg/task/controller.go:274-291 | between two OnTaskCompleted calls there is a launch |
| `TaskRuns.CanceledAfterContextEnd` | pkg/task/controller.go:231-252 | a task becomes Canceled only if its context has ended since its last launch |
| `TaskRuns.ReturnDecides` | pkg/task/controller.go:222-256 | after a Running handler returns, the next state entered, stored, logged and handed to OnTaskCompleted is Completed if there was no error, Canceled after the context's error and Failed after any other |
| `TaskRuns.EnteredBecause` | pkg/task/controller.go:222-256 | conversely, each of these states and Running is entered only after the handler's return that leads to it |
| `TaskRuns.MetadataSurvives` | pkg/task/controller.go:58-97 | over any steps but a caller's launch the metadata is unchanged while the task is stored, and it is forgotten exactly by a clean-up |
| `TaskRuns.HistoryOnlyGrows` | pkg/task/controller.go:325-346 | along any run whose relaunches start from Running or Failed, logs and transitions only grow by extension |
| `TaskRuns.PendingErrorStrands` | pkg/task/controller.go:228-240 | a failing Pending handler leaves the task Pending, unchanged and without OnTaskCompleted, until it is launched again |
| `TaskRuns.PendingErrorHappens` | pkg/task/controller.go:228-240 | a run that ends so |
| `TaskRuns.UnreadLaunchStrands` | pkg/task/controller.go:295-302 | a launch whose first read fails, over a task that is not Pending, never runs it: its state stays and OnTaskCompleted is not called until it is launched again or cleaned up |
| `TaskRuns.UnreadLaunchHappens` | pkg/task/controller.go:295-302 | a run that leaves a task Running with nothing running it |
| `TaskStores.Projects` | pkg/task/controller.go:53-98 | over any number of restarts and operations on other tasks, what happens to one task of a store is a run of a single task |
| `TaskStores.StoreHistories` | pkg/task/controller.go:218-291 | so in every run of a store every task's transitions are lawful |
| `TaskStores.StoreMetadata` | pkg/task/controller.go:58-97 | a task's metadata survives any number of restarts and anything but a caller's launch of it |
| `TaskStores.StoreGrows` | pkg/task/controller.go:325-346 | logs and transitions only grow, over restarts too, unless the task is cleaned up or relaunched from a state other than Running and Failed |
| `TaskStores.RestartStored` | pkg/task/controller.go:58-97 | crash, relaunch and clean-up of one task leave what the resume loop stores for it, also if the controller dies before it reaches the task or between the two writes of its launch |
| `TaskStores.Controller.PutLaunch` | pkg/task/controller.go:295-346 | the first write of a launch, by the state the task was in: Running goes on with everything, Failed keeps its history with one entry for the restart, Canceled keeps its progress only, any other starts afresh; a failed write changes nothing; a first read that fails for another reason than absence is passed over |
| `TaskStores.Controller.StoreLaunch` | pkg/task/controller.go:295-358 | stores the status the restart table prescribes and logs Pending, or changes nothing |
| `TaskStores.Controller.LaunchTask` | pkg/task/controller.go:152-361 | what is stored stays the store of a run, which has gone on by a launch of that task |
| `TaskStores.Controller.ResumeOne` | pkg/task/controller.go:59-97 | after any number of failed rounds one saved task is relaunched with its metadata, cleaned away or left |
| `TaskStores.Controller.Resume` | pkg/task/controller.go:44-100 | what is stored stays the store of a run, which has gone on by a restart of the controller, also if it dies inside the loop |
| `TaskStores.Controller.SetState` | pkg/task/controller.go:192-209 | storing the destination of a transition is that step of the task's run |
| `TaskStores.Controller.LogTransition` | pkg/task/task.go:87-96 | logging it is that step of the task's run |
| `TaskStores.Controller.AddLogEntry` | pkg/task/task.go:60-85 | a log entry is a step of the task's run |
| `TaskStores.Controller.SetProgress` | pkg/task/task.go:43-52 | a progress report is a step of the task's run |
| `TaskStores.ControllerHistories` | pkg/task/controller.go:218-291 | whatever has been done with a controller and its successors, every stored history is lawful |
| `KeyAgreement.RolesMatter` | pkg/ecdh/ecdh.go:62-81 | the order of the keys is fixed by the roles: with equal roles on both sides they would agree exactly if their public keys were equal |
| `KeyAgreement.SecretIs` | pkg/ecdh/ecdh.go:62-81 | on either side the secret is the hash of the shared value, the client's key and the server's key, in this order |
| `KeyAgreement.SecretBinds` | pkg/ecdh/ecdh.go:51-81 | two exchanges have the same secret exactly if they have the same shared value, client key and server key |
| `BootstrapAuth.OneSuccessPerClient` | pkg/bootstrap/server_v2.go:69-171 | in every run of concurrent calls, storage errors included, at most one call per client id succeeds, and none for a cluster that existed |
| `BootstrapAuth.OnlyAdmitted` | pkg/bootstrap/server_v2.go:84-110 | in every run no call gets past the check without a known token and a valid request; the others end with PermissionDenied or InvalidArgument, unless the storage fails |
| `BootstrapAuth.SuccessNeedsToken` | pkg/bootstrap/server_v2.go:84-110 | a call that succeeded presented one of the server's tokens in a valid request |
| `BootstrapAuth.RefusedExisting` | pkg/bootstrap/server_v2.go:118-128 | a call refused because its cluster exists is right about that |
| `BootstrapAuth.ClusterIffSuccess` | pkg/bootstrap/server_v2.go:108-171 | without storage errors and with no call in progress, a client has a new cluster exactly if one of its calls succeeded |
| `BootstrapAuth.KeyringAgreed` | pkg/bootstrap/client_v2.go:73-103 | after a successful call the secret the client derives from the response is the one of the stored keyring |
| `BootstrapAuth.SuccessStays` | pkg/bootstrap/server_v2.go:108-171 | no later step changes that call, its response or that keyring |
| `BootstrapAuth.UsageAccountedFor` | pkg/bootstrap/server_v2.go:152-162 | at every point a token's usage has grown by the clusters created with it, less the calls that created one and have not incremented it |
| `BootstrapAuth.UsageExactWhenQuiet` | pkg/bootstrap/server_v2.go:152-162 | without storage errors and with no call in progress it has grown by exactly the clusters created with it |
| `BootstrapAuth.StrandedForGood` | pkg/bootstrap/server_v2.go:152-166 | if one of the two writes after a cluster's creation fails, no call of that client ever succeeds, before or after |
| `BootstrapAuth.StrandedIff` | pkg/bootstrap/server_v2.go:152-166 | with no call in progress, a client has a new cluster and no success exactly if one of its calls failed at one of those two writes |
| `BootstrapAuth.LeftOverHappens` | pkg/bootstrap/server_v2.go:152-166 | runs in which either write fails, for every valid request |
| `Tokens.TokenRoundTrip` | pkg/tokens/token.go:52-97 | a token parses from its hex text exactly if it has 6 bytes of id and 26 of secret; otherwise the text is refused |
| `Tokens.TokenCanonical` | pkg/tokens/token.go:78-97 | a text that parses is the token's text up to the case of letters |
| `Tokens.DetachedRoundTrip` | pkg/tokens/token.go:99-144 | a detached signature verifies for exactly the token it was made for, giving back the original compact form |
| `Tokens.StoredRoundTrip` | pkg/tokens/conversion.go:9-37 | a token survives being stored |
| `Tokens.Join` | pkg/bootstrap/server_v2.go:43-67 | the signatures of all tokens by id; an error exactly if some token cannot be decoded or signed; not accepting exactly without tokens |
| `Tokens.JoinThenFind` | pkg/bootstrap/client_v2.go:157-165 | a client finds a valid signature exactly if its token, secret included, is one of the server's, and the server reads that token from what the client then presents |
| `SignerExample.ToyLawful` | pkg/tokens/token.go:99-144 | the laws required of JSON and signatures can be met |
| `Encodings.HexRoundTrip` | pkg/tokens/token.go:52-97 | hexadecimal text decodes to what was encoded |
| `Encodings.HexCanonical` | pkg/tokens/token.go:78-97 | whatever decodes is the encoding of the result up to case |
| `Encodings.HexAt` | pkg/tokens/token.go:52-76 | each byte is its two digits, the high one first, in lower case |
| `Encodings.Base64RoundTrip` | pkg/b2mac/header.go:22-23 | unpadded base64url text decodes to what was encoded |
| `Encodings.Base64Canonical` | pkg/b2mac/header.go:53-76 | a text is the encoding of what it decodes to exactly if it is in the alphabet, of a possible length and has no stray bits |
| `Encodings.SymbolIs` | pkg/b2mac/header.go:22-23 | every six bits are the symbol at their place in the base64url alphabet |
| `Encodings.Base64Vectors` | pkg/b2mac/header.go:22-23 | known texts of section 10 of RFC 4648 |
| `MacHeader.UuidRoundTrip` | pkg/b2mac/header.go:24-24 | the text of a nonce parses to it |
| `MacHeader.UuidForms` | pkg/b2mac/header.go:58-64 | and so do its other accepted forms: as a URN, in braces, and 32 digits |
| `MacHeader.V4Text` | pkg/b2mac/header.go:19-21 | a nonce is a v4 UUID exactly if its text has 4 at the start of the third group and 8, 9, a or b at the start of the fourth |
| `MacHeader.ScanItems` | pkg/b2mac/header.go:36-73 | the loop collects the values by key, or fails at the first malformed item or repeated key |
| `MacHeader.ItemMeans` | pkg/b2mac/header.go:37-52 | an item parses exactly if it is a name, an equals sign and a quoted value without another; its key is what the trimmed name spells |
| `MacHeader.DecodeAuthHeader` | pkg/b2mac/header.go:29-84 | the method computes the specified result |
| `MacHeader.DecodesMeaning` | pkg/b2mac/header.go:29-84 | a header decodes to (id, nonce, mac) exactly if its items, in whatever order, are well-formed under different keys and give those values, id and mac not empty |
| `MacHeader.HeaderRoundTrip` | pkg/b2mac/header.go:18-84 | encoding succeeds exactly for v4 nonces, and the result decodes to what was encoded exactly if id and mac are not empty |
| `MacHeader.HeaderText` | pkg/b2mac/header.go:18-25 | the header written out |
| `Text.TrimSpaceMeans` | pkg/b2mac/header.go:33-46 | trimming takes all white space from both ends and nothing else |
| `Text.SplitJoins` | pkg/b2mac/header.go:34-38 | the pieces of a split text, joined again, are the text |
| `PublicKeyPin.PinRoundTrip` | pkg/pkp/pin.go:52-114 | a pin decodes from its text exactly if its algorithm is one of the two supported |
| `PublicKeyPin.PinCanonical` | pkg/pkp/pin.go:88-114 | a text that decodes is the text of its pin exactly if its fingerprint part is canonical |
| `Series.AddLabelToLabelSet` | internal/bench/workload.go:174-189 | every set with every value of the label, value by value |
| `Series.ExpandMembers` | internal/bench/workload.go:174-189 | exactly the sets made of a given set and a value of the label |
| `Series.ExpandNoDup` | internal/bench/workload.go:174-189 | different label sets stay different |
| `Series.SeriesSize` | internal/bench/workload.go:146-162 | a series has as many label sets as the product of its labels' numbers of values, all different |
| `Series.SeriesLabels` | internal/bench/workload.go:146-172 | its label sets are exactly those with the metric's name, the static labels and one value of each label, in that order |
| `Series.PaddedValue` | internal/bench/workload.go:196-196 | a replica's number is written in decimal, in five digits or as many as it takes |
| `Series.SeriesDescToSeries` | internal/bench/workload.go:136-172 | one series per description, and per type the total of their label sets |
| `Workload.FlatSize` | internal/bench/workload.go:191-231 | a tick succeeds exactly without series of unknown type or without replicas, and then yields replicas times label sets samples |
| `Workload.FlatLabels` | internal/bench/workload.go:196-228 | a tick's samples carry exactly the label sets of all series with the labels of each replica and the benchmark |
| `Workload.FlatSampleAt` | internal/bench/workload.go:191-231 | replica by replica, series by series and label set by label set, each sample has the tick's time, the set with the labels of the replica and the benchmark written out, and the value its series took in that replica |
| `Workload.EveryIndex` | internal/bench/workload.go:191-231 | every sample of a tick is one of these |
| `Workload.FlatValues` | internal/bench/workload.go:200-213 | a sample of a counter of step one says how often it was counted; one of a zero gauge is zero |
| `Workload.ReplicaDraws` | internal/bench/workload.go:200-213 | a random gauge takes, and a random counter adds, a number drawn in that replica |
| `Workload.FlatCounts` | internal/bench/workload.go:206-213 | a counter of step one has risen by one for each replica |
| `WriteBatches.WriteWorkload.constructor` | internal/bench/workload.go:96-134 | the series of the descriptions, and a batch size that is never zero |
| `WriteBatches.WriteWorkload.NextValue` | internal/bench/workload.go:200-213 | a series takes the value of its type, drawing a number only for the random types |
| `WriteBatches.WriteWorkload.GenerateTimeSeries` | internal/bench/workload.go:191-231 | the flat generator yields the specified samples and last values |
| `WriteBatches.WriteWorkload.BatchSeries` | internal/bench/workload.go:292-310 | sends a buffer only when full and another sample is to be put, losing and reordering nothing |
| `WriteBatches.WriteWorkload.GenerateTick` | internal/bench/workload.go:271-317 | one tick of the batched generator: the flat samples cut into batches, or at an unknown type an error with only full batches sent |
| `WriteBatches.WriteWorkload.GenerateWriteBatch` | internal/bench/workload.go:248-325 | over any number of ticks, each tick's batches are what the flat generator would return in turn, cut into batches; an error comes exactly at the first tick the flat generator fails at, with the full batches of that tick |
| `WriteBatches.UnderwayChops` | internal/bench/workload.go:292-317 | full batches and a last buffer, together the samples, are the samples cut into pieces of the batch size |
| `WriteBatches.BatchesAreTheFlatSeries` | internal/bench/workload.go:266-317 | the batches concatenate to the flat samples, all but the last have the batch size, none is empty, and the total is replicas times the sum of the products of the labels' numbers of values |
| `BenchBuffers.BuffersConserved` | internal/bench/write_runner.go:160-187 | in every run, the end of the context included, free buffers, queued and held batches and the generator's buffer add up to all buffers and those made after that end |
| `BenchBuffers.BlockedIff` | internal/bench/write_runner.go:171-182 | a worker cannot hand its buffer back if and only if as many buffers were made as are queued, held and in the generator's hands; never while the context is live |
| `BenchBuffers.WaitNeverEnds` | internal/bench/workload.go:312-318 | if more buffers were made than the generator holds when it begins to wait, it waits for ever |
| `BenchBuffers.WaitGoesOn` | internal/bench/workload.go:312-318 | if not, some worker can go on until the wait is over, with less work left after each step |
| `BenchBuffers.BlockedHappens` | internal/bench/workload.go:239-318 | for any number of buffers, a run in which a worker is blocked and the generator waits for it |
| `BenchBuffers.NeverFilledWhileRead` | internal/bench/workload.go:239-317 | a buffer a worker reads is with nobody else and holds exactly what was sent |

## Left out

- PatchCache.FilesystemCache.RequestPatch: each call is atomic there; concurrent requests are `SingleFlight`, where a cleaning of a digest is one step and plugin files are there or not, their contents not being modelled.
- PatchCache.FilesystemCache.CleanOne: of the globs only `*` is a wildcard, which matters for texts with `?`, `[` or a backslash only, never for digests. The cache directory is an absolute path without wildcards, and there are no links and no directories inside its two directories.
- SyncServer.PluginSyncServer.FillAll: fills the entries in any order, each in one go, where the source may interleave them.
- BootstrapAuth.OneSuccessPerClient: runs without deletion of clusters and with tokens that stay; a token deleted during a call appears as a storage error.
- TaskRuns.CompletedOncePerLaunch: one live instance per task id; a launch over a live instance, which is cancelled without being waited for, is not modelled.
- TaskRuns.TransitionsAreLawful: the end of the controller's context ends its instances; with a store that ignores its context they could go on and lose log entries (`pkg/task/task.go:111-113`), which is not modelled.
- MacHeader.DecodeAuthHeader: reports that there is an error, not which; only ASCII white space is trimmed.
- Writing plugins into the cache is not broken down: their contents are checked whenever they are read, and may be anything.
- Time stamps of log entries and transitions, status and state callbacks, and the pauses between retries.
- Binary diffing, compression, digests, curve, signature and JSON code: only the laws named above are used. The UUID library's accepted forms are modelled as of its version 1.3.0.
- File permissions, the search for a temporary directory and the moving of files between file systems.
- Liveness of listener and monitor: sends happen while holding locks, so only safety is stated.
- Claims across bootstrap versions 1 and 2, which keep separate lock maps over one storage.
- The labels given to new clusters, requests' validation beyond its outcome, and requests without an Authorization header, which are refused before anything else.
- Cache size metrics, logging, tracing, and the gRPC and HTTP layers.
- Floating point rounding of sample values: values are reals.
- Kubernetes controllers, alerting, dashboards, the management API and the rest of the repository.
