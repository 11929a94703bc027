# Verification of the fctools VM stack

This project models the logic by which `fctools` runs Firecracker microVMs and proves properties of it in Dafny 4.11.
The program has four layers: a shell spawner, an executor that prepares the environment (with or without a jail), a VMM
process, and a VM on top.  Its input and output hide behind a few calls; they become an environment that may do
anything those calls allow:

- the host filesystem is a tree of nodes with the inode behind every name of a file, so that a write through one name is
  seen through all, on an object that any call may be refused by;
- a child process may exit at every look the program takes at it, and every look or wait may fail;
- a server may lose, refuse or accept each request.

Every loop and every method that updates fields in the source is a Dafny method proved against a function of its inputs
or of the old state; the properties are lemmas about those functions, over every input, schedule and run.

## Where to look

| theme | files |
|---|---|
| paths, filesystem, names and inodes, host | `Paths.dfy`, `Filesystem.dfy`, `Inodes.dfy`, `Host.dfy` |
| staging into a jail, in any interleaving | `Staging.dfy`, `StagingRaces.dfy`, `StagingProgress.dfy`, `Jailed.dfy`, `JailArguments.dfy`, `JailResults.dfy` |
| executors behind one interface | `Unrestricted.dfy`, `Executors.dfy`, `ExecutorTypes.dfy` |
| preparing a VM and rewriting its paths | `Configuration.dfy`, `PathRewriting.dfy`, `RewrittenFields.dfy`, `VmPrepare.dfy`, `PreparationResults.dfy` |
| the process and its runs | `Process.dfy`, `ProcessRuns.dfy` |
| requests and boot plans | `Api.dfy`, `BootPlan.dfy`, `BootStore.dfy` |
| the VM and its runs | `VmTypes.dfy`, `VmMachine.dfy`, `VmRuns.dfy`, `VmCalls.dfy`, `StartResults.dfy`, `PauseAgreement.dfy`, `Shutdown.dfy` |
| cleanup and snapshots | `SnapshotTraces.dfy`, `VmCleanup.dfy`, `FilePairs.dfy`, `Snapshots.dfy`, `SnapshotLife.dfy` |
| the life of a jailed VM | `JailedLife.dfy` |
| command lines | `CommandLine.dfy`, `Arguments.dfy`, `JailerLine.dfy`, `Invocation.dfy` |
| link-local subnets | `LinkLocal.dfy` |
| the metrics task | `MetricsPump.dfy` |

`dafny verify dfyconfig.toml` checks everything.

## Where the code departs from what it says

The model follows the code.  Each item is proved with its exact condition or with a concrete witness.

- `src/process.rs:160` and `src/vm/mod.rs:311` call their `expect`s unreachable.  Both can be reached, the first only
  below the VM: `ProcessRuns.PathsExpectReachedIff`, `VmRuns.ConfigurationExpectReachedIff`.
- `src/vm/mod.rs:387-392` treats a failed wait as a success: `Shutdown.SuccessTerminatesIff`,
  `Shutdown.BrokenWaitLooksLikeSuccess`.
- A VM restored without `resume_vm` reports Running while its guest is paused, and refuses to resume it:
  `PauseAgreement.StartAgreesIff`, `PauseAgreement.PausedGuestCannotBeResumed`.
- `src/executor/jailed.rs:262-263` asks for unique file names; without them the outcome depends on the schedule:
  `JailResults.FlatAgreesIff`, `JailResults.SameNamesRace`.
- `src/executor/jailed.rs:168-175` ignores the error of a refused link.  When it was refused because another task has
  linked the same target, the copy goes through that link and overwrites a source on the host:
  `StagingRaces.AlwaysFramedIff`, `JailResults.SameNamesOverwriteTheHost`, `JailResults.TwoSpellingsEmptyTheHost`.
- `src/vm/mod.rs:325` prepares the directories of a JSON configuration on the host and not in the jail:
  `JailedLife.JailedVmIsTraceless`.
- `src/executor/jailed.rs:220` assumes that the parent of the jail is the directory of the identifier:
  `JailResults.CleanupRemovesTheIdIff`, `JailResults.CleanupOfSlashAsksForTheRoot`.
- `src/ext/link_local.rs:76-79` divides by the prefix length instead of the block size:
  `LinkLocal.FromInetInvertsIff`, `LinkLocal.OffByTheDivisor`, `LinkLocal.FromInetFailsIff`.
- `src/process.rs:270-271` says that waiting results in a terminal state; the field changes at the next look only.
- A move of a snapshot that fails half-way leaves the held paths dangling, and copies and moves that succeed may lose a
  file: `Snapshots.FailedMoveKeepsIff`, `Snapshots.SuccessfulMoveKeepsIff`, `Snapshots.SuccessfulCopyKeepsIff`.

## Assumptions of the properties

- Staging equals the loop exactly for tasks that are free of races for their move method, on a disk where the files at
  the targets, if there are any, have no other names; a jail that has just been made is such a place.  Contents are only
  promised for sources that are not argument files.
- Command lines read back when no value contains a space; cgroup and resource limit keys also contain no `=`, without
  which the printed pair is ambiguous.
- Shutdown results assume working waits where they say so.  Pause results assume honest calls: a request to pause or
  resume takes effect exactly when it returns Ok, and a custom request reports its effect.
- Exactness of a cleanup assumes that the operating system permits the deletions concerned.
- That a call succeeds is only promised of a host on which the operating system refuses nothing that is possible
  (`Host.obliging`); everything else holds of any host.
- The metrics results assume that the writer appends whole lines.

## Model

| member | source | states |
|---|---|---|
| `Paths.SegmentsSplitAtSeparator` | src/executor/jailed.rs:324-328 | Splitting a text at `/` distributes over concatenation at a separator, whatever repeated separators stand around it. |
| `Paths.ParseOfJoin` | src/executor/jailed.rs:234-242 | The text operation behind `PathBuf::join` computes the join of parsed paths: a rooted right side replaces, any other is appended. |
| `Paths.ParseOfJailJoin` | src/executor/jailed.rs:319-329 | `jail_join` on texts never takes the replacing branch: for every inner text the result has the components of the base as a prefix. |
| `Paths.ParseOfComponent` | src/executor/jailed.rs:228-243 | A text without separators that is not empty is one component, so joining it descends by exactly one level. |
| `Paths.ParseOfText` | src/executor/arguments.rs:138-149 | The text of a path reads back as the path, so nothing is lost when a path becomes an argument. |
| `Staging.EverySuccessfulScheduleIsTheLoop` | src/executor/jailed.rs:137-184 | For every move method, every interleaving of the spawned mkdir, link, open and fill actions and every choice of refused links, on a disk where names share inodes: if the tasks do not race for that method and all finish, the tree is that of the sequential copying loop, which also succeeds. |
| `StagingRaces.AlwaysTheLoopIff` | src/executor/jailed.rs:137-184 | The condition is exact, for each move method and all jobs there is room for: every schedule that succeeds agrees with the loop if and only if the tasks are free of races. Copies need equal sources for equal targets, links nothing, links with fallback distinct targets. |
| `StagingRaces.AlwaysFramedIff` | src/executor/jailed.rs:161-177 | No schedule changes anything outside the jail, for copies and for links alone always, and for links with fallback if and only if no two tasks share a target: otherwise a copy goes through a link into a source. |
| `StagingRaces.PairHitsSource` | src/executor/jailed.rs:168-175 | The two failing inputs with fallback: a file staged twice ends up empty in the jail and on the host; of two files with one target the first is overwritten on the host with the second. |
| `Staging.StepKeepsAccounts` | src/executor/jailed.rs:161-177 | One action of one task keeps the accounting invariant of nodes: every node is an original, a directory some task made on its way, a target that a copy has opened and not filled, or a delivered source. |
| `Staging.StepKeepsNames` | src/executor/jailed.rs:161-177 | And that of names: every name was there, was created by a copy and is the only one of its file, or is one more name of a source. |
| `Staging.RunIsAccounted` | src/executor/jailed.rs:161-184 | Both invariants hold after any number of actions in any order. |
| `Staging.StagedIsUnique` | src/executor/jailed.rs:161-184 | The tree and the set of jobs determine the outcome: two trees that satisfy the description of a finished staging are equal. |
| `Staging.FinishedIsLoop` | src/executor/jailed.rs:180-184 | A finished staging equals the loop that stages one resource after the other. |
| `Staging.SpawnKeepsAccounts` | src/executor/jailed.rs:141-178 | A task may be spawned while earlier ones are already running without breaking the invariant. |
| `Staging.ActionsUseUpWork` | src/executor/jailed.rs:161-184 | Every action of a task uses up some of a finite amount of work, so joining the set ends. |
| `Staging.ActionsStayBelow` | src/executor/jailed.rs:155-177 | A task whose target is below the root of the jail changes nothing elsewhere: race-free or not for copies and for links alone, and race-free for links that may fall back to copies. |
| `Jailed.ClearJail` | src/executor/jailed.rs:93-118 | Creates the base directory if it is missing, removes an existing jail and creates an empty one; there are no files in it. Where the operating system refuses nothing, it fails exactly if this cannot be done. |
| `Jailed.AddArguments` | src/executor/jailed.rs:120-135 | Adds the parent of the socket and empty log and metrics files inside the jail, in this order, each with one name. Where nothing is refused, it fails exactly if one of them cannot be made. |
| `Jailed.Act` | src/executor/jailed.rs:161-177 | One action of one running task on the host: a level, a link, the opening or the filling of a copy, which may leave a part behind. |
| `Jailed.SpawnTasks` | src/executor/jailed.rs:137-178 | Spawns one task per outer path while earlier tasks go on; the map holds the name the renamer gives to each path. Where nothing is refused, every resource has a name, there is room and no race, it succeeds and no task has failed. |
| `Jailed.StageResources` | src/executor/jailed.rs:137-187 | Ok means that all tasks finished: contents are staged as by the loop when they do not race; nothing outside the jail has changed, under the exact condition of the row on frames; copies have inodes of their own. Where nothing is refused, there is room and no race, it succeeds. |
| `Jailed.Prepare` | src/executor/jailed.rs:87-187 | On Ok the map sends exactly the outer paths to their names, and the tree is the empty jail with the resources moved in. Where the operating system refuses nothing, the empty jail can be made and the resources fit into it, the result is Ok. |
| `Jailed.EmptyJailShape` | src/executor/jailed.rs:93-135 | The jail before staging holds only directories and empty argument files; outside it only directories on the way to it are new. |
| `StagingProgress.TasksCanAct` | src/executor/jailed.rs:161-177 | In every state of every schedule of tasks that do not race and have room, every task can take its next action: staging does not get stuck by itself. |
| `JailArguments.EmptyJailIsFurnished` | src/executor/jailed.rs:93-135 | Exact contents of the jail before staging, in terms of the argument texts: the directory of the API socket, empty log and metrics files, the levels on the way to these, and nothing else; the base directory is there. |
| `JailArguments.PreparedJailIsFurnished` | src/executor/jailed.rs:87-187 | After a preparation without races they are all there, and the files are empty unless a resource was given their name. |
| `JailArguments.SocketHasItsDirectory` | src/executor/jailed.rs:120-127 | The path at which the program looks for the API socket is the inner path below the jail, and the directory above it exists after the preparation. |
| `JailArguments.JailPathOfTexts` | src/executor/jailed.rs:228-243 | The jail path is what joining the texts gives: configured base or /srv/jailer, file name of the binary or else firecracker, identifier, root. |
| `JailArguments.FlatNameOfText` | src/executor/jailed.rs:267-277 | The flat renamer keeps the last component of a path below the root, and refuses paths without one. |
| `JailResults.JailHoldsOriginals` | src/executor/jailed.rs:79-187 | After a successful prepare, resolving the name of any outer path inside the jail reaches the node that was at the outer path. |
| `JailResults.FlatIsRaceFreeIff` | src/executor/jailed.rs:262-277 | With the flat renamer and no source inside the jail, staging is free of races if and only if: for copies, no two different files have one name; for links with fallback, no name occurs twice, even for one file; for links, always. |
| `JailResults.FlatAgreesIff` | src/executor/jailed.rs:137-184 | The whole of it: with the flat renamer every schedule that succeeds agrees with the loop if and only if the names of the files suit the move method. |
| `JailResults.RaceFreeIff` | src/executor/jailed.rs:137-184 | For any renamer, move method and no source inside the jail, staging is free of races if and only if the places in the jail suit the move method. |
| `JailResults.MappingIsRaceFreeIff` | src/executor/jailed.rs:279-317 | For a lookup table: every path is renamed if and only if it is in the table, and there is no race if and only if its places suit the move method. |
| `JailResults.MappingTable.Map` | src/executor/jailed.rs:292-295 | Changes the answer for one path and for no other. |
| `JailResults.MappingTable.MapAll` | src/executor/jailed.rs:297-300 | The last entry for a path decides; paths without an entry keep their answer. |
| `JailResults.SameNamesRace` | src/executor/jailed.rs:262-277 | Witness: for two files of one name both schedules of copies succeed and leave different trees. |
| `JailResults.SameNamesOverwriteTheHost` | src/executor/jailed.rs:168-175 | Witness: with links that fall back to copies, one of them is overwritten on the host with the other. |
| `JailResults.TwoSpellingsEmptyTheHost` | src/executor/jailed.rs:168-175 | Witness: one disk under two spellings of its path, which are different paths for the map, ends up empty on the host. |
| `JailResults.Cleanup` | src/executor/jailed.rs:210-224 | Removes the directory above the root of the jail with everything in it and nothing else, or nothing. If that is a directory and nothing is refused it succeeds. |
| `JailResults.JailIsTraceless` | src/executor/jailed.rs:87-224 | From any disk: prepare by copying, any writes below the root of the jail, cleanup. Nothing is left at base/exec/id, all else is as before, but for directories on the way to the base and to the jail. |
| `JailResults.GuestWritesStayInside` | src/executor/jailed.rs:166 | After staging by copying, writing a file of the jail is seen nowhere else: no file of the host is one of its names. |
| `JailedLife.JailedVmIsTraceless` | src/vm/mod.rs:155-442 | The same for a whole VM: preparation, device files, start with any outcome, any writes in the jail, removal of its directory. The one exception is exact: an attempt to write a JSON configuration leaves directories above its inner path on the host, all of them once the file could be opened. |
| `JailedLife.DevicesStayInside` | src/vm/mod.rs:247-279 | Log, metrics and vsock files of a jailed VM are made inside its jail and nowhere else. |
| `JailedLife.JsonReachesOutside` | src/vm/mod.rs:323-331 | The directories for a JSON configuration are made above the inner path as it stands, outside the jail; the file itself is written inside. |
| `JailResults.CleanupRemovesTheIdIff` | src/executor/jailed.rs:210-243 | The removed directory is base/exec/id if and only if the identifier is one component. |
| `JailResults.CleanupReachesOtherIff` | src/executor/jailed.rs:210-243 | For any identifier, absolute or of several components: the removed directory contains the jail of another one if and only if its components are a prefix of what is stated. |
| `JailResults.CleanupOfEmptyIdRemovesAllJails` | src/executor/jailed.rs:210-243 | Witness for the empty identifier: the removed directory contains the jails of all other identifiers. |
| `JailResults.CleanupOfSlashAsksForTheRoot` | src/executor/jailed.rs:228-243 | Witness for the identifier `/`: the jail is /root, and the directory to be removed is the root of the filesystem. |
| `Unrestricted.Prepare` | src/executor/unrestricted.rs:169-198 | On Ok all resources existed, each path maps to itself, and the disk has changed exactly by the removed socket and the empty log and metrics files. Where nothing is refused, Ok exactly if the resources are there and nothing is in the way of socket and argument files. |
| `Unrestricted.ResourcesAreKept` | src/executor/unrestricted.rs:169-198 | A resource keeps its node unless an argument of the executor names its location or, under another name, its file. |
| `Unrestricted.PreparedIsFurnished` | src/executor/unrestricted.rs:182-196 | Afterwards log and metrics files are there and empty, nothing is left at the place of the socket, and nothing else is new but levels on the way to the two files. |
| `Unrestricted.Cleanup` | src/executor/unrestricted.rs:221-246 | On Ok the tree is the old one without the socket and the files flagged for removal. Where nothing is refused, Ok exactly if every flagged file is there when its turn comes. |
| `PathRewriting.CollectOuterPaths` | src/vm/mod.rs:161-192 | Collects kernel, initrd, drives, snapshot and memory paths in this order. |
| `PathRewriting.Rewrite` | src/vm/mod.rs:199-228 | Consuming the map succeeds exactly when every collected path has an answer and none occurs twice; then each path is its answer, nothing else of the configuration has changed, and the map has lost exactly the collected paths. Otherwise it stops at the first position without an answer. |
| `PathRewriting.RewritesIffDistinct` | src/vm/mod.rs:161-228 | For a map that answers exactly the collected paths: rewriting succeeds if and only if they are pairwise distinct, and empties the map. |
| `PathRewriting.StopsAtFirstRepetition` | src/vm/mod.rs:202-228 | Otherwise it stops at the first path that repeats an earlier one. |
| `RewrittenFields.RewritingReachesFields` | src/vm/mod.rs:202-228 | Field by field: kernel, initrd, each drive and, for a restored VM, snapshot and memory become their own answers; every other field is as it was. |
| `Executors.PreparedKeepsContents` | src/executor/mod.rs:62-68 | For both executors: the inner path answered for a resource leads to the node the resource had. |
| `Executors.SocketPlace` | src/executor/mod.rs:52-58 | For both executors there is a socket unless it is disabled, at its path as seen from outside. |
| `Executors.Command` | src/executor/mod.rs:70-77 | The command handed to the shell, for both executors. |
| `VmPrepare.CollectSockets` | src/vm/mod.rs:239-245 | Sockets of drives are found under their drive identifier; of equal identifiers the last counts. |
| `VmPrepare.PrepareProcess` | src/vm/mod.rs:194-197 | Preparation of a new process never panics; it ends awaiting the start, or with the error of the executor. |
| `VmPrepare.CreateDeviceFiles` | src/vm/mod.rs:247-279 | Log and metrics files, the directories of the vsock socket, and both files again; the exact disk. |
| `VmPrepare.PrepareVm` | src/vm/mod.rs:155-290 | A disabled socket is refused before anything is touched; `MissingPathMapping` only for repeated paths, and repeated paths always end in it unless the executor fails first; on Ok the parts of the VM and the disk are those of an executor preparation, a rewriting and the device files. Traceless is exactly the jailed kind. Where nothing is refused and the executor can prepare, the only failure left is that the files of the devices do not fit. |
| `VmPrepare.RewrittenPathsReachOriginals` | src/vm/mod.rs:155-290 | Path rewriting preserves meaning: resolving any rewritten path leads to the content of the configured path (or to an empty file, exactly where a device file is another name of it); all other fields are unchanged and the original data is kept. |
| `PreparationResults.PreparedFieldsReachOriginals` | src/vm/mod.rs:155-290 | Field by field: kernel, initrd, every drive, snapshot and memory, as rewritten, lead to what was at the configured paths, unless the log or metrics file was created there. |
| `PreparationResults.PreparedDevices` | src/vm/mod.rs:230-279 | The accessible paths are those of the configured logger, metrics and vsock devices as seen from outside, exactly if these are configured; the log and metrics files are there and empty, and the vsock socket has its directory. |
| `Process.VmmProcess.UpdateState` | src/process.rs:323-333 | The state follows a status that `try_wait` reports, and a collected status is reported for ever. |
| `Process.VmmProcess.TakeOuterPaths` | src/process.rs:151-163 | The first half of `prepare`: refuses in other states, panics without paths, and otherwise leaves the object without them whatever the executor answers. |
| `Process.VmmProcess.InvokeChild` | src/process.rs:169-179 | Only in the awaiting state; a child exists exactly if the executor gave one. |
| `Process.VmmProcess.Send` | src/process.rs:183-205 | Requests need a started process and a socket; the client is made on first use, and not if the socket keeps its owner. |
| `Process.VmmProcess.CtrlAltDel` | src/process.rs:242-257 | Succeeds exactly when the request is answered with a success status. |
| `Process.VmmProcess.Sigkill` | src/process.rs:261-268 | Only for a started process; otherwise no signal is sent. |
| `Process.VmmProcess.Wait` | src/process.rs:272-280 | Collects the status; the `state` field itself is not updated, contrary to the comment of the method. |
| `Process.VmmProcess.TakeAllPipes` | src/process.rs:210-226 | Pipes are taken one by one, so a missing one leaves the others taken. |
| `ProcessRuns.ApplyKeepsValid` | src/process.rs:131-333 | Every call keeps: a child exactly from the start on, a terminal state with the collected status, no paths once prepared; it never moves the state backwards and never leaves a terminal state. |
| `ProcessRuns.ApplyEvolves` | src/process.rs:131-333 | The same as one relation that is transitive over calls, with the collected exit of the child. |
| `ProcessRuns.EveryRunIsValid` | src/process.rs:131-333 | The invariant holds after every run of calls against every child. |
| `ProcessRuns.ChildExpectsAreUnreachable` | src/process.rs:210-280 | The three `expect`s on the child are unreachable in every run. |
| `ProcessRuns.RunsMoveForward` | src/process.rs:284-333 | In every run the state never moves backwards and a terminal state with its status is final. |
| `ProcessRuns.EachSucceedsOnce` | src/process.rs:151-179 | Prepare and invoke succeed at most once each, in this order. |
| `ProcessRuns.ClientIsMadeOnce` | src/process.rs:183-205 | The client is made at most once in a run, so the owner of the socket is changed once, and no request is answered without it. |
| `ProcessRuns.StuckIff` | src/process.rs:151-166 | An object has lost its paths without being prepared if and only if some earlier prepare failed in the executor. |
| `ProcessRuns.PathsExpectReachedIff` | src/process.rs:151-163 | The `expect` on the outer paths, called unreachable there, is reached exactly by a prepare after one that failed in the executor. |
| `ProcessRuns.LookReports` | src/process.rs:323-333 | A look reports the end of the child unless the wait fails: code 0 is Exited, every other code and every signal is Crashed with that status; otherwise the state stays. |
| `ProcessRuns.StatesTellTheTruth` | src/process.rs:284-333 | Over every run: Exited means that the child ended with code 0, Crashed that it ended with the carried status, which is another one. |
| `ProcessRuns.ExitIsFinal` | src/process.rs:272-333 | Over every run the exit status of a child never changes. |
| `ProcessRuns.ExecutorIsAskedIff` | src/process.rs:151-298 | Prepare, invoke and cleanup succeed exactly in their state and with a good answer of the executor, which becomes the result or the child. |
| `ProcessRuns.SendSucceedsIff` | src/process.rs:183-205 | A request gets its response exactly while the process is up, with a socket and an answer. |
| `ProcessRuns.CtrlAltDelSucceedsIff` | src/process.rs:242-257 | Ctrl+Alt+Del succeeds exactly with an answer of status 200 to 299 from a process that is up. |
| `ProcessRuns.SigkillSucceedsIff` | src/process.rs:261-268 | A signal goes out exactly to a process that is up, when it is delivered. |
| `ProcessRuns.WaitReports` | src/process.rs:272-280 | The wait reports the status with which the child ended, and every later look reports the same. |
| `ProcessRuns.PipesAreTakenIff` | src/process.rs:210-226 | Pipes can be taken exactly while the process is up and has all three, which are gone afterwards. |
| `ProcessRuns.PipesAreTakenOnce` | src/process.rs:207-226 | Over every run the pipes are handed out at most once. |
| `Api.OkMeansAccepted` | src/vm/api.rs:347-407 | A request returns Ok if and only if it was sent to a running child and answered with a success status and a blank body. |
| `Api.Converse` | src/vm/api.rs:371-407 | The order of the failures: printing, state, transport, body, status. |
| `Api.Submit` | src/vm/api.rs:347-359 | A body where none is expected is an error even after a success status. |
| `BootPlan.InitNew` | src/vm/api.rs:270-329 | The requests and the result of every run are those of following the fixed plan of the data; written with loops over drives and interfaces. |
| `BootPlan.InitRestored` | src/vm/api.rs:331-345 | The same for a restored VM: logger, metrics, load. |
| `BootPlan.FollowSendsPrefix` | src/vm/api.rs:270-345 | In every run the requests sent are a prefix of the plan, all but the last accepted, and Ok only with the whole plan accepted. |
| `BootPlan.NewRunIsAPlan` | src/vm/api.rs:270-329 | InstanceStart is sent at most once, last, and only after all else was accepted; Ok means the whole plan was accepted. |
| `BootPlan.RestoredRunIsAPlan` | src/vm/api.rs:331-345 | For a restored VM: a prefix of its plan, the load last and only after logger and metrics were accepted, Ok only with everything accepted. |
| `BootPlan.StoreHoldsAllIff` | src/vm/api.rs:270-329 | Replaying requests on a store keyed by route keeps all of them if and only if equal routes carry equal bodies. |
| `BootPlan.AcceptedPlanRebuildsDevicesIff` | src/vm/api.rs:270-329 | Replaying the plan rebuilds every configured device if and only if identifiers identify drives and interfaces; the store never holds anything else. |
| `BootStore.NewPlanIsExact` | src/vm/api.rs:270-329 | The requests of an initialisation are exactly those that the fields of the configuration call for. |
| `BootStore.RestorePlanIsExact` | src/vm/api.rs:331-345 | Those of a restored VM are exactly logger, metrics and the snapshot to load. |
| `BootStore.AcceptedPlanReadsBack` | src/vm/api.rs:270-329 | The configuration can be read back from the server: each part is held exactly if it is configured, drives and interfaces each under its identifier exactly if identifiers identify them, and nothing else. |
| `BootStore.AcceptedRestoreReadsBack` | src/vm/api.rs:331-345 | For every route: what the server holds after a restore, and that it holds nothing else. |
| `BootStore.NewPlanGoesByStages` | src/vm/api.rs:270-329 | Boot source, drives, machine, CPU, interfaces, balloon, vsock, logger, metrics, MMDS, entropy and start come in this order. |
| `BootStore.RestorePlanGoesByStages` | src/vm/api.rs:331-345 | And so do logger, metrics and load. |
| `BootStore.LastDriveCounts` | src/vm/api.rs:276-278 | Drives are attached in the order of the configuration; of drives with one identifier the last one counts. |
| `BootStore.NetworkAt` | src/vm/api.rs:286-294 | Interfaces are attached in the order of the configuration. |
| `BootPlan.RouteTextsDiffer` | src/vm/api.rs:270-345 | Different routes are different texts whatever the identifiers, so the store is keyed by what is sent. |
| `VmMachine.VmObject.State` | src/vm/mod.rs:293-303 | The state of the VM is that of the process refined by the pause flag. |
| `VmMachine.VmObject.ApiPause` | src/vm/api.rs:209-222 | Only when running; the flag changes only with Ok. |
| `VmMachine.VmObject.ApiResume` | src/vm/api.rs:224-237 | Only when paused; the flag changes only with Ok. |
| `VmMachine.VmObject.ApiCustomRequest` | src/vm/api.rs:83-99 | The flag becomes what the caller says with any response, whatever its status. |
| `VmMachine.VmObject.ApiOther` | src/vm/api.rs:101-176 | Any other binding: paused or running, and the body is the result. |
| `VmMachine.VmObject.TakeAllPipes` | src/vm/mod.rs:445-448 | Pipes of a VM that is up. |
| `VmMachine.VmObject.ApiCreateSnapshot` | src/vm/api.rs:178-193 | Returns outer paths and the data from before the rewriting; unless traceless, records both paths. |
| `VmMachine.VmObject.Initialise` | src/vm/mod.rs:353-362 | Which plan a configuration leads to. |
| `VmMachine.VmObject.WriteJson` | src/vm/mod.rs:323-331 | Writes the JSON configuration: the directories above the inner path, then the file at its outer path; the order of the failures, and what each of them leaves behind. |
| `VmMachine.VmObject.StartVm` | src/vm/mod.rs:306-365 | Takes the configuration, writes it as JSON if asked to, invokes, waits for the socket and initialises; every early return, the panic, and the effect on the disk, also of a JSON configuration that could not be written. Also the command that was handed to the shell: with the JSON configuration in place of the configured file, or without an override. |
| `VmMachine.VmObject.RegisterListener` | src/vm/mod.rs:461-463 | Listeners are appended. |
| `VmRuns.StepEvolves` | src/vm/mod.rs:292-496 | Every public call of a VM, `start` and `shutdown` included, takes its process forward only. |
| `VmRuns.RunKeepsSound` | src/vm/mod.rs:281-496 | In every run: the process is valid, the configuration is the prepared one or taken, the flag is unset before the start. |
| `VmRuns.LifecycleOverRuns` | src/vm/mod.rs:292-365 | Over all runs of a VM the state never moves backwards, an exit and its status are final, the original data stays, and the process cannot be made to panic in `prepare`. |
| `VmRuns.NothingBeforeStart` | src/vm/mod.rs:465-495 | Before the start no call has any effect, except `start` and the registering of listeners. |
| `VmRuns.StartedMeansAccepted` | src/vm/mod.rs:306-365 | A start that returns Ok has taken the configuration, seen the socket, and had every request of the plan of that configuration accepted. |
| `VmRuns.VmStatesTellTheTruth` | src/vm/mod.rs:293-303 | Over every run: an exited VM has a process that ended with code 0, a crashed one a process that ended with the carried status, which is another one. |
| `StartResults.VmmReadsItsArguments` | src/executor/mod.rs:70-77 | With either executor the VMM reads back all of its arguments, with the configuration file that the override says. |
| `StartResults.VmmFindsItsJson` | src/vm/mod.rs:317-338 | Configured by JSON, the VMM is told one configuration file, whatever its arguments say, and that path leads, from outside, to the file in which the configuration was written. |
| `StartResults.OtherVmmKeepsItsConfig` | src/vm/mod.rs:317-338 | Every other VMM is told the configuration file of its arguments, or none. |
| `StartResults.StartedServerHolds` | src/vm/mod.rs:353-362 | After a start that returns Ok the server holds exactly the configuration, with the start of the instance or the loading of the snapshot as the last request; a VM configured by JSON has sent nothing. |
| `StartResults.NoSocketNoRequest` | src/vm/mod.rs:340-351 | If the socket does not appear the process is left running, nothing was sent, and the error says why. |
| `VmCalls.SubmitSucceedsIff` | src/vm/api.rs:347-407 | A request succeeds exactly while the process is up and the server answers with a status from 200 to 299 and a blank body. |
| `VmCalls.RequestErrors` | src/vm/api.rs:347-407 | Which error each way of not succeeding leads to. |
| `VmCalls.BlankBodies` | src/vm/api.rs:352-356 | A JSON document is not blank, blanks and line ends are. |
| `VmCalls.StateIs` | src/vm/mod.rs:293-303 | The reported state, by the process, its exit status and the pause flag. |
| `VmCalls.PauseSucceedsIff` | src/vm/api.rs:209-237 | Pausing and resuming succeed exactly when the flag allows it and the server confirms; only then does the flag change. |
| `VmCalls.CustomSucceedsIff` | src/vm/api.rs:83-99 | A custom request succeeds with every answer and sets the flag as told. |
| `VmCalls.OtherSucceedsIff` | src/vm/api.rs:101-176 | Any other request: exactly when the process is up and the status is a success. |
| `VmCalls.SnapshotSucceedsIff` | src/vm/api.rs:178-193 | A snapshot is taken exactly of a paused VM with a confirming server. |
| `VmCalls.PipesAreHandedOutIff` | src/vm/mod.rs:445-448 | The pipes of a VM are handed out exactly while it is up and has all of them. |
| `VmCalls.CleanupSucceedsIff` | src/vm/mod.rs:407-409 | Cleanup succeeds exactly after the process has ended and with a good answer of the executor. |
| `VmRuns.SpentIff` | src/vm/mod.rs:306-338 | The configuration is gone without a start if and only if some start failed before it invoked. |
| `VmRuns.ConfigurationExpectReachedIff` | src/vm/mod.rs:306-338 | The `expect` on the configuration, called unreachable there, is reached exactly by a start after one that failed before `invoke` succeeded. |
| `PauseAgreement.StartAgreesIff` | src/vm/mod.rs:281-365 | After a successful start the flag is right if and only if the VM is new or was restored with `resume_vm` set. |
| `PauseAgreement.PausedIsReportedExactly` | src/vm/mod.rs:293-303 | Pause agreement: after such a start and any honest run a live VM reports Paused exactly when its guest is paused. |
| `PauseAgreement.PausedGuestCannotBeResumed` | src/vm/api.rs:224-237 | Witness: restored without resuming, the VM reports Running over a paused guest and `api_resume` always fails. |
| `Shutdown.RunAttempt` | src/vm/mod.rs:374-385 | What each of the three methods does. |
| `VmCalls.AttemptSucceedsIff` | src/vm/mod.rs:374-385 | What each method needs to succeed: an accepted request, a delivered signal, or a confirmed pause and then a delivered signal. |
| `VmCalls.CtrlAltDelSendsNoSignal` | src/vm/mod.rs:375-379 | Ctrl+Alt+Del does not depend on what becomes of signals. |
| `VmCalls.KillSendsNoRequest` | src/vm/mod.rs:384 | A plain kill does not depend on the server, and leaves client and flag alone. |
| `VmCalls.PauseThenKillPauses` | src/vm/mod.rs:380-383 | After a successful pause-then-kill the flag says paused. |
| `VmCalls.ShutdownIsRefused` | src/vm/mod.rs:370 | A VM that is not up refuses to be shut down and tries nothing. |
| `Shutdown.ShutdownVm` | src/vm/mod.rs:369-404 | The loop over the methods with its last result equals the specification that the next rows are about. |
| `Shutdown.ShutdownTerminates` | src/vm/mod.rs:369-404 | With `Kill` among the methods, working waits and a SIGKILL that works in time, the process has exited or crashed on return whether the result is Ok or Err; without `Kill`, Ok of a non-empty list still says so. |
| `Shutdown.SuccessTerminatesIff` | src/vm/mod.rs:374-396 | A method that succeeded has terminated the process if and only if the wait itself did not fail. |
| `Shutdown.BrokenWaitLooksLikeSuccess` | src/vm/mod.rs:387-392 | Witness: an error of the wait is mapped away, so shutdown returns Ok while the process runs. |
| `Shutdown.MethodsAreTriedInOrder` | src/vm/mod.rs:373-403 | The first method that works is the last one tried and decides the result; if none works all are tried and the last error is returned; an empty list returns Ok with no effect beyond the look at the state. |
| `SnapshotTraces.SnapshotDescribes` | src/vm/api.rs:178-193 | When a snapshot is returned, and what it describes: outer paths and original data. |
| `SnapshotTraces.TracesAreTheSnapshots` | src/vm/api.rs:183-186 | In every run the recorded traces are both paths of every returned snapshot in order, until a cleanup has removed them; none for a traceless executor. |
| `SnapshotTraces.CleanedRunIsOver` | src/vm/mod.rs:407-442 | After a successful cleanup the process is terminal for good, so no snapshot follows. |
| `VmCleanup.SpawnRemovals` | src/vm/mod.rs:415-435 | Log, metrics, multiplexer, listeners only with a multiplexer, and the popped traces. |
| `VmCleanup.RemoveAll` | src/vm/mod.rs:437-439 | For every completion order and every refusal: only targets that are files are gone, and all of those whose deletion is permitted. |
| `VmCleanup.CleanupVm` | src/vm/mod.rs:407-442 | Nothing happens unless the process has exited; on Ok the tree is that of the executor less the removed targets, and the traces are drained. Where nothing is refused and the files of the executor are there, the executor has cleaned up. |
| `VmCleanup.CleanupIsExact` | src/vm/mod.rs:407-442 | With deletions permitted, the tree is the old one without the API socket, the flagged files and the targets that are files: nothing else is removed. |
| `VmCleanup.CleanupAfterRunIsExact` | src/vm/mod.rs:407-463 | The same over whole runs: the targets are the device files, the registered listeners and both files of every snapshot of the run. |
| `VmCleanup.CleanupRemovesItsFiles` | src/vm/mod.rs:407-442 | Field by field: gone are the socket, the log or metrics file of the arguments if its own flag is set, the log, metrics and multiplexer files, listeners only if there is a multiplexer, and the traces; nothing else is gone or changed. |
| `VmCleanup.CleanupRemovesWhatTheRunLeft` | src/vm/mod.rs:407-463 | Over whole runs: exactly these, with the listeners registered and the snapshots returned in some step of the run. |
| `FilePairs.CopyBoth` | src/vm/snapshot.rs:24-27 | Two copies at once: the disk is that of some interleaving of openings and fillings, each of which may be refused or break off, and with Ok both were opened and filled; what neither target is a name of is as before. Where nothing is refused and both can be copied, the result is Ok. |
| `FilePairs.CopyingLosesIff` | src/vm/snapshot.rs:24-27 | Over all successful interleavings, with targets that may be sources, each other or further names of them: a content may get lost if and only if there is room for both targets, not both contents are empty, and a target is a name of the source of the other copy, or of its own source that is not empty, or of the other target with other contents. |
| `FilePairs.FailingLosesIff` | src/vm/snapshot.rs:24-27 | Over all failing interleavings and all texts that a broken copy may leave: a source may change if and only if it is in the file at a target there is room for. |
| `FilePairs.ApartCopiesSucceed` | src/vm/snapshot.rs:24-27 | When no target is another name of a source or of the other target, Ok means that both targets hold what the sources held, and the sources are as before. |
| `FilePairs.RenameBoth` | src/vm/snapshot.rs:41-44 | Two renames in either order; on an error at most one of them has happened. Where nothing is refused and both can be renamed, the result is Ok. |
| `FilePairs.RenamesInOrderCommute` | src/vm/snapshot.rs:41-44 | When targets clobber nothing the order does not matter and the result is the tree with both files moved. |
| `FilePairs.RenamingLosesIff` | src/vm/snapshot.rs:41-44 | Over both orders, with any targets and any shared files: a content may get lost if and only if there is room for both targets and one order fails its check, which is about equal places, hard links and equal contents. |
| `Snapshots.Snapshot.CopyTo` | src/vm/snapshot.rs:19-32 | Paths change only on Ok; the step is one of those the histories are made of. |
| `Snapshots.Snapshot.MoveOut` | src/vm/snapshot.rs:36-49 | The same for moving. |
| `Snapshots.Snapshot.Remove` | src/vm/snapshot.rs:52-58 | Both files on Ok; on an error at most those two. Where nothing is refused and both files are there, the result is Ok. |
| `Snapshots.Snapshot.IntoConfiguration` | src/vm/snapshot.rs:62-80 | A restored configuration with a file backend, the current paths, the given options and the data of the snapshot. |
| `Snapshots.HistoryKeepsContents` | src/vm/snapshot.rs:19-49 | After any sequence of copies and moves, successful or failed, and of unrelated changes, in which each step was safe in the exact sense of the next rows, the current files hold the original contents. |
| `Snapshots.StepKeepsIff` | src/vm/snapshot.rs:19-49 | For a step of any kind the check that can be made before it is exact: all of its outcomes keep both contents at the paths then held if and only if it is passed. |
| `Snapshots.SuccessfulCopyKeepsIff` | src/vm/snapshot.rs:19-32 | That check for a copy that succeeds, in every interleaving. |
| `Snapshots.FailedCopyKeepsIff` | src/vm/snapshot.rs:19-32 | That check for a copy that fails, wherever it fails: no source is in the file at a target there is room for. |
| `Snapshots.FailedMoveKeepsIff` | src/vm/snapshot.rs:36-49 | A failed move is sure to leave the snapshot usable if and only if, before the call, neither file could be renamed to its target or the renaming would have changed nothing; otherwise half of the move may leave a dangling path. |
| `Snapshots.SuccessfulMoveKeepsIff` | src/vm/snapshot.rs:36-49 | That check for a move that succeeds, in both orders of its renames and for all targets, further names of the files of the snapshot included. |
| `Snapshots.MoveOfTwoFilesKeepsIff` | src/vm/snapshot.rs:36-49 | For two different files and targets that are no further names of them it comes to this: neither target is the other file, or both targets are one place and the contents are equal. |
| `Snapshots.MovingToOnePlaceLoses` | src/vm/snapshot.rs:36-49 | Witness: moving both files to one target succeeds and loses one. |
| `SnapshotLife.SnapshotIsOnRecord` | src/vm/api.rs:178-193 | Every snapshot of a run is among the recorded files, and its data is what the VM was configured with. |
| `SnapshotLife.SurvivesCleanupIff` | src/vm/mod.rs:407-442 | Without a jail, after any such history, the snapshot survives the cleanup of its source with its contents if and only if neither current file is one that the cleanup removes. |
| `SnapshotLife.UnmovedIsLost` | src/vm/mod.rs:433-435 | A snapshot left where it was written does not survive. |
| `SnapshotLife.SurvivesJailIff` | src/executor/jailed.rs:210-224 | With a jail, if and only if neither current file is below the directory of the identifier. |
| `SnapshotLife.JailedSnapshotStartsInside` | src/vm/api.rs:181-182 | Every snapshot of a jailed VM starts below that directory. |
| `SnapshotLife.RestoredVmSeesTheSnapshot` | src/vm/snapshot.rs:62-80 | A VM prepared from the configuration of a snapshot finds the original contents at its rewritten snapshot and memory paths and keeps the data of its source from before the rewriting. |
| `SnapshotLife.SnapshotReachesSuccessor` | src/vm/snapshot.rs:16-93 | The whole life, with either executor: taken in some step of a run, copied and moved to where the cleanup of its source does not reach, the snapshot is what the next VM finds at its rewritten paths, and that VM starts from the data of the first, before any rewriting. |
| `SnapshotLife.GenerationsKeepData` | src/vm/api.rs:188-192 | Along any line of VMs, each prepared from a snapshot of the one before after any history of copies and moves, the data is that of the first. |
| `CommandLine.JoinArgs` | src/executor/arguments.rs:417-440 | In every iteration order of the map the printed line is its tokens joined by single spaces; the last space is popped. |
| `CommandLine.SplitRecoversIff` | src/shell_spawner.rs:146-148 | Splitting a joined line on single spaces gives back the tokens if and only if none contains a space. |
| `CommandLine.ParseOfTokens` | src/executor/arguments.rs:417-440 | Reading the tokens by the arity of the known options gives the meaning of the map, repeated options as multisets, whatever the order. |
| `CommandLine.TokensSpaceFreeIff` | src/executor/arguments.rs:417-440 | The tokens are free of spaces if and only if the values are; option names always are. |
| `CommandLine.PrintedLineReadsBack` | src/executor/arguments.rs:417-440 | The whole round trip for any map and any order; no token is empty if no value is. |
| `Arguments.DecimalReadsBack` | src/executor/arguments.rs:179-202 | Decimal printing of a number loses nothing. |
| `Arguments.CollectVmm` | src/executor/arguments.rs:119-213 | The map built step by step has exactly the entry each field calls for; an override gives its own path or none, whatever the arguments say. |
| `Arguments.VmmMapReadsBack` | src/executor/arguments.rs:119-213 | The map of the binary determines every field, with the override applied to `config-file` only. |
| `Arguments.VmmLineReadsBack` | src/executor/arguments.rs:119-216 | The printed line of the binary reads back to all fields, with the configuration file of the override, none, or that of the arguments. |
| `JailerLine.ListEntries` | src/executor/arguments.rs:313-318 | Lists the pairs of a map as `key=value` in some order, each once. |
| `JailerLine.EntriesReadBack` | src/executor/arguments.rs:316-360 | With keys free of `=`, the listed entries determine the map. |
| `JailerLine.JoinJailer` | src/executor/arguments.rs:303-364 | The printed line of the jailer is its map in some order. |
| `JailerLine.JailerMapReadsBack` | src/executor/arguments.rs:303-364 | The map of the jailer determines every field. |
| `JailerLine.DashesAmongTokensIff` | src/executor/arguments.rs:303-364 | The tokens of the jailer contain a lone `--` if and only if one of its values is one. |
| `Invocation.VmmIdAcceptsExactly` | src/executor/unrestricted.rs:84-102 | Accepted are exactly the texts of 5 to 60 letters, digits and dashes, and each is one token. |
| `Invocation.JailedCommand` | src/executor/jailed.rs:195-200 | The jailed command is path, jailer line, separator, line of the binary. |
| `Invocation.JailedCommandReadsBack` | src/executor/jailed.rs:195-201 | It splits into tokens that read back as both sets of arguments around a lone `--`; the first lone `--` is that separator if and only if no jailer value is one. |
| `Invocation.ReceiverCutsAtDashes` | src/executor/jailed.rs:195-201 | A receiver that cuts at the first lone `--` gets both sides back. |
| `Invocation.UnrestrictedCommand` | src/executor/unrestricted.rs:206-212 | The identifier is appended after the printed options. |
| `Invocation.UnrestrictedCommandReadsBack` | src/executor/unrestricted.rs:206-212 | The command with an identifier reads back as the arguments and the identifier. |
| `Invocation.PlainCommandReadsBack` | src/executor/unrestricted.rs:206-212 | Without an identifier it reads back as the arguments alone. |
| `LinkLocal.NewAcceptsExactly` | src/ext/link_local.rs:39-66 | Accepted are exactly the blocks of prefix /17 to /30 that lie inside the range. |
| `LinkLocal.BlocksAreLaminar` | src/ext/link_local.rs:39-66 | For any exponents: a block is inside a larger one exactly if its index divided by the ratio is the index of the larger, and disjoint from it otherwise. |
| `LinkLocal.BlocksTileThePool` | src/ext/link_local.rs:39-50 | In a pool of any size 2^w the accepted blocks are those inside it, and each address lies in exactly one. |
| `LinkLocal.GetIpIsAddress` | src/ext/link_local.rs:112-144 | Every index that fits yields the address at base plus index; every other is refused; no 32-bit overflow. |
| `LinkLocal.GetHostIpIsNextIp` | src/ext/link_local.rs:122-128 | Host index i is index i + 1, refused exactly from the last but one on; `UnexpectedOverflow` is never returned. |
| `LinkLocal.CoversIff` | src/ext/link_local.rs:112-118 | A subnet hands out an address exactly if it lies in its block. |
| `LinkLocal.SubnetsAreLaminar` | src/ext/link_local.rs:39-118 | For any two valid subnets: the longer prefix is inside or disjoint, decided by dividing its index. |
| `LinkLocal.GetIps` | src/ext/link_local.rs:149-162 | Never fails and returns the addresses of the block in increasing order. |
| `LinkLocal.GetHostIps` | src/ext/link_local.rs:167-180 | Never fails and returns the same without the first and the last. |
| `LinkLocal.PoolIsRange` | src/ext/link_local.rs:149-162 | The first n subnets of a length, one after the other, are the first addresses of the range in order. |
| `LinkLocal.SubnetsTileTheRange` | src/ext/link_local.rs:39-162 | Exact tiling: all accepted subnets of a length concatenated are the whole range, each address once, in order. |
| `LinkLocal.FromInetFailsIff` | src/ext/link_local.rs:69-79 | The unsigned arithmetic of `from_inet` fails if and only if the length is zero, or octet 3 is zero and octet 4 is no multiple of the length. |
| `LinkLocal.BlockQuotientInverts` | src/ext/link_local.rs:69-118 | Dividing by the block size inverts `get_ip` for every valid subnet and index: the intended formula. |
| `LinkLocal.FromInetInvertsIff` | src/ext/link_local.rs:69-89 | The shipped formula inverts `get_ip` if and only if the address is one of the listed ones: multiples of the length in block zero below 169.254.1.0, and certain /27 addresses. |
| `LinkLocal.OffByTheDivisor` | src/ext/link_local.rs:76-79 | Witness: 169.254.1.1/30 gives index 9, its block is 64. |
| `LinkLocal.ThirtyIsAccepted` | src/ext/link_local.rs:253-261 | Every /30 address whose octet 3 is not zero is accepted, and never with the index of its own block. |
| `MetricsPump.LinesOfConcat` | src/ext/metrics.rs:319-325 | Splitting into lines distributes over concatenation after a whole line. |
| `MetricsPump.NextLineIsFirst` | src/ext/metrics.rs:321-322 | Reading one line of whole lines passes exactly the first of them. |
| `MetricsPump.PrintedLinesReadBack` | src/ext/metrics.rs:319-325 | What was written line by line, with either line end, is read as these lines. |
| `MetricsPump.Pump.ReadAndParse` | src/ext/metrics.rs:321-326 | First half of an iteration: no line, an unparsable line, or an entry in hand. |
| `MetricsPump.Pump.TrySend` | src/ext/metrics.rs:327 | Second half: waits on a full channel, fails on a dropped receiver. |
| `MetricsPump.Pump.Execute` | src/ext/metrics.rs:315-332 | Any schedule of writer, task and consumer computes the run the next rows are about. |
| `MetricsPump.StepKeeps` | src/ext/metrics.rs:320-328 | Every step of every party keeps: entries are the parse of the lines passed, in order, and the buffer its bound. |
| `MetricsPump.PumpDeliversAPrefix` | src/ext/metrics.rs:315-332 | In every interleaving with whole-line writes: received, buffered and in hand together are the parse of a prefix of the lines of the file in order; the bound holds; nothing from the first unparsable line on is delivered. |
| `MetricsPump.AtRestAllIsReceived` | src/ext/metrics.rs:315-332 | With the reader at the end and nothing on its way the consumer has the entries of all lines written. |
| `MetricsPump.ConsumerCanCatchUp` | src/ext/metrics.rs:315-332 | Nothing gets stuck: in any state of any run in which the task reads and the receiver is there, reading, sending and receiving alone can bring the consumer everything that was written. |
| `MetricsPump.EndedStaysEnded` | src/ext/metrics.rs:320-330 | A task that has ended stays as it ended. |
| `MetricsPump.DroppedReceiverEndsTheTask` | src/ext/metrics.rs:327 | Sending to a dropped receiver ends the task. |
| `MetricsPump.HalfALineEndsTheTask` | src/ext/metrics.rs:321-326 | Witness: a line read before it is finished ends the task. |

## Left out

- Ownership of files, `su` and `sudo` password handling, and the exit codes of `chown` and `mkdir`: a call that may fail.
- HTTP, JSON, the vsock and gRPC transports, the fcnet and snapshot-editor wrappers: thin layers over foreign code.
- `VmmInstallation::verify`, the fields of `Metrics`, error texts, and the builders of configurations and models.
- Command modifiers: the chain is empty, as a plain fold over strings would be all there is to say.
- Symbolic links, `.` and `..` components, and paths that are not UTF-8.
- The text of a JSON path is printed from its components, so repeated separators in it are not kept.
- Directories as resources or snapshot files: copying, linking and renaming are modelled for regular files.
- Cancellation of calls, and wall-clock time: a timeout is a choice of the environment.
- Settings that are only passed on (rate limiters, cache types, machine sizes) are one opaque text per device.
- Option names are an enumeration whose `Name` gives the text; maps keyed by arbitrary strings are not needed.
- API bindings that differ only in route and body are one event, `VmRuns.OtherCall`; `api_get_balloon_statistics`, which
  also refuses a paused VM, is not distinguished.
- Process.VmmProcess.Sigkill: a signal has no effect of its own; the exit follows at a later look, if at all.
- FilePairs.CopyBoth: a copy or rename still running when its call returns an error is taken to stop there.
- StagingRaces.AlwaysTheLoopIff: exactness is not stated for a source that is also a target, such as an argument file in
  the jail.  There it depends on the order of the list as well: links from a to b and then from b to c can only succeed
  in that order, which is the loop's, while the other order of the list makes the loop fail.
- Jailed.StageResources: what is left after a failure, since tasks may go on after the set has been dropped.
- VmCleanup.RemoveAll: a refusal is free where deletion is not permitted by the host.
- Arithmetic in `from_inet` that fails is one outcome; release builds would wrap instead of panicking.
