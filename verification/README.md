# oakd in Dafny

A model of oakd, the daemon of oakberryio, and of the self-contained algorithms
around it, with proofs. oakd turns an OCI image into a Firecracker microVM per
app, swaps the new machine for the old ones once it is healthy, keeps its state
in SQLite, and rewrites cloudflared's ingress file. Its goroutines share rows, a
handle map, a config cache and that file with hardly a lock between them; most of
what is proved here is about their interleavings.

## How it is laid out

**The control plane, interleaved.** `Tables` gives each SQL statement of
internal/store as a function on table values, with the schema's keys, UNIQUE and
foreign-key checks. `Protocol` is a state machine over those tables: one request
per app (Deploy, Restart, Scale, Destroy), a watcher per machine, Reconcile at
startup, StopAll, applyTunnel under its mutex, exits, crashes and restarts of the
daemon. Every store call, mutex section and handle call is one step; a `Choice`
says how it turns out, so any of them may fail at any time. `ProtocolInv`,
`ProtocolSteps` and `ProtocolRuns` hold the inductive invariants and the proof,
pc by pc, that every step keeps them. The theorems are in `ProtocolTheorems`
(the health gate, cutover without downtime), `ProtocolFlow` and `ProtocolGates` (the
order of a request's steps, what it has passed to be where it is), `ProtocolFacts`
(what it stores and boots, whose the app is), `ProtocolProcesses` (no process or handle
is lost), `ProtocolProgress` (no step is ever stuck, every request ends),
`ProtocolCutover` (success, failure), `ProtocolOverlap` (two requests for one
app), `ProtocolRelease` (release gate), `ProtocolReap`, `ProtocolRestart`,
`ProtocolIndex` (addresses), `ProtocolDestroy`, `ProtocolCache`, `ProtocolConverge`
and `ProtocolRecover` (the ingress file), `ProtocolStream` (the progress stream).
`Ids` and `History` in the state only record what happened; no step reads them.

**The same code in its own form.** `Store.Store` is internal/store as a class,
with its allocation loops. `Deployer.Deployer` is the deployer as a class: the
handle map, the cache of shared config objects on the heap, the shutdown flag,
over a `Store`. Both are proved against the table functions.

**Around it.** `Text` (decimal numbers, lines), `Routing` and `Render` (what the ingress file means), `Addresses`,
`Flatten` with `Overlay`, `Extract`, `BuildContext`, `Environment`, `Dns`,
`ExitStatus` with `ConsolePoll`, `Stream`, `Metrics`, `Health`, `Volumes`.

**One request per app.** oakd has no per-app lock. Two boots of one app that
overlap can each delete the other's machine (`Deployer.Deployer.OverlappingCutovers`
runs it), and `ProtocolOverlap.OverlapEmptiesTheApp` says for which orders of their
steps. So `Protocol` admits at most one request per app at a time; different apps
interleave freely.

**Where the code differs from its comments.** The code is followed, and a lemma
says when it does what they promise: errors between inserting a row and starting
the machine, failed "running" updates and failed deletes, and nothing else, leave
the row behind (`ProtocolCutover.FailureRestores`); a machine is in its app's owner's
subnet exactly if that owner was recorded before its subnet was resolved, which for a
first machine is not so (`ProtocolIndex.AddressesNameTheOwner`,
`StoreLemmas.FirstMachineIsInAdminSubnet`); a failed deploy has already stored its
configuration (`Deployer.Deployer.Deploy`); the CLI misjudges a failed call exactly if
certain lines of its error text begin with certain words (`Stream.CutVerdictExactly`,
`Stream.WholeVerdictExactly`); destroying an app removes the volume files of exactly
the apps of `Volumes.GlobHitsExactly`; a `.git` that is a file cuts a build context
short exactly if something wanted is listed after it
(`BuildContext.GitFileCutsTheWalk`); a path is lost to a whiteout of its own layer
exactly if that comes after the layer's last entry that provides the path
(`Overlay.LateWhiteoutRemoves`); an environment survives its round trip exactly if no
override key has an '=' in it (`Environment.GuestEnvironment`); text of the guest can
be mistaken for the exit status oak-init prints, which the release gate rests on,
exactly if it has the marker followed by a number that starts in 0
(`ConsolePoll.PollIsSafeExactly`, `ProtocolRelease.GateIsSafeExactly`); parsed idle
time exceeds the total exactly if adding the other counters to it overflows
(`Metrics.OverflowHidesTheTotal`).

**Stand-ins.** Machine ids, pids and addresses are natural numbers, with
`Addresses` for the dotted text; ids are never repeated. A stored configuration is
identified with what its JSON decodes to. Times are integers, percentages exact
reals. Runtime.Start, Stop and Wait, health checks, builds and every store call in
`Protocol` may come out either way. Database errors are steps of `Protocol` and not
of the two classes.

## Steps

Where each step function of `Protocol` comes from. `deploy.go` and `daemon.go` are
under internal/daemon.

- DoLoad, DoLoadStored, DoLoadCached: deploy.go:1009-1036, as called at 601 and 617
- DoUpsert, DoCacheCfg, DoBuild, DoAddRelease: deploy.go:205-234, and 636-639 for Scale; DoFindRelease: 605 and 641
- AllocSubnet, InsertRow: deploy.go:308-320 and 470-482
- DoRelStart, DoRelWait, DoRelStop, DoRelDelete: deploy.go:325-431, the deferred calls in their order; Passed: 394-430
- DoStart, DoSetHandle, DoAwait: deploy.go:483-558; DoStopNew, DoForgetNew, DoFailState, DoFailDelete: 547-563
- DoMark, DoSpawn: deploy.go:565-568; DoListOld and the stop loop: 840-863; Announce: 580
- DoListAll and the stop loop: deploy.go:655-677; DoDropReleases, DoDropApp, DoDropCache, DoRemoveFiles: 678-714
- DoSetOwner: api.go:181-190
- DoWake, DoCheckRow, DoSetStopped, DoUnhandle, DoRemove: deploy.go:739-777
- DoRList, DoRNext, DoRFail: daemon.go:226-235; DoRLoad to DoRSpawn: 241-338
- BeginStop, StopAllStep: deploy.go:1062-1083
- DoRead, DoConfig, DoFetch, DoStoreFetched, DoWrite, Finish: deploy.go:965-1027, and deploy.go:582-594, 721-728, 778-780 and daemon.go:237 for what callers do next
- Reboot: cmd/oakd/main.go:37-51 and the exit of the process with its VMs

## Model

| member | source | states |
|---|---|---|
| ProtocolTheorems.RunKeeps | internal/daemon/deploy.go:194-863 | over every run, in every interleaving and with every call free to fail, the invariants of ProtocolInv hold: tables consistent, each row, process, handle and watcher of a machine accounted for, each request where its pc says it is |
| ProtocolProgress.NothingIsStuck | internal/daemon/deploy.go:194-863 | in every reachable state each request can take its next step whatever its call comes to, success or failure (a Wait without error only once the machine is gone), or waits for the tunnel lock, whose holder can step; so can Reconcile and every watcher of an exited machine: no guard of the model hides a state or an outcome of the code |
| ProtocolProgress.RequestsEnd | internal/daemon/deploy.go:194-863 | in every interleaving and however its calls turn out, a request takes at most 27 steps and three for each machine it stops |
| ProtocolProgress.RendersEnd | internal/daemon/deploy.go:961-1004 | each step of a re-render leaves fewer to come, at most two and three for each running row |
| ProtocolTheorems.ZeroDowntime | internal/daemon/deploy.go:443-594 | through any run of deploys, restarts, scalings, reaping and tunnel work on any apps, an app with a sound running machine has one at every moment, and one that has passed its health check in that run unless it was running, or past that check, at its start; except when its own machines exit by themselves, it is destroyed or the daemon is stopped |
| ProtocolTheorems.RunsOnlyHealthy | internal/daemon/deploy.go:557-568 | the health gate, over every run: a machine is running, or its request at or past marking it so, only if it was at the start or its own health check has passed since |
| ProtocolGates.FailedCheckIsFinal | internal/daemon/deploy.go:557-563 | over every run after a failed health check: that machine is never running, and every step its request still takes changes no row, handle or process of any other machine |
| ProtocolGates.FailedBootReadsFailed | internal/daemon/deploy.go:547-563 | a failed boot whose row could be marked failed reads failed for good should its delete fail |
| ProtocolGates.ReapedNeverRuns | internal/daemon/deploy.go:770-777 | a machine whose row its watcher could mark stopped never runs again, whether or not the delete then succeeds |
| ProtocolGates.EveryGateWasPassed | internal/daemon/deploy.go:194-568 | over every run: a request beyond a call it may not go on without (storing the configuration, the build, inserting or finding the release, the subnet, the row, starting the machine, its health check, marking it, listing the old ones; Destroy's deletes) has had that call succeed earlier in the same request, and for the same machine |
| ProtocolFlow.OpFollows | internal/daemon/deploy.go:194-863 | each step of a request leads only where the code goes on to from there, by whether its call succeeds |
| ProtocolFacts.BootsWhatIsStored | internal/daemon/deploy.go:205-253 | in every reachable state the machine a request boots or cuts over to runs its app's latest release, and a Deploy or Scale does so under the configuration that is stored, a Deploy its own |
| ProtocolFacts.OwnerIsFirstToFinish | internal/daemon/api.go:181-190 | over every run: the owner on record is that of the first Deploy to finish since the app was destroyed, if it had none before; nothing else sets it |
| ProtocolFacts.OwnerAfterRender | internal/daemon/deploy.go:582-594 | a Deploy goes on to record its owner only from a re-render that has just written the ingress file |
| ProtocolFacts.CutoverSparesLeftovers | internal/daemon/deploy.go:845-848 | in every reachable state: a Deploy, Restart or Scale deletes its own machine's row, and of the others only such as were running, not what earlier failures left |
| ProtocolProcesses.NothingIsLost | internal/daemon/deploy.go:547-563 | in every reachable state, whatever failed: a process that has not exited and that nobody asked to stop has its row, and its handle unless it was just started or is a release machine; every handle has a row, but for one whose row its request has just deleted |
| ProtocolProcesses.StopAllStopsThem | internal/daemon/deploy.go:1062-1083 | once StopAll is through, every machine that was alive and marked running when the flag went up has exited or been asked to stop, and no handle to it is left |
| ProtocolTheorems.OwnStepKeepsSound | internal/daemon/deploy.go:840-863 | no step of a cutover, not even stopping and deleting the old machines, takes the last sound machine: the old one counts until the new one is marked running |
| ProtocolTheorems.OtherStepKeepsSound | internal/daemon/deploy.go:840-863 | a request of another app never stops or removes this app's machine |
| ProtocolCutover.SuccessLeavesTheNewOne | internal/daemon/deploy.go:573-594 | from the outcome line on, exactly the new machine is running for the app, unless it exited by itself or the daemon is stopping |
| ProtocolCutover.FailureRestores | internal/daemon/deploy.go:483-568 | a run of requests none of which reached "running" ends with exactly the rows, states and addresses the app had, whatever other apps did meanwhile, if and only if none of its steps was an error between insert and Start, a failed "running" update or a failed delete; the rows left over are those of exactly these steps |
| ProtocolCutover.RunKeepsRestored | internal/daemon/deploy.go:443-568 | at every moment of such a run the app's other rows are untouched and the only extra rows are the one in flight and those such steps left behind |
| ProtocolCutover.ErrorBeforeStartLeavesTheRow | internal/daemon/deploy.go:483-538 | an error after the insert and before Start ends the request and leaves its 'starting' row and address |
| ProtocolOverlap.OverlapEmptiesTheApp | internal/daemon/deploy.go:565-568 | two requests booting one app at once, in every order of their steps and of watchers: no machine is left running if and only if each machine was marked running before the other request listed the old ones |
| ProtocolOverlap.WhatOverlapLeaves | internal/daemon/deploy.go:840-863 | in any case what is left running is each new machine that was not marked running before the other request listed |
| ProtocolRelease.ReleaseIsGated | internal/daemon/deploy.go:246-431 | in every reachable state a release machine is not running, its row is there only while its request is in runReleaseCommand (or its delete failed, or the daemon died), and no deploy whose release command has not reported success is in bootFromRelease |
| ProtocolRelease.GateOpensOnReportedSuccess | internal/daemon/deploy.go:394-430 | the gate opens only at the wait's end, with the machine gone and a poll of its console log that finds 0 |
| ProtocolRelease.GateIsSafeExactly | internal/daemon/deploy.go:411-427 | wherever the reads of the log fall, the gate opens only on a printed 0 if and only if 0 was printed or the guest's own output before oak-init's line, or before a crash, has no marker followed by a number that starts in 0 |
| ProtocolRelease.PrintedZeroOpens | cmd/oak-init/main.go:157 | where the guest's own output has no marker and some read reaches the printed number, the gate opens if and only if that number is 0 |
| ProtocolRelease.BootsOnlyOnReportedZero | internal/daemon/deploy.go:246-252 | over every run, a deploy with a release command is in bootFromRelease only if earlier in the same request its release machine ended and the poll of its log found 0 |
| ProtocolRelease.BootsOnlyOnPrintedZero | internal/daemon/deploy.go:246-252 | over every run whose release logs meet that condition, only if oak-init printed 0 there |
| ProtocolRelease.StartsOk | internal/daemon/deploy.go:246-252 | the initial state meets the premises of ReleaseIsGated |
| ProtocolReap.ReapingIsSafe | internal/daemon/deploy.go:738-781 | a watcher changes at most its own machine's row, only after that process is gone, only a row that if running carries its pid, and never revives a row deleted by another path |
| ProtocolReap.ReapingIsComplete | internal/daemon/deploy.go:738-781 | once the watchers of exited processes are done, every running row has a live process and a handle with the row's pid |
| ProtocolReap.OnlyTheseLoseTrack | internal/daemon/deploy.go:749-777 | the failures that rule this out: a watcher's row check, its delete of a row it could not mark stopped either, Reconcile's listing and its marking a row failed |
| ProtocolReap.ReapingFinishes | internal/daemon/deploy.go:738-781 | after a machine exits, five steps of its watcher remove row and handle and bring it to its tunnel re-render, changing nothing else |
| ProtocolRestart.KeptAreTheLiveRows | internal/daemon/deploy.go:1062-1073 | the rows the next two promises speak of are exactly the running ones whose machine is alive when the shutdown flag goes up |
| ProtocolRestart.ShutdownLosesNothing | internal/daemon/deploy.go:1062-1083 | during a shutdown with no request in flight, under every interleaving of stops, exits and watchers, each of those rows stays, running, at its address |
| ProtocolRestart.RestartLosesNothing | internal/daemon/daemon.go:225-340 | when Reconcile is through, each of them runs again with its id, release and address unless it could not be restarted or exited again; nothing else was started, no other row changed, a row reads failed only if restarting its machine failed |
| ProtocolIndex.AddressesNameTheOwner | internal/daemon/deploy.go:82-92 | in every reachable state each machine's subnet is that of the owner its app had when the subnet was resolved, which OwnerForSubnet names from the address: the app's owner now, or "" from before one was recorded; so it is the app's owner's subnet if and only if that owner was recorded by then |
| ProtocolIndex.StartsOk | internal/store/schema.sql:21-23 | the initial state meets the premises of AddressesNameTheOwner |
| ProtocolDestroy.DeleteAppNeverFails | internal/daemon/deploy.go:679-689 | in every interleaving, when Destroy deletes the app row no machine or release refers to it |
| ProtocolDestroy.DestroyedIsGone | internal/daemon/deploy.go:687-729 | from then until the request ends no row of the app exists |
| ProtocolDestroy.DestroyFramesOthers | internal/daemon/deploy.go:654-689 | every step of Destroy only removes rows of its own app |
| ProtocolCache.StepKeepsCache | internal/daemon/deploy.go:1009-1036 | under interleaving, short of a recorded failure, a cached config is the stored one or its request will re-render; apps with running machines are cached; a re-render falls back to the store only while the daemon starts up |
| ProtocolConverge.TunnelConverges | internal/daemon/deploy.go:961-1004 | whenever no task owes a re-render and no failure is recorded, the ingress file was rendered from exactly the rows running now, newest first, each with its stored configuration |
| ProtocolConverge.ConvergedRouting | internal/daemon/deploy.go:974-1003 | then every hostname of an app, `<app>.<domain>` or custom, reaches its newest running machine, over plain HTTP at its address and the first service port of the stored configuration, unless another app has that name too |
| ProtocolConverge.ScaleStoresTheRest | internal/daemon/deploy.go:616-640 | barring a recorded failure, what a Scale stores differs from what was stored in the sizes asked for alone, whatever went on since it read it |
| ProtocolConverge.DirtyMeansAFailure | internal/daemon/deploy.go:961-1004 | the only failures recorded are a failed store or write call and a request that ends after storing a new configuration |
| ProtocolConverge.StepKeepsConverge | internal/daemon/deploy.go:961-1004 | each step keeps "the file is current or another task still owes a re-render", also while a re-render is under way on an older row list |
| ProtocolRecover.TunnelRecovers | internal/daemon/deploy.go:961-1004 | whatever failed before, from a state with a right cache and some task still to re-render, a run in which nothing fails again ends, once no task owes one, with the file rendered from the rows running then |
| ProtocolRecover.StepKeepsCacheTrue | internal/daemon/deploy.go:1009-1036 | every step keeps the cache right, failures and earlier ones included, but for a Destroy that fails to remove files and Reconcile failing to list the rows or to mark one failed |
| ProtocolRecover.LaterRenderRepairs | internal/daemon/deploy.go:961-1004 | so from any start of a run without those three, the next re-renders that go through repair the file |
| ProtocolRecover.FailedRenderKeepsCache | internal/daemon/deploy.go:965-1003 | a re-render that fails at its query or its write leaves such a cache |
| ProtocolStream.CutStreamMeansCutOver | internal/daemon/deploy.go:570-594 | over every run, whatever else is written: a request's stream cut off at any byte is called a success only if at some moment its machine was the app's only running one, or had exited by itself, or the daemon was stopping |
| StoreLemmas.FreeIpSpec | internal/store/store.go:250-287 | allocIP gives the least free host of .2-.254, and fails exactly when all 253 are taken |
| StoreLemmas.AllocationIsPerSubnet | internal/store/store.go:246-249 | tables that agree on one subnet's machines allocate the same address there |
| StoreLemmas.SubnetForOwnerKeeps | internal/store/store.go:300-375 | an owner gets its recorded index or the least free one from 1, no other owner's changes, OwnerForSubnet inverts it, 0 is for "" alone, and it fails exactly when 1-255 are taken |
| StoreLemmas.AllocAndInsertKeeps | internal/store/store.go:432-450 | a new row's address is its subnet's and nobody else's, no other row changes, and it fails only for a taken id, a missing app or an exhausted subnet |
| StoreLemmas.InsertReleaseKeeps | internal/store/store.go:195-208 | an inserted release becomes its app's latest and no other app's |
| StoreLemmas.DeleteAppKeeps | internal/store/store.go:626-633 | deleting an app fails exactly when a release or machine still refers to it |
| StoreLemmas.EveryRunIsSound | internal/store/store.go:250-450 | after any sequence of store calls addresses are distinct and in range, owner to index is injective with "" at 0, nothing dangles, and an index once given stays its owner's and is inverted by OwnerForSubnet |
| StoreLemmas.LatestIsNewest | internal/store/store.go:610-624 | after any sequence of store calls LatestRelease is the app's most recently inserted release since its releases were last deleted |
| StoreLemmas.ReleaseIdsAreReused | internal/store/schema.sql:5-9 | after any sequence of store calls an insert returns an id issued before exactly if the largest id ever issued is no longer there |
| StoreLemmas.FirstIdComesRound | internal/store/schema.sql:5-9 | as after deleting the only app's releases |
| StoreLemmas.FirstMachineIsInAdminSubnet | internal/daemon/api.go:181-190 | an app's first machine, in any store, is in subnet 0, and once its owner is recorded the app's subnet is another; when a machine is in its owner's subnet is said by ProtocolIndex.AddressesNameTheOwner |
| Store.Store.constructor | internal/store/schema.sql:1-23 | a fresh database is the empty one with the admin subnet seeded |
| Store.Store.AllocIp | internal/store/store.go:250-287 | the loop over rows and then hosts computes the least free address |
| Store.Store.SmallestFreeSubnetIdx | internal/store/store.go:334-359 | the loop computes the least free index |
| Store.Store.SubnetForOwner | internal/store/store.go:300-327 | the transaction has the table function's effect, or none at all on failure |
| Store.Store.OwnerForSubnet | internal/store/store.go:365-375 | the owner that holds the index, and none exactly if nobody does |
| Store.Store.AllocAndInsertMachine | internal/store/store.go:432-450 | allocation and insert in one transaction, or no change |
| Store.Store.SetMachineState | internal/store/store.go:454-467 | one row gets state and pid and keeps app, release, address and place in every listing, no other row changes, a missing one is not found |
| Store.Store.DeleteMachine | internal/store/store.go:470-475 | only that row goes, if it is there, and only its address becomes free |
| Store.Store.UpsertApp | internal/store/store.go:92-102 | the app has the configuration and keeps its owner, a new app has none, no other app changes |
| Store.Store.SetAppOwner | internal/store/store.go:143-148 | an owner once recorded is never overwritten, no configuration and no other app changes |
| Store.Store.InsertRelease | internal/store/store.go:195-208 | inserts under one more than the largest id in use |
| Store.Store.LatestRelease | internal/store/store.go:610-624 | the app's release with the largest id |
| Store.Store.DeleteApp | internal/store/store.go:628-633 | fails without effect while anything refers to the app |
| Store.Store.DeleteReleasesForApp | internal/store/store.go:636-641 | no release of the app is left, and no other app's latest changes |
| Addresses.ParseIsInverse | internal/store/store.go:377-393 | text parses to an address exactly when it is that 32-bit address's dotted form |
| Addresses.HostRangeIsTheSubnet | internal/store/store.go:246-287 | the addresses allocated in subnet i are exactly those written 10.200.i.2 to 10.200.i.254 |
| Deployer.Deployer.AppConfig | internal/daemon/deploy.go:1009-1027 | returns the cached object or a fresh one equal to the stored configuration, keeping cache and store coherent |
| Deployer.Deployer.StoreConfig | internal/daemon/deploy.go:205-208 | stores and caches together; a failed UpsertApp changes neither |
| Deployer.Deployer.ScaleConfig | internal/daemon/deploy.go:616-640 | stores the resized configuration in a fresh object; no existing config object is written, so a failed UpsertApp leaves cache and store equal |
| Deployer.Deployer.StopOldMachines | internal/daemon/deploy.go:840-863 | exactly the app's other running rows and their handles go, each with a handle stopped |
| Deployer.Deployer.BootFromRelease | internal/daemon/deploy.go:443-580 | succeeds exactly if the app is there, its owner has or can get a subnet with a host left, and the machine turns healthy; success leaves exactly the new machine running, at the least free address of its owner's subnet, with the old ones stopped; failure leaves rows, addresses and handles as they were |
| Deployer.Deployer.RunReleaseCommand | internal/daemon/deploy.go:289-431 | passes exactly if its machine got an address and the poll of its console log finds exit status 0, stops what it started and leaves no row |
| Deployer.Deployer.PollStatus | internal/daemon/deploy.go:411-419 | the loop takes the first read that yields a status |
| Deployer.PrintedStatusDecides | internal/daemon/deploy.go:411-427 | passing means that oak-init printed 0, wherever the reads fall, exactly if it did or the guest's own output does not say so itself |
| Deployer.Deployer.Deploy | internal/daemon/deploy.go:194-253 | succeeds exactly if the configuration is stored, the build succeeds, the release command if any passes, and the boot then can get an address and turns healthy; on failure rows and handles are unchanged though the configuration is stored; on success the new machine runs the release just inserted |
| Deployer.Deployer.Restart | internal/daemon/deploy.go:600-610 | boots the latest release and stores nothing; succeeds exactly if there is one and the boot succeeds |
| Deployer.Deployer.Scale | internal/daemon/deploy.go:616-646 | each size asked for is stored, a size of 0 and the rest of the configuration kept, even if the reboot fails, and not if UpsertApp did; succeeds exactly if both do |
| Deployer.Deployer.DestroyRows | internal/daemon/deploy.go:654-693 | the deletes succeed in the order they come, remove every row, handle and cached config of the app, and nothing of another |
| Deployer.Deployer.Reap | internal/daemon/deploy.go:738-781 | removes row and handle exactly if the row is still running with this watcher's pid and no shutdown has begun |
| Deployer.Deployer.StopAll | internal/daemon/deploy.go:1062-1083 | raises the flag, stops every handle exactly once, touches no row |
| Deployer.Deployer.Reconcile | internal/daemon/daemon.go:225-238 | each running row restarts with id, release and address kept and a handle exactly if it starts, its release is there and its app's owner has or can get a subnet, else it reads failed; no other row changes |
| Deployer.Deployer.ReconcileOne | internal/daemon/daemon.go:240-340 | succeeds exactly then; an error leaves row and handles alone |
| Deployer.Deployer.OverlappingCutovers | internal/daemon/deploy.go:840-863 | two stopOldMachines of one app after both new machines are marked running leave it with no running machine |
| Routing.ListIsExact | internal/store/store.go:494-503 | RunningMachines lists exactly the running rows |
| Routing.ListIsNewestFirst | internal/store/store.go:494-503 | in order of creation, newest first |
| Routing.FirstServingRowWins | internal/tunnel/tunnel.go:27-33 | for every hostname, the rule that wins is that of the first listed machine that serves it, and there is none exactly if no machine does |
| Routing.FirstServingRowIsReached | internal/daemon/deploy.go:974-994 | so it leads to that machine's address and its configuration's first service port, `http://<address>:<port>` |
| Routing.HostReachesNewest | internal/daemon/deploy.go:974-1003 | a hostname that one app serves and no other running app does leads to the app's newest running machine |
| Routing.DefaultHostReachesNewest | internal/daemon/deploy.go:974-1003 | an app's default hostname goes to its newest running machine when no app claims it as a custom domain |
| Routing.ApiIsReached | internal/daemon/deploy.go:996-1001 | oakberryio.<domain> leads to oakd's own port unless a machine or a static route claims it |
| Render.RenderConfig | internal/tunnel/tunnel.go:34-44 | the builder loop writes the header, the rules in order and the catch-all |
| Render.ConfigText | internal/tunnel/tunnel.go:34-44 | the text itself, character by character |
| Render.RenderedReadsBack | internal/tunnel/tunnel.go:34-44 | reading the text back gives exactly the rules, in order |
| Flatten.SafeJoinStaysInside | internal/rootfs/flatten.go:179-186 | an accepted name lands inside the root, a refused one outside, and ordinary names are accepted unchanged |
| Flatten.NamesMeanThemselves | internal/rootfs/flatten.go:94-128 | how whiteout, opaque and ordinary entry names are read, and what is skipped |
| Flatten.RootedNamesLand | internal/rootfs/flatten.go:94-128 | a name that starts in '/' stays in the image's root however it climbs, but for a whiteout's own target |
| Flatten.RootDir.Mkdirs | internal/rootfs/flatten.go:131-135 | creates what is missing on the way, or fails on a file in the way |
| Flatten.RootDir.Untar | internal/rootfs/flatten.go:80-175 | the loop over a layer's entries, in place, has the effect of the entries one after the other |
| Overlay.ActMeans | internal/rootfs/flatten.go:94-175 | what one entry does at every path, and exactly when it fails: on a name that escapes, a file on the way, a file where a directory has to be or a directory where a file has to be |
| Flatten.FlattenInto | internal/rootfs/flatten.go:44-71 | the layers bottom first |
| Overlay.FlattenIsUnion | internal/rootfs/flatten.go:76-175 | flattening gives at every path the topmost layer's entry, nothing where that layer whites out the path or an ancestor, else what the layers below give |
| Overlay.StaysClosed | internal/rootfs/flatten.go:80-175 | whatever the entries, every path's parents are directories throughout |
| Overlay.LateWhiteoutRemoves | internal/rootfs/flatten.go:115-125 | for any stack without file and directory clashes flattening succeeds and gives the union at a path if and only if the topmost layer that says anything about it has no whiteout of it after the last entry providing it; nothing is there otherwise |
| Overlay.FileThenWhiteout | internal/rootfs/flatten.go:115-125 | a file and then its whiteout in one layer is such a path |
| Extract.SafeExtractPath | internal/daemon/build.go:149-164 | accepts exactly the relative names that never climb above their start |
| Extract.PlainStaysInside | internal/daemon/build.go:154-163 | an accepted name lands inside at its cleaned form, so the last check never fires |
| Extract.LeaveAndComeBack | internal/rootfs/flatten.go:179-186 | the image extractor's guard also admits names that leave the root and return |
| BuildContext.MatchesOrParentMatches | cmd/oak/context.go:80-83 | the short-circuiting loop ignores a path exactly if some plain pattern matches it or a parent and no later pattern does |
| BuildContext.FindExceptionBelow | cmd/oak/context.go:112-123 | finds an exception at or below the directory |
| BuildContext.TarWriter.WalkDir | cmd/oak/context.go:60-100 | the recursive walk appends what the callback's verdicts say, with SkipDir on a file ending its directory |
| BuildContext.ContextIsExact | cmd/oak/context.go:57-123 | with .git a directory the pruned walk emits, in order, exactly the paths a full filter would: not ignored, outside .git and .dockerignore, plus the Dockerfile unless a directory it is in is pruned |
| BuildContext.ContextHolds | cmd/oak/context.go:57-123 | so a path other than the Dockerfile's is in the context exactly if it is in the tree, outside .git, not .dockerignore, and no plain pattern is the last that matches it or a parent |
| BuildContext.GitFileCutsTheWalk | cmd/oak/context.go:72-74 | for every tree: the walk emits exactly those paths if and only if none of them is listed after a root entry .git that is a file |
| BuildContext.WorktreeLosesItsSource | cmd/oak/context.go:72-74 | a tree of .git as a file and one source file yields an empty context |
| Environment.SplitEnv | internal/mmds/mmds.go:76-83 | splits at the first '=' |
| Environment.EnvMapSets | internal/daemon/deploy.go:946-954 | a list stands for the map in which each key has the value of the last entry that sets it |
| Environment.MergeEnv | internal/mmds/mmds.go:50-74 | lists the image's map overridden, keys strictly ascending |
| Environment.LessIsByFirstDifference | internal/mmds/mmds.go:64-73 | ascending as Go orders strings: by the first character that differs, a prefix first |
| Environment.ListReadsBack | internal/daemon/deploy.go:946-954 | the list reads back as the map it lists if and only if no key has an '=' in it |
| Environment.OneListing | internal/mmds/mmds.go:64-73 | a map has only one such list |
| Environment.EnvSliceHasKey | internal/daemon/deploy.go:936-944 | the prefix test is membership in the map |
| Environment.BuildGuestEnv | internal/daemon/deploy.go:901-934 | key by key, where no key of app env or secrets has an '=' in it: the secret's value, else app env's, else that of the image's last entry for the key, else PORT and PATH by default and nothing more; and the layered map is what comes out if and only if there is no such key |
| Environment.GuestEnvironment | cmd/oak-init/main.go:403-416 | end to end, after merge, map and second merge: the same of what the guest's process gets, with HOME defaulted too |
| Environment.KeyWithEqualsIsSplit | internal/mmds/mmds.go:76-83 | a key a=b set to v comes back as a set to b=v |
| Dns.TenantLearnsNothing | internal/daemon/bridge.go:59-108 | for a source 10.200.i.h, two stores that agree on the owner of subnet i and that owner's apps and machines give it the same reply to every query |
| Dns.MachineLearnsNothing | internal/daemon/bridge.go:59-108 | so for every machine of both stores, in whichever subnet it got its address |
| Dns.TenantSources | internal/daemon/bridge.go:93-97 | the tenants are the sources written 10.200.i.h, and i is the index they are looked up by |
| Dns.InvisibleIsMissing | internal/daemon/bridge.go:65-71 | for a source 10.200.i.h, an app whose owner does not hold subnet i answers like a missing one |
| Dns.StrangerIsMissing | internal/daemon/bridge.go:65-71 | so no machine gets an address of an app whose owner's subnet is not its own |
| Dns.ExistenceIgnoresType | internal/dns/dns.go:83-101 | NXDOMAIN or not never depends on the query type (sections 2.1 and 2.2 of RFC 2308) |
| Dns.AnswersAreTheRunningAddresses | internal/dns/dns.go:103-110 | an A reply holds exactly the addresses of the app's running machines |
| Dns.AnswersAreNewestFirst | internal/daemon/bridge.go:73-82 | in the order of the listing, newest machine first |
| Dns.LocalNames | internal/dns/dns.go:68-81 | a name is local exactly if it ends in .internal., in capitals or not, and what comes before names the app |
| Dns.ResolveDns | internal/daemon/bridge.go:59-83 | the filtering loop, scoped to the requester |
| Dns.RequesterCanSee | internal/daemon/bridge.go:93-108 | the host sees every app, a source 10.200.i.h exactly the apps whose owner holds subnet i |
| Dns.ServeDns | internal/dns/dns.go:61-75 | the reply as a function of store, query and source |
| Dns.ResolveLocal | internal/dns/dns.go:77-110 | the reply for a local name, given its addresses |
| Dns.Bridges.EnsureBridge | internal/daemon/bridge.go:25-54 | one listener per subnet however often it is called, and a failed one is tried again |
| ExitStatus.LastChildExitStatus | internal/daemon/deploy.go:1158-1183 | the backward scan finds the last line with a marker |
| ExitStatus.PrintedStatusReadsBack | cmd/oak-init/main.go:157 | the status oak-init prints is read back whatever text, markers included, precedes it, whatever junk ends its line, whatever marker-free text follows |
| ExitStatus.NoMarkerNoStatus | internal/daemon/deploy.go:1155-1183 | no marker, no status |
| ConsolePoll.CutReports | internal/daemon/deploy.go:1158-1183 | what a read of any part of a log reports: what the guest's own output says until oak-init's marker is complete, then the printed number as far as it is written |
| ConsolePoll.CutReportsZero | internal/daemon/deploy.go:411-418 | it reports 0 exactly if the guest's own output up to there does, or the number has begun and is 0 |
| ConsolePoll.ZeroSomewhere | internal/daemon/deploy.go:1144-1183 | some read of a growing text reports 0 exactly if it has a marker followed by a number that starts in 0 |
| ConsolePoll.PollIsSafeExactly | internal/daemon/deploy.go:1150-1153 | however the reads fall, the poll finds a 0 only if oak-init printed one, exactly if it did or the guest's own output has no such marker |
| ConsolePoll.PollFindsTheStatus | internal/daemon/deploy.go:404-419 | with no marker before it, a poll that reaches the printed number finds 0 exactly if it is 0 |
| Stream.StreamProgress | internal/cli/client.go:178-215 | the verdict from the last line that arrived and the read error |
| Stream.LastScannedIs | internal/cli/client.go:178-197 | that line is what follows the last newline but for one at the very end, less a carriage return |
| Stream.CutStreamNeverLies | internal/cli/client.go:198-215 | with one-line texts, a stream cut off at any byte is reported a success only if the outcome line was written; what that says of the machines is ProtocolStream.CutStreamMeansCutOver |
| Stream.WholeStreamIsExact | internal/daemon/api.go:174-190 | a complete stream with one-line texts is reported a success exactly if the call returned no error |
| Stream.CutVerdictExactly | internal/daemon/deploy.go:557-563 | with any error text: some cut of a failed call's stream is reported a success exactly if a line of it begins with "ok " |
| Stream.WholeVerdictExactly | internal/cli/client.go:198-215 | with any error text, before or after the outcome line: the complete stream of a failed call is reported a failure exactly if the last line of that text begins with "error:", as one-line text always does |
| Stream.ManyLineErrorIsMisread | internal/daemon/deploy.go:557-563 | error text of several lines breaks both |
| Metrics.HostPercentIsAPercentage | internal/metrics/metrics.go:197-207 | always within 0 to 100, and the busy share exactly when counters behave |
| Metrics.PidPercentIsARate | internal/metrics/metrics.go:211-216 | percentage times seconds is the ticks spent |
| Metrics.Sampler.Sample | internal/metrics/metrics.go:121-190 | fails exactly if a reader does, and then keeps the previous sample; a successful call records what was read, reports every listed machine against the previous sample as a rate, and 0 on a first sample, a machine new to it or a counter or clock that went back |
| Metrics.ChargesTelescope | internal/metrics/metrics.go:121-190 | over any run of calls, failed ones between, the percentages account for exactly the ticks from first to last successful sample |
| Metrics.ParseProcStat | internal/metrics/metrics.go:221-246 | idle and total of the aggregate line, in 64-bit arithmetic |
| Metrics.EveryFieldCounts | internal/metrics/metrics.go:233-242 | the sum grows with each field by as much, but for the ninth and tenth, guest and guest_nice |
| Metrics.IdleWithinTotal | internal/metrics/metrics.go:233-242 | so never while the sum fits in 64 bits |
| Metrics.OverflowHidesTheTotal | internal/metrics/metrics.go:233-242 | parsed idle is at most the parsed total if and only if adding the other counted fields to it does not carry over 64 bits |
| Metrics.TotalWrapsToZero | internal/metrics/metrics.go:233-242 | counters whose sum wraps to 0 |
| Health.AwaitHealthy | internal/daemon/deploy.go:792-834 | goes on exactly while checks fail, the budget (a minute unless set) lasts and nobody cancels, for 1 to floor(budget / interval) + 2 checks, and passes, gives up or is cancelled as the last round says; writes a heartbeat in every wait more than ten seconds after the last one or the start, and in no other |
| Volumes.GlobHitsExactly | internal/daemon/deploy.go:706-714 | which apps' volume files destroying an app removes |
| Volumes.DestroyTakesNamesakes | internal/daemon/deploy.go:706-714 | destroying web removes web-api's |

## Left out

- Firecracker, netlink, tap devices, bridges, mkfs, mounts, PTYs and the rest of oak-init's boot: system calls; a machine is a process that starts, is stopped or exits.
- SQL text and SQLite itself: tables are maps and a transaction is one step. Row order is a creation rank: created_at is taken not to run backwards.
- HTTP plumbing, authentication, SSH streams, the dashboard, the landing page and the other client calls. No request begins once the daemon is stopping, although connections kept alive are still served until the process ends.
- age encryption, TOML and JSON codecs, image pull, DNS wire format and forwarding.
- Secrets and volumes as tables: their two deletes in Destroy, and volume assignment in a boot, are not steps of the model.
- The glob engine of .dockerignore: a pattern is any predicate; exceptions are taken as literal paths in ContextIsExact.
- Hard links and symlinks in Flatten: they alias across layers because files are overwritten in place. FlattenIsUnion and LateWhiteoutRemoves are about directories, files and whiteouts, with no path a file in one place and a directory in another.
- The gateway a restarted machine is given: reconcileOne takes it from the owner's current subnet; only the subnet index is modelled.
- ProtocolTheorems.ZeroDowntime: does not model two overlapping requests for one app; with them it is false, exactly as ProtocolOverlap.OverlapEmptiesTheApp says.
- ProtocolOverlap.OverlapEmptiesTheApp: the two requests and watchers, from both health checks on, with no failed store call of the requests and no exit of a machine by itself.
- ProtocolReap.ReapingIsComplete: not for a run with one of the failures of ProtocolReap.OnlyTheseLoseTrack; the row then stays as that call left it.
- ProtocolConverge.TunnelConverges: not after a recorded failure; oakd does not retry a re-render that failed, and TunnelRecovers says how a later one repairs the file.
- Deployer.Deployer.Deploy: only UpsertApp and the build are given a failing outcome among the calls before the release command; the other database errors are steps of Protocol.
- Stream.CutStreamNeverLies: lines longer than the scanner's buffer are not modelled.
- Unicode case folding of DNS names beyond ASCII; floating-point rounding of percentages.
- Argv, sizing, memory and key-value parsing, MAC addresses, flag parsing: they would only add easy members.
