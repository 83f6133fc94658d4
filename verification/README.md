# Amplifier runtime kernel: what must not go wrong

A Dafny model of the parts of the Amplifier runtime kernel that keep state across failures, and
proofs of what they promise. `dafny verify dfyconfig.toml` (Dafny 4.11) checks the whole project.

## What is modelled

* **Workspace checkpoints** (`CheckpointData`, `Lineage`, `Timeline`, `CheckpointDisk`, `CheckpointSpec`,
  `CheckpointSafety`, `CheckpointLaws`, `CheckpointStore`, `RestoreFates`, `RestoreFiles`, `RebaseLoops`,
  `RestoreSpec`, `RestoreLaws`, `StepSafety`, `UndoRuns`, `CheckpointEdges`). The undo store for file edits.
  File states keep inode and directory identity; the digest stands for the contents. `Store` is the class with
  its durable state as a `Disk` value that changes by single writes. `Files` is the workspace, in which other
  programs may write between any two steps; a trace of everybody's writes is kept beside it, and the workspace
  is always that trace replayed.
  `RestoreFates` says what becomes of each file; `CheckpointLaws` and `RestoreLaws` say, without reference to how
  it is computed, what the store owes every target of a call and what it may do to history. `UndoRuns` joins
  store and files in runs, process exits included, and proves the undo theorem.
* **Live MCP servers** (`LiveMcp`): one reconciler on a tool registry whose mounts, unmounts and stops may
  fail at any time.
* **Live providers** (`ProviderMount`) and **config inheritance** (`ConfigInheritance`): an ordered map that
  third-party code may leave in any shape, and configs that may share list objects.
* **Rewind intent** (`JsonLines`, `RewindIntent`): a staged rewind across process exits, with appends that
  may stop at any character. **Rewind replay** (`RewindReplay`): reading the log back.
* **Attention delivery** (`AttentionPush`) and **attention store** (`AttentionStore`): a worker with two
  lanes over all interleavings, and several processes on one file under a lock marker.
* **Cost replay** (`CostReplay`), **diff yield** (`GitYield`), **fuzzy matching** (`Fuzzy`).

`Collections` and `Sequences` hold definitions and facts that several modules use.

In each, the imperative code is a method or class proved against functions on values, and the
promises are lemmas about those functions and invariants every method keeps. Nondeterministic
choices (`*`) stand for other programs, third-party code, failing calls and process exits.

## What the proofs found

The code was followed where it differs from its own comments.

* A call that names one file twice (`a.txt` and `./a.txt`) records its change twice; the chain is then
  not continuous and the file cannot be restored (`CheckpointEdges.RepeatedTarget`, exact condition).
* An edit that rewrites a file with equal contents under a new inode is not recorded, and breaks the chain of
  later edits (`CheckpointEdges.SilentRewrite`, exact condition). As the last thing that happened to the file it
  makes every restore leave the file alone and skip it (`CheckpointEdges.SilentRewriteLast`, exact condition and
  example).
* When the directory of a file was replaced between its recorded start and end, a restore rewrites the file and
  then reports it as skipped, although a skipped path is said to be left unchanged
  (`CheckpointEdges.ReplacedDirectory`, exact condition). The written file is at neither end of its chain, so
  every retry skips it again (`CheckpointEdges.GivenUpForGood`); `CheckpointEdges.ReplacedDirectoryExample` is an
  input. A file that was absent at the start is removed and reported as restored whatever directory it is in
  (`CheckpointEdges.RemovedAnywhere`).
* A path reported as restored was seen with its wanted image, whatever others do, exactly if it was not absent at
  the start of its chain and otherwise at the end (`CheckpointEdges.ReportTrusted`). A removal reports whatever it
  finds right afterwards: any file somebody creates in between is taken for the restored state
  (`CheckpointEdges.AnythingReported`), although the code means not to bless a write that raced with its own. It
  becomes the end of the earlier chain, and an earlier restore then overwrites or removes it
  (`CheckpointEdges.ReportInherited`, exact condition; `CheckpointEdges.ForeignFileLost` is an input).
* The inheritance cleanup does not bring back a section whose value was null, nor a missing list value that
  the entry replaced (`ConfigInheritance.ReverseUndo`, exact condition). Two calls cleaned up
  oldest first restore the configs exactly if both were plain in that sense and, where they met in one list, were
  for different modules of which one was listed before (`ConfigInheritance.OldestFirst`). Otherwise an entry stays:
  the older one of the same module, the newer one of two new modules (`ConfigInheritance.OldestFirstExample`).
* A rewind marker torn right before its newline counts as present, so the intent is removed; the next
  best-effort append glues its record to it and both are lost (`JsonLines.TornNewlineLoses`; the exact
  condition is `JsonLines.PlainAppend`).
* A claim whose load failed writes a state with its own row only: stored rows and the sessions' current events
  are lost (`AttentionStore.FailedLoad`, exact conditions and example). Every event has at most one winner, whatever
  is claimed later, exactly if no such claim met a stored row (`AttentionStore.FailedLoads`).
* A standalone usage record directly followed by a bare usage-bearing block is charged in its place or lost
  (`CostReplay.EachOnce` gives the exact condition, `CostReplay.ChargedOnce` the amount). This includes a
  response with its only record before a later block, when its first block carries usage.
* A fuzzy score of n hits is at most 21n - 6, one boundary bonus less than 21n, because a first hit is never
  both at the start and after a break.

## Model

| member | source | states |
|---|---|---|
| CheckpointData.StatesEqualExact | src/amplifier_runtime/kernel/checkpoints.py:1703-1727 | the comparison with identity is equality of capturable states, the one without is equality up to the inode |
| Lineage.ChainConcat | src/amplifier_runtime/kernel/checkpoints.py:383-410 | a path's chain over consecutive checkpoints is the concatenation of its chains in each |
| Lineage.RebaseChain | src/amplifier_runtime/kernel/checkpoints.py:1171-1197 | rebasing a path retargets exactly the last after-state of its own chain and leaves every other path's chain alone |
| Lineage.RebaseAllSuffix | src/amplifier_runtime/kernel/checkpoints.py:1171-1197 | rebasing the whole prefix looks, from any later start, like rebasing from that start: no chain is retargeted twice or in the wrong checkpoint |
| RebaseLoops.RebasePredecessors | src/amplifier_runtime/kernel/checkpoints.py:1171-1197 | the reversed triple loop over manifests, operations and changes finds the last change of each path and rewrites only that; only manifests reported as changed differ |
| Timeline.BeginHolds | src/amplifier_runtime/kernel/checkpoints.py:149-207 | starting a checkpoint keeps the undo invariant: from every checkpoint, each chain is continuous, ends at the current file and starts from the file's state when that checkpoint began |
| Timeline.CallHolds | src/amplifier_runtime/kernel/checkpoints.py:843-960 | a tracked call with distinct captured targets keeps the undo invariant |
| Timeline.UndoReaches | src/amplifier_runtime/kernel/checkpoints.py:342-531 | a complete restore from any checkpoint writes back the file states of that checkpoint's beginning, up to inode |
| Timeline.RestoreHolds | src/amplifier_runtime/kernel/checkpoints.py:525-571 | after a restore the earlier checkpoints, rebased to the states just written, still satisfy the undo invariant |
| Timeline.RestoresCompose | src/amplifier_runtime/kernel/checkpoints.py:525-571 | restoring a later checkpoint and then an earlier one leaves the same file contents as restoring the earlier one at once |
| Timeline.AnchorsHold | src/amplifier_runtime/kernel/checkpoints.py:560-586 | empty anchors appended by a code-only restore keep the invariant with the restored files as their beginnings |
| Timeline.PruneHolds | src/amplifier_runtime/kernel/checkpoints.py:1632-1648 | dropping the oldest checkpoints keeps the invariant for the rest |
| Timeline.FoldKeepsMeaning | src/amplifier_runtime/kernel/checkpoints.py:680-731 | folding hidden checkpoints into the last visible one gives every kept checkpoint the same changes and the same warnings |
| Timeline.FoldHolds | src/amplifier_runtime/kernel/checkpoints.py:680-731 | so folding keeps the undo invariant for all that stay visible |
| CheckpointDisk.CommitIsAtomic | src/amplifier_runtime/kernel/checkpoints.py:1455-1482 | an exit after any single durable write of the branch commit, and any number of exits during recovery, leave a store that recovery brings to exactly the new index and manifests if the transaction record was written, and exactly the old ones otherwise |
| CheckpointDisk.NothingToRecover | src/amplifier_runtime/kernel/checkpoints.py:1473-1482 | without a transaction record recovery writes nothing |
| CheckpointDisk.OverwriteAgain | src/amplifier_runtime/kernel/checkpoints.py:1570-1585 | redoing any prefix of the manifest writes before the whole list changes nothing in the outcome |
| CheckpointSafety.TransactionStaged | src/amplifier_runtime/kernel/checkpoints.py:1455-1471 | staging a covered transaction keeps the store invariant, seen from before and from after the commit |
| CheckpointSafety.BlobDropped | src/amplifier_runtime/kernel/checkpoints.py:1659-1673 | dropping a blob nobody refers to keeps every before-image restorable |
| CheckpointSafety.ManifestDropped | src/amplifier_runtime/kernel/checkpoints.py:1632-1648 | dropping a manifest outside the index keeps the store invariant |
| CheckpointStore.Store.Put | src/amplifier_runtime/kernel/checkpoints.py:1587-1600 | each durable write is one step and each step keeps the store invariant, so a process may end after any of them |
| CheckpointStore.Store.constructor | src/amplifier_runtime/kernel/checkpoints.py:80-167 | an empty store satisfies the invariant |
| CheckpointStore.Store.Reopen | src/amplifier_runtime/kernel/checkpoints.py:1473-1482 | opening whatever a crash left completes a staged transaction and yields a valid store |
| CheckpointStore.Store.Begin | src/amplifier_runtime/kernel/checkpoints.py:149-207 | a fresh id is recorded last in order and in used with an empty manifest, the oldest checkpoints beyond the limit go with their records, and all others keep manifest and records; a used id or an open checkpoint is refused without a change |
| CheckpointStore.Store.HandlePre | src/amplifier_runtime/kernel/checkpoints.py:843-911 | a call that cannot be recorded is warned about under the unknown path; otherwise every target is captured as it is unless it cannot be, or the checkpoint has no room for it, and the record joins the others after its blobs |
| CheckpointStore.Store.SnapshotTargets | src/amplifier_runtime/kernel/checkpoints.py:867-911 | a target is refused exactly if it cannot be captured or is one snapshot or some bytes too many after those before it; otherwise it is held as it is, both counters grow by exactly what is held, and exactly the bytes of held files are stored |
| CheckpointStore.Store.HandleAfter | src/amplifier_runtime/kernel/checkpoints.py:913-960 | of the record of the call, the active checkpoint's own if it has one, every target is a recorded change from its pre-image to its present state, or unchanged, or warned about, and nothing else is recorded; that record goes and no other |
| CheckpointStore.Store.Finish | src/amplifier_runtime/kernel/checkpoints.py:238-288 | every path of every call of the checkpoint still open is warned about, and no other path; the checkpoint is marked finished and otherwise unchanged, its records and the unreferenced blobs go |
| CheckpointStore.Store.FinalizeIncomplete | src/amplifier_runtime/kernel/checkpoints.py:628-654 | exactly the listed checkpoints a crash left unfinished are closed in the same way |
| CheckpointStore.Store.CommitRestoreState | src/amplifier_runtime/kernel/checkpoints.py:1455-1471 | the record is staged, applied and removed, ending in the transaction's index and manifests; its durable writes are, in order, the ones whose atomicity is proved |
| CheckpointStore.Store.ApplyRestoreTransaction | src/amplifier_runtime/kernel/checkpoints.py:1570-1585 | manifests first, then the index, then the record is removed |
| CheckpointStore.Store.ReconcileVisible | src/amplifier_runtime/kernel/checkpoints.py:680-731 | succeeds exactly if none is open and the visible ids of the index are its first k for some k; then exactly those stay, and the last of them stands for all changes and warnings of what is hidden, unfinished calls included |
| CheckpointStore.Store.Restore | src/amplifier_runtime/kernel/checkpoints.py:342-622 | refuses while a checkpoint is open or the id is unknown; otherwise the files end as everybody's writes replayed, the restore's own being allowed compare-and-swaps, every touched path is accounted for, an undisturbed restore gives every file its fate, and history advances: a complete restore consumes the selected checkpoints, an incomplete one takes from them exactly the changes of paths that are not skipped, and no warning |
| CheckpointStore.Store.AdvanceHistory | src/amplifier_runtime/kernel/checkpoints.py:525-586 | the branch that is committed matches what happened to the files: earlier checkpoints keep all but the ends of restored chains, and an incomplete branch keeps its warnings, calls and flags |
| CheckpointStore.Store.Prune | src/amplifier_runtime/kernel/checkpoints.py:1632-1648 | the oldest checkpoints beyond the limit leave the index, then their pending records and manifests go, with the invariant after each write |
| CheckpointStore.Store.CollectGarbage | src/amplifier_runtime/kernel/checkpoints.py:1659-1673 | exactly the stored blobs remain that some recorded change starts or ends with, or some open call holds |
| RestoreFiles.CollectChains | src/amplifier_runtime/kernel/checkpoints.py:383-410 | one chain per touched path, in order of first appearance |
| RestoreFiles.PlanPath | src/amplifier_runtime/kernel/checkpoints.py:408-446 | a file is planned only with an unbroken chain; undisturbed, the answer is skip for a broken chain, an uncapturable file or one that is neither at the recorded end nor at the wanted image, and what to write otherwise |
| RestoreFiles.RemoveFile | src/amplifier_runtime/kernel/checkpoints.py:1208-1222 | a removal that reports success unlinked a file that was exactly the recorded one, and returns what is there then |
| RestoreFiles.ApplyRestore | src/amplifier_runtime/kernel/checkpoints.py:1199-1270 | a file changes only if it is still exactly the last recorded after-state, and only to the earliest before-state; undisturbed, it succeeds exactly when the wanted image is no file, or is one whose bytes are stored and whose directory is the one the file is in |
| RestoreFiles.ConfirmIdempotent | src/amplifier_runtime/kernel/checkpoints.py:1272-1292 | a file that already holds the wanted image is accepted only if it can be captured so twice |
| RestoreFiles.ConfirmRestored | src/amplifier_runtime/kernel/checkpoints.py:497-511 | a path whose file changed again before the end moves from restored to skipped |
| RestoreFiles.RestoreWorkspace | src/amplifier_runtime/kernel/checkpoints.py:383-531 | with arbitrary outside writes: the workspace ends as all writes replayed in order, each own one a compare-and-swap from the end to the start of an unbroken chain nobody warned about, and every touched path is in exactly one of restored and skipped; undisturbed, every file meets its fate, and the result is clean exactly if nothing was skipped |
| RestoreFates.Frame | src/amplifier_runtime/kernel/checkpoints.py:383-446 | a restore never touches a file without recorded changes, with a broken chain, or warned about: it ends as others made it, and as it was if nobody else wrote |
| RestoreFates.FullFromFates | src/amplifier_runtime/kernel/checkpoints.py:383-531 | without warnings and with every file at its recorded end or already back, the fates are a complete restore: every touched file is back and no other changes |
| RestoreSpec.SmallerTransaction | src/amplifier_runtime/kernel/checkpoints.py:540-560 | committing only the rebased manifests that changed equals committing all of them |
| CheckpointLaws.CaptureLaw | src/amplifier_runtime/kernel/checkpoints.py:867-911 | whatever the targets: in order, each is refused for lack of room or of a safe capture only, and counters and stored bytes are those of the held ones |
| CheckpointLaws.FitsExactly | src/amplifier_runtime/kernel/checkpoints.py:875-898 | a call is captured completely exactly if every path can be captured and its paths and their bytes fit into what is left of the limits; then every target is the file as it is and the counters grow by exactly that |
| CheckpointLaws.PostHookLaw | src/amplifier_runtime/kernel/checkpoints.py:913-960 | after a call no target is lost: its change is recorded, or it is unchanged, or it is warned about |
| CheckpointLaws.FinishAllLaw | src/amplifier_runtime/kernel/checkpoints.py:252-287 | closing any list of checkpoints warns about exactly the paths of their open calls |
| RestoreLaws.BeginLaw | src/amplifier_runtime/kernel/checkpoints.py:149-207 | beginning and pruning touch nothing but the new and the oldest checkpoints |
| RestoreLaws.FoldLaw | src/amplifier_runtime/kernel/checkpoints.py:680-731 | folding away any hidden branch loses no change and no warning, and leaves tombstones |
| RestoreLaws.AdvanceLaw | src/amplifier_runtime/kernel/checkpoints.py:513-586 | a restore rewrites history only as it says: consumed checkpoints, or the chains of skipped paths with every warning; earlier chains end in the states just written |
| StepSafety.BeginSafe | src/amplifier_runtime/kernel/checkpoints.py:149-207 | a begin with its pruning, seen as one step, keeps the storage invariant |
| StepSafety.CallSafe | src/amplifier_runtime/kernel/checkpoints.py:843-960 | so does a recorded call: its before-images were stored |
| StepSafety.FinishSafe | src/amplifier_runtime/kernel/checkpoints.py:238-288 | so does a finish with its collection |
| StepSafety.FoldSafe | src/amplifier_runtime/kernel/checkpoints.py:680-731 | so does the commit of a fold, collected or not |
| StepSafety.AdvanceSafe | src/amplifier_runtime/kernel/checkpoints.py:525-586 | so does the commit of a restore, collected or not |
| UndoRuns.StepKeeps | src/amplifier_runtime/kernel/checkpoints.py:149-622 | every event of a run without interference, exits included, keeps the undo invariant, the storage invariant and the store bookkeeping; an event supposes none of them |
| UndoRuns.RunSound | src/amplifier_runtime/kernel/checkpoints.py:149-622 | so every state of every run has them |
| UndoRuns.UndoTheorem | src/amplifier_runtime/kernel/checkpoints.py:342-622 | in any run of begins, tracked calls, finishes, restores, branch cuts and process exits (between events, among the file writes of a restore, inside the commit of a fold or a restore, and inside recoveries), restoring a checkpoint skips nothing and brings every file back to its state when the checkpoint began, up to inode |
| UndoRuns.PerformBegin | src/amplifier_runtime/kernel/checkpoints.py:149-207 | the store's begin is a step of the run model |
| UndoRuns.PerformCall | src/amplifier_runtime/kernel/checkpoints.py:843-960 | pre-hook, edit and post-hook of a call that fits together are a step of the run model |
| UndoRuns.PerformRestore | src/amplifier_runtime/kernel/checkpoints.py:342-622 | an undisturbed restore of the store is a step of the run model |
| UndoRuns.PerformFinish | src/amplifier_runtime/kernel/checkpoints.py:238-288 | the store's finish is a step of the run model |
| UndoRuns.PerformHide | src/amplifier_runtime/kernel/checkpoints.py:680-731 | the store's branch folding is a step of the run model |
| UndoRuns.PerformReopen | src/amplifier_runtime/kernel/checkpoints.py:1473-1482 | so is opening what a process left behind, with or without an open checkpoint |
| CheckpointEdges.RepeatedTarget | src/amplifier_runtime/kernel/checkpoints.py:867-960 | one call recording a path n times leaves a continuous chain exactly when the path was not changed or n is at most one |
| CheckpointEdges.SilentRewrite | src/amplifier_runtime/kernel/checkpoints.py:937-960 | an edit that leaves contents equal is not recorded; the next recorded change joins the chain exactly when the inode was kept |
| CheckpointEdges.SilentRewriteLast | src/amplifier_runtime/kernel/checkpoints.py:408-446 | with no later edit, an undisturbed restore brings the file back exactly when the inode was kept, and otherwise leaves it alone and skips it |
| CheckpointEdges.ReplacedDirectory | src/amplifier_runtime/kernel/checkpoints.py:1199-1270 | undisturbed, a file is written and yet skipped exactly when it is at its recorded end, may be restored, its wanted bytes are stored and its directory is not the one of the start |
| CheckpointEdges.GivenUpForGood | src/amplifier_runtime/kernel/checkpoints.py:408-446 | a file so given up is skipped by every retry |
| CheckpointEdges.ReplacedDirectoryExample | src/amplifier_runtime/kernel/checkpoints.py:1199-1270 | an edit whose file's directory was replaced: written, reported as skipped, skipped again |
| CheckpointEdges.RemovedAnywhere | src/amplifier_runtime/kernel/checkpoints.py:1208-1222 | a file absent at the start is removed and reported as restored whatever its directory; the report shows the recorded image exactly if the directory is the same |
| RestoreLaws.RetryChain | src/amplifier_runtime/kernel/checkpoints.py:513-531 | what an incomplete restore leaves to a retry is the whole chain of every skipped path and nothing of the others |
| CheckpointEdges.WarnedIsSkipped | src/amplifier_runtime/kernel/checkpoints.py:371-382 | under any interference a path that was warned about is skipped and not written, and the restore is not clean |
| CheckpointEdges.WarnedForGood | src/amplifier_runtime/kernel/checkpoints.py:513-531 | so it stays: after an incomplete restore, any restore from there or from an earlier checkpoint skips the path again and is not clean |
| CheckpointEdges.ReportTrusted | src/amplifier_runtime/kernel/checkpoints.py:497-511 | under any interference a usable path reported as restored was seen with its wanted image, exactly if the chain is not one that was absent at the start and is not so at the end |
| CheckpointEdges.AnythingReported | src/amplifier_runtime/kernel/checkpoints.py:1208-1222 | whatever is created right after a removal is reported as the restored state |
| CheckpointEdges.ReportInherited | src/amplifier_runtime/kernel/checkpoints.py:1171-1197 | a reported state becomes the end of the path's earlier chain, and an earlier restore then leaves the file alone only if it shows the wanted image, or none is wanted and there is none, or the wanted one cannot be written |
| CheckpointEdges.ForeignFileLost | src/amplifier_runtime/kernel/checkpoints.py:497-571 | a file deleted in one turn and created in the next: undoing both loses what somebody else put there in between |
| RestoreFates.ExitLeavesPartly | src/amplifier_runtime/kernel/checkpoints.py:452-496 | after any number of its allowed writes an undisturbed restore of restorable chains leaves each file as it was or with its wanted image |
| RestoreFates.RetryCompletes | src/amplifier_runtime/kernel/checkpoints.py:1484-1549 | from such a workspace a quiet second restore reaches what the first would have |
| RestoreFates.RetryAfterExit | src/amplifier_runtime/kernel/checkpoints.py:1484-1549 | so repeating a restore that an exit cut short after any of its writes completes it |
| LiveMcp.MountWrappers | src/amplifier_runtime/kernel/live_mcp.py:704-714 | reports a prefix of the wrappers, all of it unless a mount raised; those are what was mounted, as long as nothing was out of order |
| LiveMcp.UnmountNames | src/amplifier_runtime/kernel/live_mcp.py:716-726 | reports a prefix of the names, all of it unless an unmount raised; those are what was taken down, as long as nothing was out of order |
| LiveMcp.RemountSubset | src/amplifier_runtime/kernel/live_mcp.py:728-740 | as long as nothing is out of order, puts back only wrappers the caller lists, each under its own name |
| LiveMcp.Reconciler.Discover | src/amplifier_runtime/kernel/live_mcp.py:379-426 | hands on the listed capabilities exactly if they are accepted: one per name and all of this server; a started manager is handed on in flight, or stopped, or stranded |
| LiveMcp.Reconciler.Upsert | src/amplifier_runtime/kernel/live_mcp.py:428-557 | ends in the old or the intended ownership; while no rollback failed and nothing was out of order, a failed call leaves the tool map as it was and tools of others never change; an unknown connection is only reported after a failed rollback. Where mounts, unmounts and stops succeed, the call does exactly if nothing changed, or the server may be handled here, its discovery is accepted and none of its names is held by a tool that is not its own |
| LiveMcp.Reconciler.Install | src/amplifier_runtime/kernel/live_mcp.py:488-557 | a discovered server goes live, in place of its old self if it has one, exactly if no name collides with somebody else's tool, as long as nothing fails |
| LiveMcp.Reconciler.ReplaceOwned | src/amplifier_runtime/kernel/live_mcp.py:559-623 | either the new wrappers and manager replace the old ones, or the old ones are mounted again; the former whenever no mount, unmount or stop fails |
| LiveMcp.Reconciler.UndoReplacement | src/amplifier_runtime/kernel/live_mcp.py:559-623 | a failed replacement takes the new wrappers down and puts the old ones back |
| LiveMcp.Reconciler.RemoveOwned | src/amplifier_runtime/kernel/live_mcp.py:664-702 | a server whose tools cannot be unmounted or whose manager cannot be stopped stays owned and mounted; otherwise it goes |
| LiveMcp.Reconciler.AddOwned | src/amplifier_runtime/kernel/live_mcp.py:510-545 | a new server ends owned with all its wrappers mounted, or every wrapper is taken down again; the former whenever nothing fails |
| LiveMcp.Reconciler.Discard | src/amplifier_runtime/kernel/live_mcp.py:625-662 | only servers this object owns are removed; where nothing fails it succeeds exactly for those and for servers that are provably not there |
| LiveMcp.Reconciler.Close | src/amplifier_runtime/kernel/live_mcp.py:244-259 | after any failures, and whatever mounts and unmounts really did, every started manager is still owned, stranded or stopped, exactly one of them; without failures nothing is left and every manager is stopped |
| LiveMcp.Reconciler.Serve | src/amplifier_runtime/kernel/live_mcp.py:144-259 | the same for any sequence of add, reload, remove and close |
| LiveMcp.FreshForeign | src/amplifier_runtime/kernel/live_mcp.py:502-557 | mounting a new server's wrappers under free names leaves the tools of others alone |
| ProviderMount.Coordinator.RestoreMapping | src/amplifier_runtime/kernel/bundle_compose.py:164-179 | whatever the map holds, it ends as the expected one, in its order |
| ProviderMount.Coordinator.Rollback | src/amplifier_runtime/kernel/bundle_compose.py:458-510 | whatever a failed mount did, the providers are the old ones in the old order |
| ProviderMount.Coordinator.MountProvider | src/amplifier_runtime/kernel/bundle_compose.py:513-628 | all or nothing: the old ordered map, or the old map followed by the target with a priority strictly above all others; the latter exactly when the name was free, the module's mount did not raise and left exactly one slot with a provider object that was not there, and that provider takes the priority |
| ProviderMount.Coordinator.Cleanup | src/amplifier_runtime/kernel/bundle_compose.py:603-628 | takes out its own provider only and keeps the order of the rest |
| ProviderMount.SelectedIsStableLeast | src/amplifier_runtime/kernel/config.py:893-898 | the selected provider is the first of those with the least priority |
| ProviderMount.StaysSelected | src/amplifier_runtime/kernel/bundle_compose.py:572-590 | a live-mounted provider never changes which provider is selected |
| ProviderMount.SomeCleanups | src/amplifier_runtime/kernel/bundle_compose.py:603-628 | running some of the cleanups in any order leaves the base and the other live providers in order |
| ProviderMount.AnyCleanupOrder | src/amplifier_runtime/kernel/bundle_compose.py:603-628 | running all of them in any order gives back the base |
| ConfigInheritance.Session.Inherit | src/amplifier_runtime/kernel/bundle_compose.py:270-329 | the recorded changes are those of the target list in order; it fails exactly if some target's section is there and no list, and then undoes them newest first |
| ConfigInheritance.InheritedOnce | src/amplifier_runtime/kernel/bundle_compose.py:270-307 | after a successful call every target carries the entry, and no list got it twice however many targets share it |
| ConfigInheritance.Session.Cleanup | src/amplifier_runtime/kernel/bundle_compose.py:319-328 | the returned closure undoes the recorded changes newest first |
| ConfigInheritance.UndoMutation | src/amplifier_runtime/kernel/bundle_compose.py:282-307 | one change undone at once restores the config exactly if and only if it met no null section and replaced no missing value |
| ConfigInheritance.ReverseUndo | src/amplifier_runtime/kernel/bundle_compose.py:319-328 | the same for any sequence of changes undone in reverse |
| ConfigInheritance.InheritanceUndo | src/amplifier_runtime/kernel/bundle_compose.py:270-329 | the same for any sequence of calls whose cleanups run in reverse |
| ConfigInheritance.FailedCallUndone | src/amplifier_runtime/kernel/bundle_compose.py:308-317 | a call that fails half-way leaves the configs as they were, under the same condition |
| ConfigInheritance.NullSectionLost | src/amplifier_runtime/kernel/bundle_compose.py:286-289 | a section present with a null value comes back as absent |
| ConfigInheritance.OldestFirst | src/amplifier_runtime/kernel/bundle_compose.py:282-328 | two calls for any modules and configs, cleaned up oldest first, restore exactly if and only if both are plain and, where they meet in one list, the modules differ and one was listed before; otherwise it says which entry stays |
| ConfigInheritance.OldestFirstExample | src/amplifier_runtime/kernel/bundle_compose.py:319-328 | two new tools in a config without tools: the newer entry stays for good |
| ConfigInheritance.CleanupTouchesOwn | src/amplifier_runtime/kernel/bundle_compose.py:319-328 | in any order, a cleanup step changes nothing but the very entry it inserted |
| ConfigInheritance.OthersSurvive | src/amplifier_runtime/kernel/bundle_compose.py:319-328 | in any order, an entry no cleanup inserted survives every cleanup |
| JsonLines.NoObjectInside | src/amplifier_runtime/kernel/persistence.py:825-836 | no proper prefix of a JSON object is a JSON object (section 4 of RFC 8259) |
| JsonLines.TornLine | src/amplifier_runtime/kernel/persistence.py:825-836 | whatever part of a record's line reached the file reads as the record if it is all there, and as nothing otherwise |
| JsonLines.TornAppend | src/amplifier_runtime/kernel/persistence.py:753-776 | an append torn at any character leaves all earlier records readable |
| JsonLines.PlainAppend | src/amplifier_runtime/kernel/persistence.py:778-798 | the best-effort append keeps what was read before and adds its record if and only if the file's unfinished line is blank |
| JsonLines.TornNewlineLoses | src/amplifier_runtime/kernel/persistence.py:764-798 | a record torn right before its newline reads as present, and the next best-effort append loses it |
| RewindIntent.SessionStore.BeginRewindIntent | src/amplifier_runtime/kernel/persistence.py:604-646 | stages, in one durable step, the messages in their order and as often as they were said, all but system and developer prompts |
| RewindIntent.SessionStore.ArmRewindIntent | src/amplifier_runtime/kernel/persistence.py:648-657 | arms only a staged intent of this session that was not cancelled |
| RewindIntent.SessionStore.CancelRewindIntent | src/amplifier_runtime/kernel/persistence.py:659-679 | whether or not the file could be removed, the intent can never be applied again |
| RewindIntent.SessionStore.WriteAll | src/amplifier_runtime/kernel/persistence.py:315-322 | short writes are continued; an exit leaves a prefix |
| RewindIntent.SessionStore.AppendEventCritical | src/amplifier_runtime/kernel/persistence.py:753-776 | however it ends, all earlier records read as before, followed by the new one or not; at its end the record is there on a finished line |
| RewindIntent.SessionStore.Save | src/amplifier_runtime/kernel/persistence.py:444-486 | transcript and metadata are each the old or the new one, never a mixture; the new transcript is everything but system and developer prompts, and the old one is the backup |
| RewindIntent.SessionStore.ReconcileRewindIntent | src/amplifier_runtime/kernel/persistence.py:681-751 | cancelled and unarmed intents are removed without effect; an armed one is completed, or left under way by an exit |
| RewindIntent.SessionStore.CompleteArmed | src/amplifier_runtime/kernel/persistence.py:710-751 | the order of save, append and unlink keeps the rewind repeatable at every exit; at the end the transcript is the staged conversation, the turns are the times the user spoke, and other metadata are as before |
| RewindIntent.SessionStore.EnsureMarker | src/amplifier_runtime/kernel/persistence.py:730-741 | the marker is appended only if its id is not read yet, and is read afterwards |
| RewindIntent.SessionStore.Restarts | src/amplifier_runtime/kernel/persistence.py:488-502 | after any number of attempts cut short at any step or character, one undisturbed attempt completes the rewind |
| RewindIntent.SessionStore.Abandoned | src/amplifier_runtime/kernel/persistence.py:604-709 | over any sequence of staging, arming, cancelling and reopening, with exits anywhere, in which whatever is live is cancelled before the next reopening, no transcript and no log changes |
| RewindIntent.NeverArmed | src/amplifier_runtime/kernel/persistence.py:604-709 | such are all sequences that never arm and stage nothing as ready |
| RewindIntent.CancelledInTime | src/amplifier_runtime/kernel/persistence.py:659-679 | and a cancellation makes harmless whatever was staged or armed since the last reopening |
| RewindIntent.ExactlyOnce | src/amplifier_runtime/kernel/persistence.py:730-751 | after completion the marker's id is read exactly once and every earlier record is read in its order |
| RewindIntent.UnlinkLost | src/amplifier_runtime/kernel/persistence.py:742-749 | an unlink undone by a power loss leaves a rewind that can be completed again |
| RewindIntent.OnlyPromptsGo | src/amplifier_runtime/kernel/persistence.py:453-459 | whatever the messages, those persisted are a subsequence in which every message but the prompts occurs as often as before, and no prompt |
| RewindIntent.ConversationIdempotent | src/amplifier_runtime/kernel/persistence.py:604-646 | saving staged messages saves them as staged |
| RewindIntent.TurnsCounted | src/amplifier_runtime/kernel/persistence.py:717-724 | the turns counted are the positions at which the user spoke |
| RewindIntent.AsStaged | src/amplifier_runtime/kernel/persistence.py:457-459 | messages are persisted as they are exactly if there is no system or developer prompt among them |
| RewindReplay.DropRewoundEvents | src/amplifier_runtime/kernel/events.py:793-831 | the loop rebuilds the live turn ledger's events |
| RewindReplay.RunEvents | src/amplifier_runtime/kernel/events.py:793-831 | replaying a ledger's own events gives that ledger |
| RewindReplay.DropCompacts | src/amplifier_runtime/kernel/events.py:793-831 | a log may be compacted at any point before it grows further |
| RewindReplay.DropIdempotent | src/amplifier_runtime/kernel/events.py:793-831 | filtering twice is filtering once |
| RewindReplay.DropIsSurvivors | src/amplifier_runtime/kernel/events.py:793-831 | the result is, in log order, the events whose turn every later marker keeps; so no marker is left |
| RewindReplay.NestedRewinds | src/amplifier_runtime/kernel/events.py:803-812 | a deeper rewind makes everything since an earlier one irrelevant |
| AttentionPush.Destination.Enqueue | src/amplifier_runtime/kernel/attention_push.py:288-315 | an acknowledgement is always accepted, a publish only below the limit and before its acknowledgement; the await-point invariant is kept |
| AttentionPush.Destination.AcceptClear | src/amplifier_runtime/kernel/attention_push.py:291-302 | a clear supersedes queued publishes of its event and is queued once |
| AttentionPush.Destination.ResumeWorker | src/amplifier_runtime/kernel/attention_push.py:317-343 | the worker never turns without a delivery and every turn brings the lanes closer to empty |
| AttentionPush.Destination.StartDelivery | src/amplifier_runtime/kernel/attention_push.py:320-331 | clears go first, each lane in order |
| AttentionPush.Destination.FinishDelivery | src/amplifier_runtime/kernel/attention_push.py:330-343 | a delivery ends the same way whether it succeeded or raised |
| AttentionPush.Destination.Run | src/amplifier_runtime/kernel/attention_push.py:288-343 | over every interleaving: wakeup is set exactly when a lane is not empty, drained exactly when both are empty and nothing is in flight, at most 128 publishes wait |
| AttentionPush.Destination.Drain | src/amplifier_runtime/kernel/attention_push.py:375-379 | left alone, the worker empties both lanes; then every acknowledged event's clear was started and every other accepted publish as often as it was accepted |
| AttentionPush.NoLatePublish | src/amplifier_runtime/kernel/attention_push.py:288-343 | no publish of an event starts after its acknowledgement was accepted |
| AttentionPush.ClearsAttempted | src/amplifier_runtime/kernel/attention_push.py:288-343 | every accepted acknowledgement is queued or its clear was started afterwards |
| AttentionPush.PublishesInOrder | src/amplifier_runtime/kernel/attention_push.py:303-331 | publishes start in the order of their acceptance, each at most once |
| AttentionPush.NothingDropped | src/amplifier_runtime/kernel/attention_push.py:288-331 | unless its event was acknowledged, an accepted publish is queued or was started, exactly as often as it was accepted |
| AttentionStore.Machine.TryLock | src/amplifier_runtime/kernel/file_lock.py:44-65 | the marker is created only where there is none |
| AttentionStore.Machine.Load | src/amplifier_runtime/kernel/attention_store.py:107-129 | a load gives the present state, or an empty one after any problem |
| AttentionStore.Machine.Mutate | src/amplifier_runtime/kernel/attention_store.py:162-215 | a claim or acknowledgement decided on the loaded state takes effect on the present one, or on an empty one if its load failed |
| AttentionStore.Machine.Release | src/amplifier_runtime/kernel/file_lock.py:66-71 | leaving removes the process's own marker |
| AttentionStore.Machine.Run | src/amplifier_runtime/kernel/attention_store.py:149-215 | in any interleaving of processes, deaths and failing loads and writes included, at most one is inside and all answers are those of running the calls one after another |
| AttentionStore.RowsStayBetween | src/amplifier_runtime/kernel/attention_store.py:149-215 | while no claim after a failed load meets a stored row: between any two moments no row is lost and no acknowledgement is taken back |
| AttentionStore.RowsStay | src/amplifier_runtime/kernel/attention_store.py:149-215 | and a session's current event is always a stored row of that session |
| AttentionStore.OneWinner | src/amplifier_runtime/kernel/attention_store.py:149-182 | and at most one caller is ever told that it inserted an event |
| AttentionStore.ClaimStays | src/amplifier_runtime/kernel/attention_store.py:149-182 | and whoever claims an event is told of the row that stays stored from then on, and has won exactly if there was none, with the row as claimed |
| AttentionStore.AcknowledgedForGood | src/amplifier_runtime/kernel/attention_store.py:184-215 | and an acknowledgement whose load succeeds marks the session's current event for good, and reports it unless it was marked already |
| AttentionStore.AcknowledgedBySomebody | src/amplifier_runtime/kernel/attention_store.py:184-215 | and no event counts as acknowledged unless it was stored or claimed so or a caller acknowledged it |
| AttentionStore.CurrentIsLatest | src/amplifier_runtime/kernel/attention_store.py:149-182 | and a session's current event is the last one that was won for it |
| AttentionStore.FailedLoads | src/amplifier_runtime/kernel/attention_store.py:107-182 | after a history every event keeps at most one winner, whatever is claimed later, if and only if no claim after a failed load met a stored row |
| AttentionStore.FailedLoad | src/amplifier_runtime/kernel/attention_store.py:107-182 | a claim after a load that failed always wins, keeps the stored rows if and only if the only row there, if any, is the claimed one, and the current events if and only if no other session had one and this one's was the same |
| CostReplay.SumPriorCost | src/amplifier_runtime/kernel/cost.py:312-390 | the loop with its one-slot buffer is the replay automaton |
| CostReplay.UsageFromBlock | src/amplifier_runtime/kernel/events.py:881-902 | a block stands for a usage, its own, exactly if it carries one and is the final block of its response |
| CostReplay.RunResponse | src/amplifier_runtime/kernel/cost.py:338-385 | what one whole response of any historical shape adds, whatever is pending before it |
| CostReplay.ReplayCounts | src/amplifier_runtime/kernel/cost.py:312-390 | for every concatenation of responses the total is that of the counted usages |
| CostReplay.EachOnce | src/amplifier_runtime/kernel/cost.py:312-390 | every response is charged once, in order, if and only if no standalone record is directly followed by a bare usage-bearing block |
| CostReplay.ChargedOnce | src/amplifier_runtime/kernel/cost.py:312-390 | otherwise the total falls short by exactly the cost stated |
| CostReplay.NothingPriced | src/amplifier_runtime/kernel/cost.py:312-390 | there is no total exactly if no counted usage has a reported cost or a price |
| CostReplay.CostTracker.StartTurn | src/amplifier_runtime/kernel/cost.py:264-267 | a turn starts from zero and the session totals stay |
| CostReplay.CostTracker.EndTurn | src/amplifier_runtime/kernel/cost.py:269-274 | the finished turn is handed out and the session totals stay |
| CostReplay.CostTracker.RecordUsage | src/amplifier_runtime/kernel/cost.py:283-301 | a reported cost is taken as it is, otherwise the table's; a usage with neither costs nothing and is counted, in the session and the turn |
| CostReplay.RestoreSessionCost | src/amplifier_runtime/kernel/cost.py:393-412 | the files' totals are seeded together, and only if positive |
| CostReplay.LiveSession | src/amplifier_runtime/kernel/cost.py:283-301 | a live session shows the sum of its responses' costs |
| CostReplay.ResumedSession | src/amplifier_runtime/kernel/cost.py:393-412 | a resumed session whose history is split over two files shows what the live one showed, less exactly what the replay misses |
| GitYield.DeltaFrom | src/amplifier_runtime/kernel/git_yield.py:46-63 | the loop sums gains and losses over the changed files, in any order |
| GitYield.LastCounts | src/amplifier_runtime/kernel/git_yield.py:49-50 | a file listed twice counts as it is listed last |
| GitYield.Reversed | src/amplifier_runtime/kernel/git_yield.py:46-63 | the reverse turn swaps additions and deletions |
| GitYield.NetChange | src/amplifier_runtime/kernel/git_yield.py:46-63 | additions less deletions are the change of the net line total |
| GitYield.Telescopes | src/amplifier_runtime/kernel/git_yield.py:46-63 | so over any run of turns they add up to the change between first and last snapshot |
| GitYield.Triangle | src/amplifier_runtime/kernel/git_yield.py:46-63 | files, additions and deletions each obey the triangle inequality through any snapshot |
| GitYield.NothingYielded | src/amplifier_runtime/kernel/git_yield.py:46-63 | a zero yield means equal snapshots, and the other way round |
| Fuzzy.FuzzyIndices | src/amplifier_runtime/kernel/fuzzy.py:24-43 | fails exactly when no embedding exists, and otherwise returns the pointwise least one |
| Fuzzy.MatchesSubsequence | src/amplifier_runtime/kernel/fuzzy.py:24-43 | an embedding exists exactly when the pattern is a subsequence |
| Fuzzy.FuzzyScore | src/amplifier_runtime/kernel/fuzzy.py:46-72 | the loop's score is the closed form over start, adjacent hits, hits after a break, and spread |
| Fuzzy.ScoreBound | src/amplifier_runtime/kernel/fuzzy.py:46-72 | n hits score at most 21n - 6 |
| Fuzzy.ScoreReached | src/amplifier_runtime/kernel/fuzzy.py:46-72 | and that bound is reached for every n |
| Fuzzy.LaterCosts | src/amplifier_runtime/kernel/fuzzy.py:62-71 | a last hit that comes later, with no bonus in either place, costs exactly the distance |

## Left out

Weaker than the code or the design, by member:

- RestoreFiles.ApplyRestore: the environment may act between captures but not between the last capture and the rename that follows it, because that pair of system calls is taken as one step.
- CheckpointStore.Store.Reopen: repeating the restore an unfinished journal names is not part of opening; in runs it belongs to the restore itself.
- CheckpointStore.Store.Begin: the recovery-required gate and the warning about a deferred pruning are not modelled.
- CheckpointStore.Store.HandlePre: tool-specific path extraction and path resolution are an input (`Resolved`), and a file above the size limit is one the workspace shows as skipped.
- CheckpointStore.Store.HandleAfter: the in-memory copy of pending records is not kept beside the durable one; the active checkpoint's record is looked up first, then any with that call id.
- CheckpointStore.Store.ReconcileVisible: the staged intent that repeats it after a crash is not modelled.
- CheckpointStore.Store.Restore: the restore journal's contents, its recovery and the recovery-required gate are not modelled; only that an unwritable journal stops the files that follow.
- CheckpointStore.Store.Prune: the retention of retired tombstones and the warning about a deferred pruning are not modelled.
- UndoRuns.UndoTheorem: an exit inside a call, a begin, a finish or the pruning is no event of a run.
- LiveMcp.MountWrappers: what is mounted is not claimed once a mount took effect and then raised or others changed tools meanwhile; cancellation of the task is not modelled.
- LiveMcp.UnmountNames: the same for an unmount.
- LiveMcp.Reconciler.Discover: what a manager answers is an input; a capability whose own name differs from the listed one is one of the refused answers.
- LiveMcp.Reconciler.Upsert: the upstream `mcp.reconcile` capability is not modelled, and after a failed rollback step, or anything out of order, only the conservation of managers is claimed.
- ProviderMount.Coordinator.MountProvider: the coordinator's own mount and unmount work, and third-party code leaves the priorities of providers already serving alone.
- ConfigInheritance.Session.Inherit: the list of target configs is an input.
- RewindIntent.SessionStore.AppendEventCritical: a tear in the middle of a multi-byte character, at which the strict reader raises, is not modelled; tears are at characters.
- RewindIntent.SessionStore.ReconcileRewindIntent: redaction, image files and the reading of the metadata file are left out, and a write that raises is an exit.
- RewindIntent.ExactlyOnce: a record is identified with the text of its line, and a JSON object is any text with the bracket and string structure of one.
- AttentionPush.Destination.Run: histories end before the destination is closed.
- AttentionStore.Machine.Run: lock markers are never broken as stale.
- CostReplay.SumPriorCost: prices are a function of the usage; the table lookup and a table swapped in mid-session are not modelled.
- CostReplay.CostTracker.StartTurn: the snapshot of the pricing table for the turn is not modelled; one table serves a tracker.
- CostReplay.CostTracker.EndTurn: the clearing of that snapshot is not modelled.
- CostReplay.CostTracker.RecordUsage: prices come from the tracker's one table.
- Fuzzy.FuzzyIndices: works on strings already case-folded.

Not modelled at all:

- System calls themselves: directory descriptors, extended attributes, `fsync`, HTTP, git and clipboard subprocesses.
- Hash collisions, user and group ids, file flags.
- `_mount_agent`, `mount_overlay_modules` and ready callbacks, which compose the proved steps in a loop.
- `AttentionStore.save`, which overwrites the file with a snapshot and claims nothing.
- Settings, user interface, demo data, normalisation of hook events, approval, mention expansion: one-branch or display code.
