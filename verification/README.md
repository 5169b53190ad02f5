# A model of the agent session and its tree store

This project models the synchronous core of an agent's session and of the store its transcript is kept in,
and proves what they promise, over every run.

- **The tree store.** A transcript is an append-only tree of rows with one current path. Saves cut and
  branch the path, the session's own rewrites stand in for what they replace, edits begin versions, and a
  switch makes the latest leaf of a version current, also for a block that a compaction carried (`Versions`,
  `TreeStore`, `TreeBranches`, `TreeSwitch`, `CarriedBlocks`, `TreeRuns`, and the class `StoredNode`).
- **The save protocol.** A session marks the rows it changes, a save takes the marks with the rows it
  writes, and a failed save puts them back, while the transcript changes at any time (`DirtyRows`,
  `SaveProtocol`, `SaveRuns`, and the class `SessionPath`).
- **Runs and changed files.** Each stored block is given its run of steps once, and each shell call the
  lists of the files its run and its request changed, whatever order the calls return in (`Runs`, `Paths`,
  `FileTracking`, `FileTrackingProofs`, `TrackedNames`, `ChangedLists`, `ListedFiles`, `Confluence`,
  `Listing`, and the class `Tracking`).
- **The session.** What it admits, what runs next, what a boundary writes and how an action ends (`Inputs`,
  `SessionCores`, `Conservation`, `SessionRuns`, `MessageRuns`, `QueueOrder`, `ArrivedInputs`, `Boundaries`,
  `Admissions`, `Endings`, `FailedTurns`, `Recovery`, and the classes `InputQueue` and `SessionCore`).
- **Beside it.** The delivery of its events and what a hold keeps back (`Bus`, `BusHolds`, and the class
  `EventBus`); who owns its provider runtimes (`Runtimes`); what a provider's events write, a turn's
  requests, retries and tool rounds (`RequestOutputs`, `RetryPolicies`, `Streams`, `Turns`, `TurnRuns`); a
  compaction pass (`Compaction`, `CompactionWindows`); and when the session's own rewrites add a version of
  the tree (`RewriteVersions`).

Each operation that changes state in place is a method of a class, proved equal to a function on values; the
lemmas are about those functions, and the main ones about every run of them.

Awaits happen only between the session's synchronous methods, so a run is any interleaving of those methods
with the worker's and the store's steps. What comes from outside is a parameter: new identities (`next`),
the reports whose ends a look showed (`seen`), what listeners do (`script`), a run's events and how
it ends (`env`), how a step's calls return (`world`), a copy's answers (`answers`), a working directory (the
paths inside it), and the weight of a block in tokens. A block holds what the modelled decisions read of it;
the rest of its content is one number, which also counts the writes made into the block in place.

## What the code does where its documentation says otherwise

- A rewrite of the session's own whose first new block was carried from deeper in the tail it cuts does add
  a version (`TreeBranches.RewriteAddsAVersionExactlyWhen`, with a concrete save in
  `TreeBranches.AnOwnRewriteMayAddAVersion`), where crates/agent-store/src/versions.rs:22-24 says it is never
  offered. A retry does so whenever it keeps a block behind one it drops
  (`RewriteVersions.ADropAddsAVersionExactlyWhenItKeepsALaterBlock`); a compaction never does.
- A block that a compaction carries a second time shows the versions of the place where it was first written,
  not of the place it was carried from last, where crates/agent-store/src/lib.rs:899-900 says it shows those of
  the place it was carried from: versions made between the two compactions cannot be switched to
  (`CarriedBlocks.AnotherCarryShowsTheLastPlaceExactlyWhen`, with a message in
  `CarriedBlocks.ASecondCarryHidesVersions`).
- A refused save may have cut the path and written rows, where crates/agent-store/src/lib.rs:73-75 promises a
  save is atomic; `TreeStore.ARefusedSaveChangesNothingExactlyWhen` says exactly when it changes nothing. The
  protocol's runs assume the promise.
- A rename to the very path it names merges a file into itself: its edits are there twice and the file after
  it is gone, or the index runs past the list (`FileTrackingProofs.ARenameToItselfTakesTheNext`, with two files
  in `FileTrackingProofs.ARenameToItselfMayLoseAFile`). An old path with more separators at its end than one
  slash slices past a file's path, or drops a separator of the new name
  (`FileTrackingProofs.TheRestOfThePathIsKeptExactlyWhen`).
- A mark made between a switch's flush and its adoption is dropped, and the row stays stored as it was
  (`SaveRuns.AnAdoptedSwitchLosesNoMarkExactlyWhen` says when none is, `SaveRuns.ASwitchMayLoseAMark` has a
  run).
- A retry drops a steer that a resumed turn took, under that turn's identity
  (`Recovery.ARetryKeepsMessagesExactlyWhen`, with a history in `Recovery.ARetryMayDropASteer`).
- A failed turn that alone holds an idle session leaves no input waiting only where the transcript names a
  turn to write it into (`FailedTurns.AnAgentMessageWaitsExactlyWhen`); a Resume of an empty history that fails
  before its `resume` block leaves one (`FailedTurns.AnInputMayWait`).
- A message sent under the id of a waiting or written steer is admitted beside it, so that one id is in two
  places (`MessageRuns.AStepKeepsOnePlaceExactlyWhen`).
- A pass sends two session copies for each summary request whose first copy answers with calls alone
  (`Compaction.Pass`).
- After a dropped attempt the transcript is again what it was only when no event of the attempt named an
  earlier block and no vendor's step still ran (`RequestOutputs.ARequestLeavesTheBlocksBeforeItExactlyWhen`,
  with one event in `Streams.ADroppedAttemptMayLeaveAChange`).

## Model

| member | source | states |
|---|---|---|
| Versions.VersionStart | crates/agent-store/src/versions.rs:45-57 | the walk from a row to its version's first row ends, and finds a row that stands in for no other sibling |
| Versions.StartIsAFirstRow | crates/agent-store/src/versions.rs:45-69 | a sibling's walk ends at one of the first rows, which is no younger than it |
| Versions.VersionsPartitionThePlace | crates/agent-store/src/versions.rs:59-98 | versions 1 to the count are nonempty and disjoint, cover exactly the siblings, and there is no other version |
| Versions.RowsAndStandingsAgree | crates/agent-store/src/versions.rs:71-98 | with at least two versions a sibling is in the rows of version v exactly when its standing is v of the count |
| Versions.ReplacingKeepsTheVersions | crates/agent-store/src/versions.rs:3-7 | a new row written in place of a sibling keeps the number of versions and is in that sibling's version |
| Versions.AnyOtherBeginsAVersion | crates/agent-store/src/versions.rs:3-7 | any other new row begins exactly one version, numbered last, and moves no row to another |
| TreeStore.PathAscends | crates/agent-store/src/testing.rs:351-364 | along a path that is a parent chain the row numbers ascend |
| TreeStore.WriteGrows | crates/agent-store/src/testing.rs:342-365 | writing a save's blocks keeps every row's parent and the row it stands in for, removes no row, and keeps the path below the cut |
| TreeStore.Saved | crates/agent-store/src/testing.rs:318-380 | a save, taken or refused, keeps the path a parent chain from a row with no parent and every row's links |
| TreeStore.SaveIsTakenExactlyWhenItFillsUp | crates/agent-store/src/testing.rs:342-368 | a save is taken if and only if its update names each block from the cut to its count once and in order, whatever it marks below the cut |
| TreeStore.SaveOverlaysThePath | crates/agent-store/src/testing.rs:326-368 | a save that is taken turns the path's blocks into the update laid over them: the last block given for a position, else the one that was there |
| TreeStore.ARefusedSaveChangesNothingExactlyWhen | crates/agent-store/src/testing.rs:334-368 | exactly when a refused save changes nothing, as the contract asks: it cuts nothing, clears no cut row, appends nothing, and marks no block with another value |
| TreeStore.ARefusedSaveMayHaveCutThePath | crates/agent-store/src/testing.rs:334-350 | an update that skips a position is refused with the path already cut |
| TreeBranches.SiblingsAreNumbered | crates/agent-store/src/testing.rs:351-363 | the rows after one row are siblings with distinct numbers that stand in for older rows only |
| TreeBranches.VersionsAfterASave | crates/agent-store/src/testing.rs:351-363 | where a branch begins, the new row joins the version of the row it stands in for when that row is a sibling, and begins a version otherwise |
| TreeBranches.RewriteAddsAVersionExactlyWhen | crates/agent-store/src/testing.rs:326-365 | a save that cuts a tail and begins a branch adds exactly one version, numbered last, if its first new block was carried from deeper in the tail, or if the save is a version and that block is not the one cut off first; otherwise the versions stay and the new row is in the cut row's |
| TreeBranches.ACutAndAnAppendMakeAVersionExactlyWhen | crates/agent-store/src/testing.rs:334-358 | the same when the cut and the first append are separate saves: the append adds a version exactly when the cut was a version's |
| TreeBranches.AnOwnRewriteMayAddAVersion | crates/agent-store/src/testing.rs:331-358 | a rewrite of the session's own that moves a block from deeper in the tail to the cut does add a version, against versions.rs:22-24 |
| RewriteVersions.ARewriteAddsAVersionExactlyWhen | crates/agent-session/src/core.rs:3377-3397 | a history rewrite of the session's own adds a version if and only if the first block that differs stood further on in the history it replaces |
| RewriteVersions.AnEditAddsAVersionExactlyWhen | crates/agent-session/src/core.rs:3377-3397 | an edit's rewrite adds a version unless, and only unless, the first block that differs is a change of the very block that stood there, with none of its identity further on |
| RewriteVersions.RecoveryOnlyDrops | crates/agent-transcript/src/cut.rs:78-143 | a dropped attempt, an unwound turn and a retry only drop blocks, and a dropped attempt keeps none behind what it drops |
| RewriteVersions.ADropAddsAVersionExactlyWhenItKeepsALaterBlock | crates/agent-session/src/persist.rs:106-114 | such a rewrite adds a version whenever it keeps a block behind one it drops, as a retry keeps an agent message; otherwise it only cuts |
| RewriteVersions.ACompactionAddsNoVersion | crates/agent-transcript/src/log.rs:474-512 | the save of a compaction adds no version: the boundary joins the version of the block it stands before |
| TreeSwitch.AVersionHasALeaf | crates/agent-store/src/testing.rs:499-509 | a version that exists has a highest-numbered row below it |
| TreeSwitch.SwitchKeepsTheShape | crates/agent-store/src/testing.rs:481-519 | a switch that succeeds keeps the path a parent chain and changes no row |
| TreeSwitch.SwitchLandsOnTheVersionsLatestLeaf | crates/agent-store/src/testing.rs:481-519 | after a switch the path before the place is unchanged, the row at the place is of the requested version, and the path ends at the highest-numbered row below it, which no row follows; which place that is, `CarriedBlocks.ASwitchIsMadeAtTheVersionsPlace` says |
| TreeSwitch.SwitchingBackRestoresThePathExactlyWhen | crates/agent-store/src/testing.rs:168-175 | switching back to the earlier version restores the earlier path if and only if its last row was the highest-numbered below that version (also lines 481-519) |
| CarriedBlocks.ABlockShowsTheVersionsOfItsPlace | crates/agent-store/src/testing.rs:150-175 | a position shows the versions of the place where the path stands when that has two or more, and else those of the place where the block was first written, however often it was carried since |
| CarriedBlocks.ASwitchIsMadeAtTheVersionsPlace | crates/agent-store/src/testing.rs:168-175 | a switch at a position succeeds if and only if that place is on the path and has the version, and is made there (also lines 481-509) |
| CarriedBlocks.ACompactionCarriesItsBlock | crates/agent-store/src/testing.rs:318-365 | a save that inserts a boundary before a block puts the boundary in the block's row's place and the block, carried, alone behind the boundary |
| CarriedBlocks.ACarriedBlockSwitchesItsOldPlace | crates/agent-store/src/lib.rs:899-900 | after such a save, a switch at the block's new position to a version of the place it had keeps the path before that place and ends at the highest-numbered row below the version, which is where the same switch would have ended before the save |
| CarriedBlocks.AnotherCarryShowsTheLastPlaceExactlyWhen | crates/agent-store/src/lib.rs:899-900 | a block that was carried before shows the versions of the place it was carried from last if and only if that is the place where it was first written |
| CarriedBlocks.ASecondCarryHidesVersions | crates/agent-store/src/lib.rs:899-900 | a message edited behind a boundary and then carried behind a second one: its other version could be switched to before, and cannot after |
| TreeRuns.EveryRunKeepsTheTree | crates/agent-store/src/testing.rs:548-690 | over every run of creating, creating after a prefix, saving and switching, every node keeps the tree's shape and every row its links |
| TreeRuns.APrefixIsTakenAtAnyLaterTime | crates/agent-store/src/testing.rs:466-479 | a prefix a node gave out is taken at any later time and starts the new node with exactly its rows, in order (also lines 648-690) |
| TreeRuns.EveryRunCutsWhereThePathsEnd | crates/agent-store/src/testing.rs:331-358 | over every run, refused saves included, a row that was cut off stood where the path ends, so what is appended stands in for it at that place |
| StoredNodes.StoredNode.CarriedFrom | crates/agent-store/src/testing.rs:150-163 | the walk to the row a block was carried from |
| StoredNodes.StoredNode.CutPath | crates/agent-store/src/testing.rs:325-341 | cuts the path and keeps the cut row and the cut rows by id, as the saving function says |
| StoredNodes.StoredNode.AppendBlock | crates/agent-store/src/testing.rs:351-364 | appends a row after the path's last, in place of the carried or cut row |
| StoredNodes.StoredNode.ApplySave | crates/agent-store/src/testing.rs:318-380 | leaves the node as the save function says, also when the save is refused, and answers its refusal |
| StoredNodes.StoredNode.LatestBelow | crates/agent-store/src/testing.rs:499-509 | one pass in order finds the highest-numbered row below a version's rows |
| StoredNodes.StoredNode.TailTo | crates/agent-store/src/testing.rs:510-516 | the walk back from a leaf is the chain from the place to it |
| StoredNodes.StoredNode.Switch | crates/agent-store/src/testing.rs:481-519 | leaves the node where `CarriedBlocks.ASwitchIsMadeAtTheVersionsPlace` and `TreeSwitch.SwitchLandsOnTheVersionsLatestLeaf` say, and changes nothing when refused |
| StoredNodes.StoredNode.PrefixRows | crates/agent-store/src/testing.rs:660-676 | the rows a new node starts with, or the refusal of a prefix whose length is not its chain's |
| DirtyRows.Marks.MoveFrom | crates/agent-transcript/src/journal.rs:31-37 | marks exactly the rows it marked and every row from the index on |
| DirtyRows.Marks.Change | crates/agent-transcript/src/journal.rs:39-44 | marks exactly the rows it marked and the one at the index |
| DirtyRows.Marks.Merge | crates/agent-transcript/src/journal.rs:68-77 | marks exactly the rows either marks; the floor is the lower one |
| DirtyRows.Marks.Indices | crates/agent-transcript/src/journal.rs:46-55 | lists exactly the marked rows of the path, ascending |
| DirtyRows.ABatchMergesAsItsChanges | crates/agent-session/src/core.rs:3351-3362 | committing a batch of changes marks the rows that marking each change would |
| DirtyRows.SomeBelowExactlyWhenNotAllFrom | crates/agent-transcript/src/journal.rs:63-66 | the lowest marked row is before a position exactly when some marked row is |
| SaveProtocol.AWholeSaveIsTaken | crates/agent-store/src/testing.rs:318-380 | a save that gives every row from its cut on, and leaves out below it only rows stored as they are, is taken and makes its target the stored path |
| SaveRuns.TheWindowHoldsEveryRowASaveWrites | crates/agent-session/src/core.rs:3424-3432 | every row a save writes is held in the window, and its block is the one held there |
| SaveRuns.ASaveMakesThePath | crates/agent-session/src/core.rs:3415-3442 | the save of a path whose unmarked rows are stored is taken and makes it the stored path |
| SaveRuns.ASaveLeavesNothingDue | crates/agent-session/src/core.rs:3415-3455 | a save that is taken with no change meanwhile leaves nothing due: the stored path is the transcript, no row is marked, and the window starts at the last boundary |
| SaveRuns.ARewriteMakesItsPath | crates/agent-session/src/core.rs:3377-3397 | a history rewrite's save is taken and makes the rewritten history the stored path, rows below it that were not saved yet included |
| SaveRuns.AFailedSaveIsSound | crates/agent-session/src/persist.rs:76-82 | a failed save loses no mark, also when rows changed while it ran, and changes no block |
| SaveRuns.ATakenRewriteIsSound | crates/agent-session/src/persist.rs:106-114 | after a rewrite commits, the stored path equals the transcript |
| SaveRuns.ASettledSessionIsSound | crates/agent-session/src/core.rs:3448-3455 | letting go of the blocks before the last boundary changes no block and leaves every marked row in the window |
| SaveRuns.ReachingIsSound | crates/agent-session/src/window.rs:28-38 | holding blocks before the window again, read from the store, changes no block of the path |
| SaveRuns.AReachHoldsTheRest | crates/agent-transcript/src/log.rs:180-190 | after a reach the window starts where it reached and holds every block of the path from there |
| SaveRuns.AnAdoptedSwitchLosesNoMarkExactlyWhen | crates/agent-session/src/core.rs:905-929 | adopting a switch of versions keeps every unmarked row stored if and only if no marked row that the session keeps of its window differs from its stored row; the transcript is then the stored path |
| SaveRuns.AChangeBeforeASwitchIsLost | crates/agent-session/src/core.rs:905-929 | a row kept of the window that changes between a switch's flush and its adoption stays stored as it was, unmarked and with no save due, for every session and switch |
| SaveRuns.ASwitchMayLoseAMark | crates/agent-session/src/core.rs:905-929 | such a run exists: a restored session with two versions of its last message, and a reply changed before the adoption |
| SaveRuns.EveryRunKeepsUnmarkedRowsStored | crates/agent-session/src/persist.rs:71-114 | over every interleaving of transcript changes, saves, failures, rewrites, reaches and switches, but for a switch that would lose a mark (the condition of SaveRuns.AnAdoptedSwitchLosesNoMarkExactlyWhen): every unmarked row equals its stored row, the store takes each save in flight, and with nothing due and none in flight the stored path is the transcript |
| SaveRuns.ARestoredSessionIsSound | crates/agent-store/src/testing.rs:300-308 | a new or restored session is where such a run begins |
| SessionPaths.SessionPath.Append | crates/agent-transcript/src/log.rs:1028-1036 | appends a block and marks its row |
| SessionPaths.SessionPath.InsertBoundary | crates/agent-transcript/src/log.rs:474-512 | inserts a boundary and marks every row from it |
| SessionPaths.SessionPath.WithdrawFrom | crates/agent-transcript/src/log.rs:543-552 | cuts the path and marks every row from there; a position not held changes nothing |
| SessionPaths.SessionPath.RecordReplace | crates/agent-transcript/src/log.rs:1107-1109 | changes a block in place and marks its row |
| SessionPaths.SessionPath.PrepareCheckpoint | crates/agent-session/src/core.rs:3415-3442 | takes the marks with the save of the marked rows when one is due; each row is found in the window |
| SessionPaths.SessionPath.RestoreMarks | crates/agent-session/src/core.rs:3458-3461 | puts back a failed save's marks beside those made since |
| SessionPaths.SessionPath.ReleaseSettled | crates/agent-session/src/core.rs:3448-3455 | starts the window at the last boundary unless a row before it waits for a save |
| SessionPaths.SessionPath.RewriteUpdate | crates/agent-session/src/core.rs:3377-3397 | the save of a rewritten history, from where the histories part or a row not saved yet |
| SessionPaths.SessionPath.AdoptRewrite | crates/agent-session/src/core.rs:3402-3409 | replaces the window and clears the marks |
| SessionPaths.SessionPath.ExtendBack | crates/agent-transcript/src/log.rs:180-190 | holds the blocks before the window |
| SessionPaths.SessionPath.AdoptSwitch | crates/agent-session/src/core.rs:905-925 | adopts the path a switch made current, in the window or before it |
| Runs.StoringOneByOneGroups | crates/agent-store/src/changes.rs:115-137 | storing blocks one at a time gives the declared grouping: only steps are of runs, and each run is named after its first step |
| Runs.StepsShareARunExactlyWhenTogether | crates/agent-store/src/changes.rs:115-137 | two steps share a run if and only if no ending block lies between them |
| Runs.WorkSharesARunExactlyWhenNothingIsRead | crates/agent-store/src/changes.rs:54-137 | of blocks stored one at a time, exactly the agent's own work is of runs (thinking, calls, a command's end, an agent's end, a message from below), and two such share a run if and only if nothing between them is what the reader reads |
| Runs.LaterBlocksChangeNoEarlierRun | crates/agent-store/src/changes.rs:102-104 | appending blocks never changes an earlier run (also lines 115-137) |
| Runs.ContinuingKeepsTheRunsExactlyWhen | crates/agent-transcript/src/log.rs:367-380 | continuing a Stop keeps every stored run right if and only if no two steps on its sides are parted by it alone |
| Runs.ContinuingAStopNoStepFollows | crates/agent-transcript/src/log.rs:367-380 | continuing the latest Stop changes no run when no step follows it |
| Runs.SetRuns | crates/agent-store/src/changes.rs:149-159 | gives every block its run in place, as storing them one by one would |
| FileTracking.Nearest | crates/agent-store/src/changes.rs:205-213 | the file a path is marked by holds it, and none that holds it is longer |
| FileTrackingProofs.TheNearestIsTheLastOfTheLongest | crates/agent-store/src/changes.rs:205-213 | of those that hold it the longest path marks it, the last of these |
| FileTrackingProofs.ACallKeepsFilesCoherent | crates/agent-store/src/changes.rs:181-193 | after every call a removed file existed before and has no old name, and a file with an old name existed before (also lines 232-395) |
| FileTrackingProofs.AMoveStopsExactlyWhen | crates/agent-store/src/changes.rs:343-372 | the rename of a file panics if and only if its path is too short for the old one or cut within a character, or it is its own new name and the last of the list |
| FileTrackingProofs.AMoveKeepsTheEditsExactlyWhen | crates/agent-store/src/changes.rs:343-372 | one that does not panic keeps an edit's number unless, and only if, the file is its own new name and the next one, which it replaces, has the edit another number of times |
| FileTrackingProofs.ARenameToItselfTakesTheNext | crates/agent-store/src/changes.rs:315-375 | a rename of a path to itself replaces the file after each it moves, and panics if and only if the last it moves is the last of the list |
| FileTrackingProofs.ARenameToItselfMayLoseAFile | crates/agent-store/src/changes.rs:357-372 | two files, the first renamed to its own path: its edit is there twice and the other file is gone |
| FileTrackingProofs.TheRestOfThePathIsKeptExactlyWhen | crates/agent-store/src/changes.rs:344-345 | a moved file keeps all that follows the old path if and only if that ends with no separator but one slash; with more the rename panics or drops separators |
| FileTrackingProofs.ARenameKeepsTheEdits | crates/agent-store/src/changes.rs:315-375 | a rename of such a path to another never panics, and neither loses an edit nor makes one twice |
| FileTrackingProofs.ARemovalTakesTheCreatedFilesEdits | crates/agent-store/src/changes.rs:282-313 | a removal takes the edits of the files the list created in the path, and no other |
| FileTrackingProofs.ACreatedFileRemovedIsNotListed | crates/agent-store/src/changes.rs:282-302 | after a removal each file was outside the path and is as it was, or was there before and is now deleted: none that the list created is left |
| FileTrackingProofs.WritesAddTheirEdits | crates/agent-store/src/changes.rs:245-279 | what a call wrote adds its edits, each once |
| FileTrackingProofs.OrderingSorts | crates/agent-store/src/changes.rs:359-365 | a merge sorts the edits by their calls and keeps exactly them |
| FileTrackingProofs.OrderingKeepsEachCallsEdits | crates/agent-store/src/changes.rs:359-365 | the edits of one call stay in their order through a merge |
| FileTrackingProofs.ACallKeepsOrder | crates/agent-store/src/changes.rs:232-280 | a call of a new command leaves each file's edits in their calls' order |
| FileTrackingProofs.EveryRunOfCallsKeepsTheFiles | crates/agent-store/src/changes.rs:215-396 | after any calls of distinct commands every file is coherent and its edits are in call order |
| TrackedNames.AMovedFileKeepsItsFirstName | crates/agent-store/src/changes.rs:341-373 | a rename of one file: where no file has the new name it takes it, with its edits and, when it was there before the calls, its first name as the old one unless it is back there; else it joins the first file of that name, which keeps its own |
| TrackedNames.AnUnknownPathIsListedRenamed | crates/agent-store/src/changes.rs:323-338 | a rename of a path the list does not hold is listed renamed from there, unless the list holds the new name |
| TrackedNames.ARemovalDeletes | crates/agent-store/src/changes.rs:282-313 | after a removal the files in the path that the calls created are gone, the others shown deleted under their first names, in order, and a path that held none is shown deleted itself |
| TrackedNames.AWriteJoinsItsFile | crates/agent-store/src/changes.rs:245-279 | a write joins the first file of its path, or lists it, with its edits in order; it was there before if it was, or if a rename of this call arrived there and the job says it replaced a file, which is then no rename |
| TrackedNames.EveryRunShowsOnlyRealRenames | crates/agent-store/src/changes.rs:215-396 | after any calls that rename no path to itself, a file shown renamed was there before them, at another path |
| Trackings.Tracking.Add | crates/agent-store/src/changes.rs:223-280 | adds a call: its changes in order, then the files it wrote; a rename that panics stops the tracking |
| Trackings.Tracking.AddWritten | crates/agent-store/src/changes.rs:245-279 | joins a written file to the list with its edits |
| Trackings.Tracking.Remove | crates/agent-store/src/changes.rs:282-313 | drops or deletes the files of a removed path in one pass |
| Trackings.Tracking.Rename | crates/agent-store/src/changes.rs:315-375 | moves the files of a renamed path, or lists the path, whatever the paths are |
| Trackings.Tracking.MoveEach | crates/agent-store/src/changes.rs:341-374 | renames the moved files, later positions first |
| Trackings.Tracking.MoveAt | crates/agent-store/src/changes.rs:343-373 | renames one file, merges it into the file that has the name, or panics |
| Confluence.OwnFilesKeepTheReport | crates/agent-store/src/changes.rs:421-476 | a call's own files report what its job reported |
| Confluence.PlanningAgainKeepsOwnFiles | crates/agent-store/src/changes.rs:431-476 | planning a stored view again with no directory gives its own files again, with paths named twice or not |
| Confluence.APlanReadsTheWorkBeforeIt | crates/agent-store/src/changes.rs:546-599 | a plan depends on the work of its request's calls before it and on nothing else |
| Confluence.ACompletionKeepsListsInOrder | crates/agent-session/src/turn.rs:958-1015 | a call that returns, whenever it does, leaves every list of the transcript as planning in order makes it |
| Confluence.ListsInOrderAreDetermined | crates/agent-store/src/changes.rs:22-26 | lists in order are determined by the calls' work |
| Confluence.TheOrderOfReturnsDoesNotMatter | crates/agent-session/src/turn.rs:958-1015 | the calls of a transcript may return in any order: the final own, run and request lists are the same |
| Confluence.EachListIsPlannedInTranscriptOrder | crates/agent-session/src/turn.rs:883-935 | those lists are the ones of planning each call after the calls before it in the transcript; what a plan shows, `ListedFiles.APlanShowsTheFilesInside` says |
| Confluence.RelistingAStoredTranscriptSettlesIt | crates/agent-store/src/changes.rs:663-704 | listing a stored transcript makes the lists a new one would store |
| Confluence.RelistingListsInOrderChangesNothing | crates/agent-store/src/changes.rs:663-704 | listing again a transcript whose lists are in order changes nothing |
| ChangedLists.ListedFrom | crates/agent-store/src/changes.rs:647-661 | finds exactly the calls with lists up to the request's end |
| ListedFiles.APlanShowsTheFilesInside | crates/agent-store/src/changes.rs:379-396 | a call's run and request lists show exactly the tracked files not outside, in order, with their edits, old names and kinds, once the returned calls of its run or its request before it and the call itself are followed; before the first request there is no request list (also lines 546-599) |
| ListedFiles.APathIsShownExactlyWhen | crates/agent-store/src/changes.rs:379-396 | a path is in a list if and only if a tracked file there is not outside |
| ListedFiles.AWrittenFileIsListedExactlyWhenInside | crates/agent-store/src/changes.rs:245-279 | for a call that only wrote files and has none before it: a path is listed if and only if it wrote a file there and the path is inside its directory (also lines 379-396, 439-476) |
| ListedFiles.EachPathIsWhereItEndedUp | crates/agent-store/src/changes.rs:439-476 | a call's own files hold at each path what the job wrote there, and at any other path the last change that names it |
| ListedFiles.AnUnwrittenPathIsWhereItsLastChangeSays | crates/agent-store/src/changes.rs:439-476 | a path the job did not write is shown once, as the last of its changes that ends there says: removed, or renamed from where it was |
| ListedFiles.AReportIsOfTheWritten | crates/agent-store/src/changes.rs:421-437 | what a call reports of its own is the added and the modified files, in order |
| Listing.OwnFiles | crates/agent-store/src/changes.rs:439-476 | a call's own files, made and marked in place |
| Listing.PlanLists | crates/agent-store/src/changes.rs:557-599 | plans a call's lists by following the calls before it, so that they show what `ListedFiles.APlanShowsTheFilesInside` says |
| Listing.Relist | crates/agent-store/src/changes.rs:674-704 | lists a stored transcript in place, which leaves its lists in order |
| Bus.GivingWaitsLast | crates/agent-session/src/bus.rs:74-108 | events given wait after those of their kind given before, whether or not a hold keeps them |
| Bus.ReleasingKeepsTheOrder | crates/agent-session/src/bus.rs:117-127 | a release keeps the order of each kind |
| Bus.ADrainDeliversInOrder | crates/agent-session/src/bus.rs:141-173 | a drain delivers, of each kind, what waited and then what the listeners gave, in that order |
| Bus.ADrainEmptiesTheQueue | crates/agent-session/src/bus.rs:141-173 | a drain leaves no step waiting but what a hold keeps |
| Bus.EachListenerReceivesAStepOnce | crates/agent-session/src/bus.rs:149-168 | a step reaches once, in the order of their subscriptions, every listener that is there throughout and those that subscribe meanwhile and stay; one removed before receives nothing |
| Bus.ADrainReachesEachListener | crates/agent-session/src/bus.rs:141-172 | every step of a drain reaches, once, each listener that is there throughout it |
| Bus.EveryRunDeliversEachKindInOrder | crates/agent-session/src/bus.rs:52-127 | over every run, deliveries made by listeners included, the events of each kind reach the listeners in the order given, none lost and none twice (also lines 141-173) |
| Bus.EveryRunReachesEachListener | crates/agent-session/src/bus.rs:52-72 | over every run no delivery reaches a listener twice, and each step delivered since some call reaches every listener that is there at that call and at the end (also lines 141-173) |
| BusHolds.EventsWaitExactlyWhenHeldBack | crates/agent-session/src/bus.rs:78-108 | events given during a hold wait if and only if they change the transcript or the phase, or one of them that is no output is of a kind that waits; then all but the output wait together, and otherwise all go out |
| BusHolds.AHoldSendsNoChange | crates/agent-session/src/bus.rs:78-115 | over every run, as long as a hold lasts nothing is delivered that changes the transcript or the phase or is of a kind that waited, also of what listeners give (also lines 141-173) |
| BusHolds.ACallAvoidsUntilARelease | crates/agent-session/src/bus.rs:78-127 | the same of each delivery before a listener ends the hold (also lines 141-173) |
| BusHolds.AReleaseSendsWhatWaitedAsOneStep | crates/agent-session/src/bus.rs:117-127 | a release delivers what waited first, as one step |
| BusHolds.AHoldKeepsEveryChange | crates/agent-session/src/bus.rs:78-108 | over every run, every change of the transcript or the phase given during a hold waits, in the order given |
| BusHolds.OtherKindsAreNotDelayed | crates/agent-session/src/bus.rs:78-108 | over every run, the output and every event of a kind none of which waits has been delivered |
| EventBuses.EventBus.Subscribe | crates/agent-session/src/bus.rs:52-61 | adds a slot with the next number |
| EventBuses.EventBus.Unsubscribe | crates/agent-session/src/bus.rs:63-72 | marks the slot removed, and drops it when no delivery runs |
| EventBuses.EventBus.Enqueue | crates/agent-session/src/bus.rs:78-108 | queues a step, or keeps it during a hold, its output apart, as `BusHolds.EventsWaitExactlyWhenHeldBack` says |
| EventBuses.EventBus.Deliver | crates/agent-session/src/bus.rs:78-99 | queues a step and drains the queue; during a hold nothing it delivers changes the transcript or the phase, as `BusHolds.ACallAvoidsUntilARelease` says |
| EventBuses.EventBus.Release | crates/agent-session/src/bus.rs:117-127 | queues what was kept as one step and drains the queue |
| EventBuses.EventBus.Run | crates/agent-session/src/bus.rs:151-166 | runs a listener out of its slot and puts it back unless it was removed |
| EventBuses.EventBus.Pass | crates/agent-session/src/bus.rs:149-168 | gives a step to each slot in turn, those added meanwhile too |
| EventBuses.EventBus.Drain | crates/agent-session/src/bus.rs:141-172 | the nested loop delivers every step that waits |
| Inputs.ArrivalsAreExact | crates/agent-session/src/input.rs:97-140 | the arrivals are what arrived less what was withdrawn, and never fewer than what waits, so the count never stops short at zero (also lines 157-170, 242-256) |
| Inputs.OnlySeenReportsGo | crates/agent-session/src/input.rs:242-256 | withdrawing the reports whose ends were seen keeps every other input, in arrival order: an unseen report, a steer and an agent's message stay |
| Inputs.ABoundaryTakesExactlyThose | crates/agent-session/src/input.rs:70-96 | a boundary writes every agent's message, every report but after a response's stream, and a steer only before a request; the others stay, each in arrival order (also lines 233-240) |
| Inputs.AContinuationTakesTheReports | crates/agent-session/src/input.rs:258-267 | what begins a continuation takes every report and leaves the others in order |
| Inputs.InputQueue.Add | crates/agent-session/src/input.rs:131-134 | adds an input and counts it |
| Inputs.InputQueue.CancelSteer | crates/agent-session/src/input.rs:157-170 | withdraws a pending steer and its count; false when none is pending |
| Inputs.InputQueue.TakeAll | crates/agent-session/src/input.rs:233-240 | takes the inputs a boundary writes and keeps the others, each in arrival order, as `Inputs.ABoundaryTakesExactlyThose` says |
| Inputs.InputQueue.RetainReports | crates/agent-session/src/input.rs:242-256 | withdraws the reports whose ends were seen, and their count |
| Inputs.InputQueue.TakeReports | crates/agent-session/src/input.rs:258-267 | takes the command reports |
| Inputs.InputQueue.TakeFirstSteer | crates/agent-session/src/input.rs:269-277 | takes the first steer that waits |
| Conservation.WrittenSteersAreInBlocks | crates/agent-session/src/core.rs:2202-2245 | the blocks a boundary writes hold the steers it took |
| Conservation.WritingInputsKeepsMessages | crates/agent-session/src/core.rs:2202-2245 | writing inputs moves each message to the transcript and loses none |
| Conservation.StartingNextKeepsMessages | crates/agent-session/src/core.rs:1089-1132 | starting what is next moves each message and loses none |
| Conservation.QueuedSteersKeepTheirOrder | crates/agent-session/src/core.rs:1496-1506 | steers moved into the queue keep their arrival order, after the first entries and before the others, and none is left among the inputs |
| Conservation.RecordingAStopKeepsMessages | crates/agent-session/src/core.rs:1613-1657 | a recorded stop keeps every message but what a give-back takes |
| SessionRuns.StartingNextIsSound | crates/agent-session/src/core.rs:1089-1132 | whatever starts next, an idle session is left with nothing to do and a closed one with no steer among its inputs |
| SessionRuns.ARecordedStopEndsEachCall | crates/agent-session/src/core.rs:1613-1657 | a recorded stop leaves no call executing and the action's message in its place (also lines 1786-1829) |
| SessionRuns.FailingIsSound | crates/agent-session/src/core.rs:1749-1756 | a failed action leaves no call executing |
| SessionRuns.ShuttingDownIsSound | crates/agent-session/src/core.rs:1470-1506 | a shutdown leaves no call executing and no steer among the inputs |
| SessionRuns.AStepFromOutsideIsSound | crates/agent-session/src/core.rs:842-861 | whatever is admitted, withdrawn, stopped, stopped for an edit or disposed keeps: an idle session has nothing to do, no call dangles, a closed session has no steer left (also lines 1004-1067, 1252-1276, 1510-1589, 1841-1859, 1991-2057, 2123-2188, 2331-2364) |
| SessionRuns.AStepOfTheWorkerIsSound | crates/agent-session/src/worker.rs:72-195 | so does every step of the worker, any rewrite of the history and an accepted edit included (also lines 382-402) |
| TurnRuns.RunMessage | crates/agent-session/src/turn.rs:114-255 | a turn of requests and tool rounds is part of a session's run, and one that answers leaves the session where its action may complete: nothing executes |
| TurnRuns.RunAction | crates/agent-session/src/turn.rs:114-255 | the same of every other action that runs a turn, once its input is in the transcript |
| FailedTurns.EveryRunLeavesNoInputWaiting | crates/agent-session/src/core.rs:1089-1132 | over every run in which each failure of a turn is recorded in a history that names a turn, no input waits where a failed turn alone holds the idle session (also lines 1217-1242, 3004-3016) |
| FailedTurns.AnAgentMessageWaitsExactlyWhen | crates/agent-session/src/core.rs:1234-1242 | where a failed turn alone holds the idle session, an agent's message waits if and only if the history names no turn |
| FailedTurns.AnInputMayWait | crates/agent-session/src/worker.rs:304-349 | a run from a new session leaves one waiting: a Resume of an empty history that fails after its rewrite and before its `resume` block |
| FailedTurns.RecoveryKeepsTurns | crates/agent-transcript/src/cut.rs:78-143 | a dropped attempt, an unwound turn and a retry leave no failure without a turn |
| MessageRuns.AnUnknownSteerIsNowhere | crates/agent-session/src/core.rs:1997-2003 | a steer is accepted only when the session holds it nowhere |
| MessageRuns.ShuttingDownConserves | crates/agent-session/src/core.rs:1470-1491 | a shutdown keeps every message: one not written goes back to the front of the queue |
| MessageRuns.EveryStepConserves | crates/agent-session/src/core.rs:1004-1033 | every step keeps each message, with its content, where it is or moves it, but for those it accepts or a rewrite brings and those recalled, dequeued, cleared, aborted, given back or left out by a rewrite (also lines 1089-1132, 1470-1506, 1613-1657, 1872-2057, 2202-2245) |
| MessageRuns.AStepKeepsOnePlaceExactlyWhen | crates/agent-session/src/core.rs:1007-1034 | a step keeps every message in one place unless, and only if, it sends a message under the id of a steer that waits or was written, or rewrites the history with a message held elsewhere (also lines 1089-1132, 1470-1506, 1991-2057) |
| MessageRuns.EveryRunKeepsOnePlace | crates/agent-session/src/core.rs:1007-1034 | so over every run without such a step no message is ever in two places (also lines 1089-1132, 1470-1506, 1991-2057) |
| MessageRuns.EveryRunConservesMessages | crates/agent-session/src/core.rs:1089-1132 | over every run a message is in as many places as it came less how often it left, and every reachable state is sound: an idle session has nothing to do, no call dangles, a closed one has no steer left (also lines 1470-1506, 1613-1657, 1991-2057, 2202-2245) |
| QueueOrder.StartingNextStartsTheRightOne | crates/agent-session/src/core.rs:1089-1132 | what starts is the queue's first entry and the others stay in order, unless that entry is no message and a steer waits: then the earliest steer starts as a message and the queue stays; with neither, a continuation when input wants one |
| QueueOrder.AStepMovesTheLine | crates/agent-session/src/core.rs:1007-1067 | a step of a session, but for one in which the user reorders the queue or ends the session, queues at most one message, at the line's end, takes at most its front, and moves no other; a hold puts a message back where it was (also lines 1089-1132, 1613-1657, 1991-2049) |
| QueueOrder.EveryRunTakesMessagesInOrder | crates/agent-session/src/core.rs:1089-1132 | over every such run messages are taken in the order they were queued; only steers that opened a turn of their own come between them |
| QueueOrder.TheUserMovesOneMessage | crates/agent-session/src/core.rs:1872-1913 | a message sent next is ahead of every other message and a dequeued one is gone; the other messages and the other actions keep their order |
| ArrivedInputs.WrittenInputsAreInBlocks | crates/agent-session/src/core.rs:2202-2245 | the blocks of the inputs a boundary takes hold each agent's message and tell each report, each as often as it was taken |
| ArrivedInputs.AnAgentMessageIsTakenInOnce | crates/agent-session/src/core.rs:2123-2188 | an agent's message is taken in only when it neither waits nor is written |
| ArrivedInputs.EveryStepKeepsInputs | crates/agent-session/src/core.rs:1089-1132 | every step keeps each agent's message and each report, waiting or written, but for those it takes in or a rewrite brings, those a rewrite or a give-back takes out, and reports whose ends were seen (also lines 1234-1242, 1470-1506, 1613-1657, 2123-2188, 2202-2245, 2331-2364) |
| ArrivedInputs.EveryRunKeepsInputs | crates/agent-session/src/input.rs:1-25 | so over every run: an agent's message waits or is written as often as it came less how often a rewrite or a give-back took it out; a report also, but that it may be withdrawn once its end was seen |
| Boundaries.InputsAreWrittenInOrder | crates/agent-session/src/core.rs:2202-2245 | what a boundary writes follows the transcript: its inputs in the order they arrived, the reports as one block where the first of them arrived |
| Boundaries.WrittenInputsAreOfTheTurn | crates/agent-session/src/core.rs:2202-2245 | each such block is of the boundary's turn, which is then the last the transcript names |
| Boundaries.TheTurnFailureIsTheLastRecord | crates/agent-transcript/src/log.rs:157-164 | the failure that leaves the last turn unfinished is an error of the turn with no record of a turn behind it, when there is one |
| Boundaries.OnlyASteerEndsAFailure | crates/agent-session/src/core.rs:1228-1242 | input written into a failed turn leaves it failed, but for a steer, after which its failure is over |
| Boundaries.AContinuationOpensWithWhatWaits | crates/agent-session/src/core.rs:2263-2282 | a continuation opens with one block of the reports that wait and whose ends were not seen, in order; with none, with everything else when an agent's message waits; and else with nothing |
| Admissions.AnArrivalOpensATurnExactlyWhen | crates/agent-session/src/core.rs:1134-1215 | an input that an idle session takes in opens a continuation if and only if it is a decision of the user's, or neither a hold nor a failed turn keeps it waiting and it is no report that only joins turns (also lines 2123-2188, 2331-2364) |
| Admissions.APassedFailureLetsInputIn | crates/agent-session/src/core.rs:1217-1226 | when the failure of the last turn passes, what waits opens a continuation; of any other failure nothing changes |
| Admissions.AReleaseLetsInputIn | crates/agent-session/src/core.rs:1244-1276 | the end of a hold opens a continuation for what waits, unless a failed turn holds it |
| Admissions.AnIdleCompactionStartsAtOnceExactlyWhen | crates/agent-session/src/core.rs:1036-1053 | an idle compaction starts at once or not at all, the former exactly when the session is idle and admits actions |
| Admissions.EveryStepRunsWhatItPrepares | crates/agent-session/src/core.rs:995-1002 | while an edit is prepared no message, action, edit or agent's message is admitted, and it is prepared only while its action runs (also lines 1036-1053, 2123-2188) |
| Admissions.EveryRunRunsWhatItPrepares | crates/agent-session/src/core.rs:842-861 | so over every run: no end of an edit leaves the session refusing (also lines 969-1002) |
| Endings.AStopReachesWhatRuns | crates/agent-session/src/core.rs:1510-1574 | the user's Stop, a hold and a dispose ask the running action to stop, each with its reason, unless one of them did before; a dispose closes an idle session and keeps exactly the messages queued, in order (also lines 1841-1859) |
| Endings.AnEditStopsTheTurnExactlyWhen | crates/agent-session/src/core.rs:815-861 | an edit of a message stops the turn if and only if nothing asked it to stop, nothing waits behind it, no other edit is prepared, and the message is the turn's last; else it changes nothing |
| Endings.AnAbortStops | crates/agent-session/src/core.rs:1510-1574 | a Stop gives the message back if and only if the user sent it, no steer waits, no call is being written, and the turn wrote nothing yet, but maybe the message and context (also lines 1687-1709) |
| Endings.AStopGivesBackOnlyTheMessage | crates/agent-session/src/core.rs:1613-1657 | a message given back leaves the transcript with the context told after it and nothing else: every block before stays, only inputs follow, and there is no marker (also lines 1714-1743) |
| Endings.AStopIsMarked | crates/agent-session/src/core.rs:1586-1657 | any other Stop, and a hold, keep every block; a Stop writes the message that was not written, inputs follow, and then the marker if and only if the action wrote anything, what the stop wrote counted |
| Endings.AShutdownRecordsTheInterruption | crates/agent-session/src/core.rs:1470-1506 | an action that began is recorded as interrupted, once; one that did not leaves the transcript as it was and its message first in the queue; the waiting steers follow as messages, in order, before what was queued (also lines 1760-1785) |
| MessageRuns.ANewSessionIsSound | crates/agent-session/src/core.rs:680-734 | a new session is where a run begins |
| CoreClass.SessionCore.StartNext | crates/agent-session/src/core.rs:1089-1132 | starts what is next, as `QueueOrder.StartingNextStartsTheRightOne` says, or settles |
| CoreClass.SessionCore.WriteIntoFailedTurn | crates/agent-session/src/core.rs:1234-1242 | writes the waiting input into the failed turn that alone holds it |
| CoreClass.SessionCore.PushAction | crates/agent-session/src/core.rs:1055-1067 | queues an action and starts it when nothing runs |
| CoreClass.SessionCore.QueueSteers | crates/agent-session/src/core.rs:1496-1506 | moves the waiting steers into the queue |
| CoreClass.SessionCore.WriteInputsInto | crates/agent-session/src/core.rs:2202-2245 | writes the inputs a boundary takes, in arrival order |
| CoreClass.SessionCore.PushInputs | crates/agent-session/src/core.rs:2208-2242 | one block an input, the reports as one where the first arrived |
| CoreClass.SessionCore.Steer | crates/agent-session/src/core.rs:1991-2049 | accepts a steer once while the session is open |
| CoreClass.SessionCore.AdmitSend | crates/agent-session/src/core.rs:1007-1034 | admits a message once |
| CoreClass.SessionCore.AdmitReport | crates/agent-session/src/core.rs:2331-2364 | admits a report unless the session closes or its end was seen |
| CoreClass.SessionCore.AdmitAgentMessage | crates/agent-session/src/core.rs:2123-2188 | admits an agent's message once, wakes the session for the same one again, waiting or written, and opens a continuation for the user's decision |
| CoreClass.SessionCore.SendNext | crates/agent-session/src/core.rs:1899-1913 | moves a queued message ahead of every other message |
| CoreClass.SessionCore.ClearQueue | crates/agent-session/src/core.rs:1937-1954 | drops the queued messages and keeps the other actions |
| CoreClass.SessionCore.AbortStep | crates/agent-session/src/core.rs:1510-1574 | stops the running action, else the first waiting one, and decides whether the message goes back (also lines 1687-1709) |
| CoreClass.SessionCore.StopForEdit | crates/agent-session/src/core.rs:842-861 | stops the running turn for an edit of its message and gives nothing back |
| CoreClass.SessionCore.BeginDispose | crates/agent-session/src/core.rs:1841-1859 | ends admissions, keeps the queued messages, cancels the running action |
| CoreClass.SessionCore.GiveBack | crates/agent-session/src/core.rs:1714-1743 | takes the stopped turn's message back |
| CoreClass.SessionCore.AbortExecutingCalls | crates/agent-session/src/core.rs:1786-1829 | completes each running call |
| CoreClass.SessionCore.RecordStop | crates/agent-session/src/core.rs:1613-1657 | records a stop, by its reason |
| CoreClass.SessionCore.Fail | crates/agent-session/src/core.rs:1749-1756 | writes the inputs but the steers and completes the calls |
| CoreClass.SessionCore.ShutDown | crates/agent-session/src/core.rs:1470-1491 | records an interruption or puts the message back, queues the steers and closes |
| CoreClass.SessionCore.FailurePassed | crates/agent-session/src/core.rs:1217-1226 | ends the hold of the last turn's failure |
| Recovery.TheScanPassesOnlyLeftovers | crates/agent-transcript/src/cut.rs:50-76 | the scan back from the end passes only what nobody can have acted on, and stops at the first other block |
| Recovery.InferenceResumesAfterWhatWasActedOn | crates/agent-transcript/src/cut.rs:50-76 | inference goes on after the last block somebody can have acted on, and runs a turn again if and only if that block began it |
| Recovery.UnwindingKeepsEveryCompaction | crates/agent-transcript/src/cut.rs:78-84 | a resume keeps every compaction |
| Recovery.UnwindingKeepsMessages | crates/agent-transcript/src/cut.rs:78-84 | unwinding a turn to its resume point loses no message |
| Recovery.AnAttemptIsDroppedExactlyWhenItIsLeftovers | crates/agent-session/src/turn.rs:428-432 | an attempt can be dropped if and only if it wrote only leftovers and compactions, and dropping it loses no message (also lines 510-515) |
| Recovery.ARetryKeepsMessagesExactlyWhen | crates/agent-transcript/src/cut.rs:113-143 | a retry keeps every message if and only if each steer after the input it reruns is of that turn |
| Recovery.ARetryRunsTheLastInputAgain | crates/agent-transcript/src/cut.rs:110-131 | a retry runs again the last input that opened a turn: a message, a context or a wakeup that began one, or an agent's message whose turn nothing came before |
| Recovery.ARetryKeepsThose | crates/agent-transcript/src/cut.rs:113-143 | of the blocks behind that input it keeps, in order, exactly the agents' messages and the steers of its turn |
| Recovery.ARetryMayDropASteer | crates/agent-transcript/src/cut.rs:113-143 | a retry of a turn that was stopped and resumed drops the steer that joined the resumed turn |
| RetryPolicies.WaitsAreBounded | crates/agent-session/src/retry.rs:45-75 | no wait exceeds the ceiling, a retried vendor's wait is kept in full, and a random one is below a cap that never shrinks |
| RetryPolicies.TheCapDoubles | crates/agent-session/src/retry.rs:60-75 | as long as no number overflows the cap is the base wait at first and doubles with each attempt up to the ceiling |
| RetryPolicies.AnyWaitBelowTheCapMayCome | crates/agent-session/src/retry.rs:66-74 | without a vendor's wait, every whole number of milliseconds below the cap is one the wait may be |
| RequestOutputs.ARequestLeavesTheBlocksBeforeItExactlyWhen | crates/agent-session/src/core.rs:2595-2658 | for every list of events: a failed request leaves the blocks before it as they were if and only if no event names one of them (a vendor's step of the turn by its call, the last reasoning by a signature, an open last reasoning or text by what continues or completes it, an item's block by entries) and no vendor's step of the turn still ran (also lines 2711-2718, 2843-2929) |
| RequestOutputs.AnEventThatNamesABlockWritesIntoIt | crates/agent-transcript/src/log.rs:624-753 | an event that names a block from before the request writes into it |
| RequestOutputs.AnEventAfterStays | crates/agent-transcript/src/log.rs:606-753 | any other event leaves those blocks, and what it appends or writes into stands after them |
| RequestOutputs.StreamedTextIsOneBlock | crates/agent-transcript/src/log.rs:743-767 | text that streams in goes on in one open block, which is blank if and only if all of it is |
| RequestOutputs.AnAnsweredTextIsComplete | crates/agent-transcript/src/log.rs:769-790 | text at the end of a run is complete if and only if the run answered and no call still executes |
| RequestOutputs.ARunNamesWhatItWrote | crates/agent-session/src/core.rs:630-637 | a run names the thinking, steps, texts and calls it wrote in the order they stand, whatever it wrote into (also lines 2595-2658) |
| Streams.Stream | crates/agent-session/src/turn.rs:377-486 | one call sends at most max(1, attempts) + 1 requests with at most one refusal compaction and waits at most (attempts - 1) times the ceiling; each request goes from what the one before left, is retried or compacted for if and only if that helps and its output can be unwound, and otherwise ends the call as it ended; each that was dropped is cut off and leaves the transcript as it was exactly when no event of it named an earlier block and no vendor's step still ran |
| Streams.ARequestIsRetriedExactlyWhen | crates/agent-session/src/turn.rs:412-450 | a request whose output can be unwound is retried if and only if it failed for its rate, an overload or a device that is offline, is not the last attempt and is not asked to wait beyond the ceiling; it is dropped for a pass if and only if it was refused for its tokens and none was made; otherwise the call ends, each end exactly when it should |
| Streams.DroppingUndoesTheAttempt | crates/agent-session/src/turn.rs:428-432 | an attempt that can be dropped wrote only leftovers, and cutting it off restores the transcript before it under that condition and only then (also lines 510-515) |
| Streams.ADroppedAttemptMayLeaveAChange | crates/agent-session/src/turn.rs:428-432 | an attempt that updates a step an earlier request of the turn left is dropped, and the step stays as the attempt made it (also lines 510-515) |
| Turns.ACompletionEndsOneCall | crates/agent-transcript/src/log.rs:892-927 | a completion ends one executing call of its id, the latest, and no other |
| Turns.PendingCallsAreTheExecuting | crates/agent-transcript/src/log.rs:875-890 | the pending calls are the executing calls, each as often |
| Turns.RunTools | crates/agent-session/src/turn.rs:759-872 | the steps and the calls left are the requested calls in order, each step is of one tool that runs together, each call ends once, and none executes afterwards unless a stop came |
| Turns.RunTurn | crates/agent-session/src/turn.rs:114-255 | a turn asks the provider again after a round if and only if its reply was filtered and may be resumed, a pass gained, input arrived or its response requested calls, and no earlier end applied; otherwise it ends with that round, stopped, failed or answered as the round was; each round goes on from what the one before left; one that answers leaves no call executing, but in a session copy; it goes on after at most three filtered replies and compacts at most three times |
| Turns.PlayRound | crates/agent-session/src/turn.rs:114-255 | what one round makes of the transcript, and whether the turn goes on after it |
| Runtimes.EveryStepKeepsEachRuntime | crates/agent-session/src/core.rs:930-939 | every step keeps each runtime in as many places as it was in, with those it brings (also lines 969-1002, 1862-1868, 2407-2418, 2481-2510, 3219-3279, 3714-3727) |
| Runtimes.EveryRunKeepsEachRuntime | crates/agent-session/src/core.rs:930-939 | over every run a runtime that is brought once is in exactly one of the slot, out, the recorded switch, the waiting switch, the retired or handed out, and is not handed out twice (also lines 969-1002, 1862-1868, 2407-2418, 2481-2510, 3219-3279, 3714-3727) |
| Runtimes.AReturnLosesNoneExactlyWhen | crates/agent-session/src/lib.rs:654-658 | putting a run's runtime back loses none if and only if the slot is empty |
| Runtimes.DisposeHandsOutEveryRuntime | crates/agent-session/src/core.rs:1862-1868 | at the end of dispose every runtime is handed out, one that is out as it comes back (also lines 3232-3250) |
| Runtimes.TheLastRuntimeBroughtLands | crates/agent-session/src/core.rs:2407-2418 | of any switches recorded one after the other, the last that brought a runtime decides which is in the slot once they land; with none, the one that served stays (also lines 2481-2510, 3714-3727) |
| Runtimes.SwitchesWaitForTheEdit | crates/agent-session/src/core.rs:969-1002 | switches recorded while an edit is prepared leave the runtime that serves; accepted, the edit's is in the slot and theirs serves the request after it; rejected, theirs serves at once (also lines 2407-2418) |
| Runtimes.AReadiedRuntimeServesAgain | crates/agent-session/src/core.rs:3219-3250 | readying takes the runtime that serves; put back it serves again unless a switch brought another meanwhile |
| Runtimes.AVersionSwitchRenewsWhatServes | crates/agent-session/src/core.rs:930-939 | a switch of versions puts a fresh runtime wherever there was one |
| Runtimes.RuntimeSlots.RecordSwitch | crates/agent-session/src/core.rs:2407-2418 | records a switch in place of the pending one, or gives it back (also lines 3714-3727) |
| Runtimes.RuntimeSlots.InstallSwitch | crates/agent-session/src/core.rs:2481-2510 | lands the recorded switch, so that its runtime is in the slot as `Runtimes.TheLastRuntimeBroughtLands` says, and returns what it replaced |
| Runtimes.RuntimeSlots.AdoptEdit | crates/agent-session/src/core.rs:969-991 | lands an edit's runtime and records the switch that waited |
| Runtimes.RuntimeSlots.RejectEdit | crates/agent-session/src/core.rs:995-1002 | records the switch that waited |
| Runtimes.RuntimeSlots.AdoptSwitch | crates/agent-session/src/core.rs:930-939 | puts fresh runtimes in place of those there |
| Runtimes.RuntimeSlots.TakeLandingRuntime | crates/agent-session/src/core.rs:3219-3224 | takes the runtime the next request lands on |
| Runtimes.RuntimeSlots.ReturnLandingRuntime | crates/agent-session/src/core.rs:3232-3250 | puts it back, or returns it for closing |
| Runtimes.RuntimeSlots.TakeRuntimes | crates/agent-session/src/core.rs:1862-1868 | takes every runtime the session holds |
| Compaction.Window | crates/agent-transcript/src/compaction.rs:55-91 | the window of a pass starts at the last boundary and its cut is within the blocks, not before its start; where it is cut, `CompactionWindows.TheWindowIsCutAtTheLatestEnd` says |
| CompactionWindows.TheWindowIsCutAtTheLatestEnd | crates/agent-transcript/src/compaction.rs:43-91 | the cut is the latest end of a request the model answered that leaves the budget after it, else the latest the model answered, else the latest any model answered; with none since the last compaction, where the unanswered input begins, and not before the last boundary |
| CompactionWindows.EveryAnswerHasItsEnd | crates/agent-transcript/src/compaction.rs:106-133 | every response since the last compaction gives the end of its request, where the answer before it begins, and its model |
| CompactionWindows.TheInputBegins | crates/agent-transcript/src/compaction.rs:135-150 | the unanswered input begins at the last user block after the last response, or right after that response, and nowhere else |
| Compaction.Answered | crates/agent-transcript/src/compaction.rs:106-133 | the ends of the answered requests are after the last compaction and strictly ascending |
| Compaction.Pass | crates/agent-session/src/compaction.rs:634-771 | start <= first < cut always holds; the first request carries the whole history, and after one that is too long the next carries the window alone and then its first half, down to one block, below which the pass fails; a pass over n blocks asks at most 2 + floor(log2 n) times, each time one copy and one more when that answers with calls alone; it ends as its last answer says, writes its boundary, marker and what still runs or its failure, and keeps every message |
| Compaction.Summarize | crates/agent-session/src/compaction.rs:866-896 | asks a second copy exactly when the first answers with calls alone, and fails when the second does too |
| Compaction.OneCopyARequestAndOneEachAgain | crates/agent-session/src/compaction.rs:866-896 | a pass asks one copy a request and one more for each request asked again, twice the requests at most |
| Compaction.CompactToFit | crates/agent-session/src/compaction.rs:523-546 | at most eight passes, which stop when the history fits or a pass compacts nothing |

## Left out

- Async plumbing, timers, logging, provider streams, device and shell environments: their outcomes are parameters.
- Images, attachments, prompts, titles and suggested replies: easy text code or library wrappers.
- Token estimation and replay: a block's weight is a parameter of the compaction window.
- Line counts of the changed files, and which ends are counted: the lists are modelled without them.
- The request each block belongs to is read from the `user` blocks of the transcript; calls read from the store before the window are part of the transcript here.
- A call planned before its block has a run takes it from the blocks before it; here each call has its run, as storing it gives.
- What an accepted edit and a switch of versions make of the history: a run of the session may put any blocks in its place, and counts the messages that come and go with them.
- What a session does when a rename panics: the lists of such a call are modelled with the files as they were before it.
- `keep_code_files` and `settle_picture` while an action runs: they change the transcript's revision, from which the session tells that an action began.
- The context card, idle-compaction times, output speeds and the account a request runs on: arithmetic that is easy beside the rest.
- The delivery marks of child rounds that a save carries, and the state row beside the transcript.
- DirtyRows.Marks.Indices: the lists of rows are sequences, not the ordered sets the code keeps.
- Streams.Stream: a pass that itself fails is not told from one that compacts nothing.
- QueueOrder.EveryRunTakesMessagesInOrder: runs leave out the steps by which the user reorders, withdraws or drops messages or disposes the session; `QueueOrder.TheUserMovesOneMessage` says what two of them do.
- Turns.RunTurn: a turn is the rounds it is given; that it ends is not claimed, since input and tool calls may go on without end.
- SaveRuns.EveryRunKeepsUnmarkedRowsStored: runs leave out the switches that lose a mark, after which a row differs from its stored one until it changes again.
- SessionRuns.AStepOfTheWorkerIsSound: an action completes only with no call executing, which `TurnRuns.RunMessage` and `TurnRuns.RunAction` prove of its turns; the turn of a session copy, whose calls never run, is no action of a session here.
- FailedTurns.EveryRunLeavesNoInputWaiting: a run begins with no failure before its first turn, as a new session does.
