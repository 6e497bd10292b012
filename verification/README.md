# Verification of the synak file-sync engine

A Dafny model of the sync engine of `syncd`: two or more nodes, each with an
index of versions (checksum, time, vector clock, tombstone flag), a disk and a
set of put-off deletions, running sessions over FIFO channels.

The model has two faces. Classes (`VectorClock`, `FileIndex`, `Provider`,
`StreamReader`, `StreamWriter`) follow the Python objects: methods update fields
in place and loop as the source does, and each is proved to compute a function
of its inputs and the old state. The theorems are about those functions, so they
hold of the methods.

| file | content |
|---|---|
| `Options.dfy`, `Orders.dfy` | optional values; some order for a finite set |
| `VectorClocks.dfy` | clocks, their order and merge |
| `FileIndexes.dfy`, `ScanTheorems.dfy`, `ScanFacts.dfy` | index, disk, scans and watch batches |
| `SyncEngines.dfy`, `Decisions.dfy` | verdicts, conflict strategies, what each side decides |
| `Sessions.dfy`, `StepFacts.dfy`, `PlainSessions.dfy`, `Cells.dfy` | a session as a function, its phases, sessions without renames, and the path-by-path form |
| `Convergence.dfy`, `Guarantees.dfy`, `KeepBoth.dfy`, `NoEcho.dfy`, `Renames.dfy`, `Deferrals.dfy` | what sessions achieve |
| `Duplicates.dfy`, `Concessions.dfy` | where they cannot, with the failing states and runs |
| `Histories.dfy` | vector clocks over whole runs of many nodes |
| `Protocol.dfy` | the two-party message machine and its runs |
| `Wires.dfy`, `Codecs.dfy`, `Streams.dfy` | framing, base64, that packets can be written as lines, raw streams |
| `Providers.dfy` | the provider's methods and both ends of a session, in place |

Conventions of the model:

- A checksum is an ideal digest: `Digest(content)`, or `Blank` for tombstones, so
  two contents share a checksum only if they are equal.
- A path is a nonempty string; an entry's own `path` field is the key it is
  stored under. Directories exist only as prefixes of file paths.
- The order in which a dictionary is visited is arbitrary: `Env` holds one order
  for each side's index, and every theorem holds for all of them. `Env` also
  holds the time at which each side writes each received file.
- Times are whole numbers of nanoseconds; the scan tolerance is a million of them. Exclusion patterns are one fixed predicate, which
  also excludes the `.synak` directory.
- The JSON text of a message is an abstract codec that can be decoded again and
  contains no newline; `Codecs.CodecExists` shows that there is one.
- Handling one message is one atomic step of its side.

Where the code and the documentation disagree, the model follows the code:

- `docs/provider-interface.md:219` and `:452` ask for the component-wise maximum
  when a remote entry is accepted; `apply_remote` stores the remote clock
  verbatim. `Guarantees.StoringIsMergingIff` says when the two agree and
  `Concessions.ConcessionMakesTwins` what goes wrong when they do not.
- `docs/provider-interface.md:368` promises that keep-both loses no data; it
  loses some when the conflict name is taken or the peer has a file of that name
  (`KeepBoth.ConflictContentLostIff`, `KeepBoth.ConflictCopyOverwritten`). It also says the local copy is renamed; the
  code copies it. `docs/config.md:70` gives another conflict name.
- `docs/provider-interface.md:451` asks for a clock increment on every write; a
  full scan restarts the clock of a path that reappears
  (`Histories.ScanKeepsSoundIff`, `Duplicates.RescanMakesTwins`).
- `syncd/syncd/sync/providers/p2p.py:7` calls propagation eventually
  bidirectional; where no renames interfere `Convergence.TwoWayConvergenceIff` gives
  the exact exception, and `Duplicates.RenamedIntoTwoDiverges` a failure by renames.

## Model

| member | source | states |
|---|---|---|
| `VectorClocks.VectorClock.Increment` | syncd/syncd/sync/vector_clock.py:13-14 | one own step; the old clock strictly precedes the new one |
| `VectorClocks.VectorClock.Update` | syncd/syncd/sync/vector_clock.py:16-19 | the in-place loop leaves the component-wise maximum of both clocks |
| `VectorClocks.MergeIsLeastUpperBound` | syncd/syncd/sync/vector_clock.py:17-19 | that maximum is the least clock above both |
| `VectorClocks.VectorClock.HappensBefore` | syncd/syncd/sync/vector_clock.py:21-32 | the flag loop decides strict precedence in the component order, missing nodes counting zero |
| `VectorClocks.VectorClock.EqualsIsSameHistory` | syncd/syncd/sync/vector_clock.py:34-37 | equality over the union of nodes is precedence both ways, so zero components do not matter |
| `VectorClocks.VectorClock.ConcurrentWith` | syncd/syncd/sync/vector_clock.py:39-41 | true exactly when neither clock is below the other |
| `VectorClocks.BeforeTransitive` | syncd/syncd/sync/vector_clock.py:21-32 | precedence is a strict order that respects equality |
| `SyncEngines.Reconcile` | syncd/syncd/sync/sync_engine.py:18-36 | the three-step comparison of two clocks yields the causal verdict |
| `SyncEngines.ResolveKeepBoth` | syncd/syncd/sync/sync_engine.py:44-59 | the local copy is saved under the conflict name if that is free, and the remote version wins |
| `SyncEngines.ConflictNameInjective` | syncd/syncd/sync/sync_engine.py:55 | two paths never share a conflict name |
| `SyncEngines.ConflictNamesApart` | syncd/syncd/sync/sync_engine.py:55 | two nodes never share the conflict name of a path; and its spelling |
| `KeepBoth.CopyPassIdempotent` | syncd/syncd/sync/sync_engine.py:50-58 | making the conflict copies of a whole pass a second time, in any visiting order, changes no file |
| `FileIndexes.FileIndex.Scan` | syncd/syncd/sync/file_index.py:98-145 | both loops together give the scanned index; the returned set is exactly the paths whose entry changed |
| `FileIndexes.FileIndex.ScanPresent` | syncd/syncd/sync/file_index.py:103-137 | the walk: new, reappeared and changed files get their entry, all others keep theirs |
| `FileIndexes.FileIndex.BuryUnseen` | syncd/syncd/sync/file_index.py:139-143 | live entries without a file become tombstones, nothing else changes |
| `FileIndexes.FileIndex.ScanOne` | syncd/syncd/sync/file_index.py:147-171 | one file reindexed, continuing the old clock; the result tells whether the index changed |
| `FileIndexes.FileIndex.MarkDirDeleted` | syncd/syncd/sync/file_index.py:173-182 | every live entry below the directory, and no other, becomes a tombstone |
| `FileIndexes.FileIndex.MarkDeleted` | syncd/syncd/sync/file_index.py:184-194 | a live path becomes a tombstone unless its name exists again |
| `FileIndexes.FileIndex.VerifyOne` | syncd/syncd/sync/file_index.py:220-232 | true exactly for a live entry whose present file has another checksum |
| `FileIndexes.FileIndex.MarkCorrupted` | syncd/syncd/sync/file_index.py:234-235 | the path joins the flagged set |
| `FileIndexes.FileIndex.ApplyRemote` | syncd/syncd/sync/file_index.py:240-267 | flag cleared; a tombstone removes the file, a live entry is stored with the file's own time and the remote clock verbatim |
| `ScanFacts.ScanChangesIff` | syncd/syncd/sync/file_index.py:112-143 | a scan changes an entry exactly when it is live without a visible file, or has a visible file but no live entry, or contents differ and times are more than a millisecond apart in either direction; it records the content and time of the file |
| `ScanFacts.ScanSeesOtherTimes` | syncd/syncd/sync/file_index.py:126-137 | a replaced file is found even if it is older than the one before |
| `ScanFacts.ScanTrustsCloseTimes` | syncd/syncd/sync/file_index.py:126 | within a millisecond on either side the entry stays |
| `ScanFacts.ReindexChangesIff` | syncd/syncd/sync/file_index.py:147-171 | the same of a single file, which touches no other path and never buries |
| `ScanFacts.BatchRecords` | syncd/syncd/sync/providers/_common.py:83-100 | whatever events a batch holds, a live entry it changes has the content and time of the file |
| `ScanFacts.DirDeletedIff` | syncd/syncd/sync/file_index.py:173-182 | a deleted directory buries exactly the live paths that continue its name after a slash |
| `ScanFacts.NameDeletedIff` | syncd/syncd/sync/file_index.py:184-194 | a deleted name buries its own live path, exactly when it is neither a file nor a directory any more |
| `ScanFacts.DirTouchedAt` | syncd/syncd/sync/providers/_common.py:93-97 | a touched directory reindexes exactly the files below it, again by the slash |
| `ScanTheorems.IncrementalScanIsFullRehashIff` | syncd/syncd/sync/file_index.py:98-145 | the incremental scan equals hashing every file exactly when the time shortcut hides no changed content |
| `ScanTheorems.IncrementalScanInSyncIff` | syncd/syncd/sync/file_index.py:98-145 | the scan leaves live paths equal to the visible files with their checksums under exactly that condition |
| `ScanTheorems.FullRehashInSync` | syncd/syncd/sync/file_index.py:115-143 | hashing every file always does |
| `ScanTheorems.ScanIdempotent` | syncd/syncd/sync/file_index.py:98-145 | a second scan of the same disk changes nothing |
| `ScanTheorems.ScanOfInSyncIsIdentity` | syncd/syncd/sync/file_index.py:112-143 | scanning a truthful index changes no entry and no clock |
| `ScanTheorems.WatchBatchIsScanIff` | syncd/syncd/sync/providers/_common.py:83-100 | a batch covering all changes gives in every order the live view of a full scan exactly when no delete event names a directory that exists again |
| `ScanTheorems.BatchInSync` | syncd/syncd/sync/providers/_common.py:87-100 | such a batch leaves a truthful index |
| `ScanTheorems.RevivedLastLies` | syncd/syncd/sync/file_index.py:173-182 | handled last, a delete event for a revived directory hides its files |
| `Decisions.LastVisitedWins` | syncd/syncd/sync/providers/_common.py:107-111 | the checksum table holds a checksum exactly when a visited live path bears it, and names the last such path |
| `Providers.LiveByChecksum` | syncd/syncd/sync/providers/_common.py:201-205 | the loop builds that table, the last path of a checksum winning |
| `Providers.Provider.ComputeNeeded` | syncd/syncd/sync/providers/_common.py:105-135 | the loop returns the wanted paths in order and makes the conflict copies as it goes |
| `StepFacts.NeededFollows` | syncd/syncd/sync/providers/_common.py:112-135 | the wanted paths come in visiting order, at most one for each visit |
| `StepFacts.WantsDistinct` | syncd/syncd/sync/providers/_common.py:112-135 | so no path is asked for twice |
| `Providers.Provider.ResolveConflict` | syncd/syncd/sync/providers/_common.py:137-147 | same checksum keeps local; keep-both copies and concedes; otherwise the newer time wins |
| `Providers.Provider.ApplyIncomingFile` | syncd/syncd/sync/providers/_common.py:178-193 | a pushed file is stored if absent, dominated, or conceded by the strategy |
| `Providers.Provider.ApplyIncomingStream` | syncd/syncd/sync/providers/_common.py:149-176 | the streamed counterpart; accepted or drained, exactly the declared bytes leave the stream |
| `Providers.Provider.ApplyRemoteDeletions` | syncd/syncd/sync/providers/_common.py:195-226 | the loop over tombstones computes the whole deletion pass: removals, deferrals and withdrawals |
| `Providers.Provider.ApplyLocalRenames` | syncd/syncd/sync/providers/_common.py:228-245 | the loop replays the remote's renames over a snapshot of the index |
| `Providers.Provider.ApplyRename` | syncd/syncd/sync/providers/_common.py:247-272 | file moved, tombstone with an own step at the source, remote entry at the target; nothing if the source does not match |
| `Providers.Provider.ServeFile` | syncd/syncd/sync/providers/_common.py:274-283 | the bytes of a reply, inline or header and raw run by size, exactly for a live path with a file |
| `Providers.Provider.ServeNext` | syncd/syncd/sync/providers/p2p.py:248-255 | one request read off the wire and answered; only SYNC_DONE ends the loop |
| `Providers.Provider.AnswerHello` | syncd/syncd/sync/providers/p2p.py:239-245 | the listener sends its index as it was before it hears of deletions |
| `Providers.Provider.WatchBatch` | syncd/syncd/sync/providers/_common.py:83-100 | the event loop computes the batch function and returns true exactly when the index changed: later events never cancel earlier ones |
| `Providers.Provider.VerifyPass` | syncd/syncd/sync/providers/_common.py:301-307 | flags exactly the live files that no longer match |
| `Providers.Provider.PullFrom` | syncd/syncd/sync/providers/p2p.py:176-188 | over bytes, each requested path is stored as served, in memory or as it streams in; the server must have the files |
| `Providers.Provider.FindRenames` | syncd/syncd/sync/providers/p2p.py:198-206 | the renames table holds exactly the live paths whose content the peer has under a name this node deleted |
| `Providers.Provider.PushTo` | syncd/syncd/sync/providers/p2p.py:193-222 | the bytes pushed: renames, inline files and streamed files, in order |
| `StepFacts.PushesDistinct` | syncd/syncd/sync/providers/p2p.py:208-222 | no path is pushed twice in a session |
| `Providers.Provider.AcceptPushes` | syncd/syncd/sync/providers/p2p.py:257-270 | reading bytes, every pushed frame is applied in order and reading stops right after the ACK |
| `Providers.RunSession` | syncd/syncd/sync/providers/p2p.py:159-276 | all phases in place and over the bytes of two channels leave both sides as the framed session function says, when every request can be answered |
| `StepFacts.WantedIsServed` | syncd/syncd/sync/providers/_common.py:274-283 | whatever the initiator asks for is still live at the listener in the version it announced, so never a path just deleted; it is served exactly when its file is there |
| `StepFacts.SessionKeepsBacked` | syncd/syncd/sync/file_index.py:240-267 | live entries stay backed by files of their checksum through every phase, renames included |
| `Cells.OnePathNoRename` | syncd/syncd/sync/providers/_common.py:228-245 | with one path per content, level paths aside, no rename fires in either direction |
| `Cells.SessionIsCellwise` | syncd/syncd/sync/providers/p2p.py:159-276 | with one path per content, level paths aside, the whole session equals the path-by-path form |
| `Cells.SessionKeepsOnePath` | syncd/syncd/sync/providers/p2p.py:159-276 | that assumption survives a session |
| `Convergence.TwoWayConvergenceIff` | syncd/syncd/sync/providers/p2p.py:1-14 | under every mix of strategies and after any schedule of sessions in which each side initiates at least once, the live views agree exactly when no path is in stalemate |
| `Convergence.ScheduleConvergesAt` | syncd/syncd/sync/providers/p2p.py:159-276 | the same per path: it ends the same on both sides, and stays so through all later sessions, exactly when it is not in stalemate; a stalemate is never touched |
| `Convergence.StalemateIff` | syncd/syncd/sync/sync_engine.py:39-59 | a stalemate takes last-write-wins: on both sides and equal times, or on the side of a tombstone against a live version without a positive time |
| `Convergence.SurvivorRemains` | syncd/syncd/sync/sync_engine.py:39-41 | under last-write-wins what remains on both sides is the later, else live, else newer version |
| `Convergence.FirstRound` | syncd/syncd/sync/providers/p2p.py:159-276 | what the first session of one side leaves of a path: a stalemate as it was, agreement, a deferred deletion, or a conflict only the other side can settle |
| `Convergence.RepeatedRound` | syncd/syncd/sync/providers/p2p.py:159-276 | further sessions from the same side settle nothing more than a deferred deletion |
| `Convergence.SecondRound` | syncd/syncd/sync/providers/p2p.py:159-276 | a session from the other side settles every such path except stalemates |
| `Convergence.AgreementReachesDisk` | syncd/syncd/sync/providers/p2p.py:159-276 | equal live views of backed indexes are equal file contents |
| `Convergence.OneWayConvergenceIff` | syncd/syncd/sync/providers/client_server.py:127-259 | two client-initiated sessions make the live views equal exactly when no path holds a conflict that only the server could settle by initiating; without concurrent versions none does |
| `Convergence.OneWayConvergesAt` | syncd/syncd/sync/providers/client_server.py:127-259 | per path: comparable versions end equal in checksum and history, deferred deletions of either side included, the later version remaining unless the path was flagged |
| `Duplicates.MissingPathAskedIff` | syncd/syncd/sync/providers/_common.py:114-125 | a path not held live is asked for exactly when no live path carries its content and its tombstone, if any, is strictly older |
| `Duplicates.DuplicateNeverArrives` | syncd/syncd/sync/providers/_common.py:117-120 | whatever else the nodes hold, a content's second name never reaches an initiator that has the first, however many sessions it starts |
| `Duplicates.DuplicateArrives` | syncd/syncd/sync/providers/p2p.py:208-222 | one session that the holder of both names starts delivers it |
| `Duplicates.RenamedIntoTwoDiverges` | syncd/syncd/sync/providers/_common.py:254-272 | a file renamed into two defeats two-way convergence: the second RENAME_FILE finds its source gone, and sessions from the other side never make up for it |
| `Duplicates.PlanDiverges` | syncd/syncd/sync/providers/_common.py:254-272 | the shortest such schedule: one session from each side |
| `Duplicates.RenamedIntoTwoExists` | syncd/syncd/sync/providers/_common.py:254-272 | a concrete pair of nodes that meets all other assumptions of the convergence results |
| `Duplicates.TwinsStayApartIff` | syncd/syncd/sync/sync_engine.py:30-31 | one history with two contents is never told apart, unless the initiator has flagged its copy |
| `Duplicates.RescanMakesTwins` | syncd/syncd/sync/file_index.py:115-125 | a full scan after delete and re-creation reuses the first version's clock |
| `Concessions.ConcessionMakesTwins` | syncd/syncd/sync/file_index.py:261-267 | a concrete run: two nodes, three sessions through a relay and one edit on each side end with one history and two contents |
| `Concessions.RelayForgets` | syncd/syncd/sync/providers/_common.py:137-147 | why: each of the two concedes to the other's first version and forgets its own edit |
| `Histories.ClocksAreSound` | syncd/syncd/sync/vector_clock.py:13-37 | over whole runs of any number of nodes, full scans included: precedence is strict inclusion of edit sets, equal history is the same version, own components are the largest anywhere |
| `Histories.StepKeepsSound` | syncd/syncd/sync/file_index.py:98-218 | every reindexing, scan, sending, delivery and session of a run keeps that |
| `Histories.ScanKeepsSoundIff` | syncd/syncd/sync/file_index.py:98-145 | a full scan keeps it exactly when no path that reappears has a tombstone counting an own edit |
| `Histories.StoringKeepsSoundIff` | syncd/syncd/sync/file_index.py:261-267 | storing a remote clock verbatim keeps it exactly when that clock counts as many of the node's own edits as the one it replaces |
| `Histories.MeetingKeepsSoundIff` | syncd/syncd/sync/providers/p2p.py:159-276 | a session in which no rename fires keeps it exactly when no side concedes, revives or refetches a version that lacks an edit of its own |
| `Histories.RenameIsThreeSteps` | syncd/syncd/sync/providers/_common.py:254-265 | replaying a rename whose target is let in is three steps of such a run |
| `Histories.RescanForgetsIff` | syncd/syncd/sync/file_index.py:115-118 | the scan continues a tombstone's history exactly when that history was empty |
| `Histories.ReindexContinues` | syncd/syncd/sync/file_index.py:163-164 | reindexing one file always continues it |
| `Guarantees.LevelNodesAreQuiescent` | syncd/syncd/sync/providers/_common.py:105-147 | between level nodes nothing is asked for or pushed and both replicas stay as they are, duplicates included |
| `Guarantees.SessionStaysOrMovesIff` | syncd/syncd/sync/providers/_common.py:105-193 | in a session in which no rename fires, both entries of a path stay or give way to a strictly later version exactly when no conflict on it is conceded |
| `Guarantees.SessionAdvances` | syncd/syncd/sync/providers/_common.py:105-193 | then each entry stays, appears, or moves to a strictly larger history equal to the merge; a stale live copy never replaces a tombstone that knows of it |
| `Guarantees.StoringIsMergingIff` | docs/provider-interface.md:452 | storing a clock verbatim is the required merge exactly when the local history is contained in it |
| `Guarantees.FlaggedPathIsRepairedIff` | syncd/syncd/sync/providers/_common.py:126-134 | a flagged path is fetched anew, entry and content the listener's, exactly when the versions are not concurrent or the strategy concedes; else entry, file and flag stay |
| `Guarantees.SameChecksumIsNotRepaired` | syncd/syncd/sync/providers/_common.py:138-139 | so a damaged file stays damaged when the peer's copy is a concurrent version with the recorded checksum |
| `KeepBoth.InitiatorLosesNothing` | syncd/syncd/sync/sync_engine.py:44-59 | with free conflict names every content of the initiator survives unless strictly dominated |
| `KeepBoth.ListenerLosesNothing` | syncd/syncd/sync/providers/_common.py:178-226 | every file of the listener stays unless strictly dominated |
| `KeepBoth.IncomingKeepsConflict` | syncd/syncd/sync/providers/_common.py:149-193 | a keep-both node that is pushed a conflicting version has its own file under the free conflict name before the new one is written, streamed or not |
| `KeepBoth.IncomingOverTakenName` | syncd/syncd/sync/sync_engine.py:57 | with the name taken it is overwritten without a copy |
| `KeepBoth.ConflictContentKeptIff` | docs/provider-interface.md:368 | the local content of a conflict is kept under its conflict name exactly when the file pulled under that name holds it or, if none is pulled, the name is free or holds it already |
| `KeepBoth.ConflictContentLostIff` | docs/provider-interface.md:368 | a content held nowhere else is gone exactly when its conflict name is asked for or taken |
| `KeepBoth.TakenNameLosesContent` | syncd/syncd/sync/sync_engine.py:57 | so it is gone when another file has the name |
| `KeepBoth.PulledNameLosesContent` | syncd/syncd/sync/providers/p2p.py:176-188 | and when the copy is made but the listener has a new file of that name, which the pull writes over it |
| `KeepBoth.ConflictCopyOverwritten` | syncd/syncd/sync/providers/p2p.py:176-188 | a concrete pair of truthful nodes at which that happens |
| `NoEcho.InitiatorEchoIff` | syncd/syncd/sync/file_index.py:98-145 | under any strategy, a scan after the session changes an entry at the initiator exactly when its path is a new conflict copy that is not excluded |
| `NoEcho.InitiatorHasNoEchoIff` | syncd/syncd/sync/file_index.py:98-145 | so index and disk agree and that scan is the identity exactly when no such copy was made |
| `NoEcho.ListenerHasNoEcho` | syncd/syncd/sync/file_index.py:98-145 | at the listener they always agree and the scan is always the identity, renames included |
| `NoEcho.CopyMadeIff` | syncd/syncd/sync/sync_engine.py:55-58 | the copies the initiator makes are those of clashing paths that no replayed rename has settled |
| `NoEcho.PulledIsNotRehashed` | syncd/syncd/sync/file_index.py:259-260 | a pulled file is recorded with its time on disk |
| `NoEcho.SessionKeepsTimed` | syncd/syncd/sync/file_index.py:259-267 | if every live entry records its file's time, so it does after a session on both sides, pushes and renames included |
| `Renames.LocalRenamesOutcome` | syncd/syncd/sync/providers/_common.py:228-265 | the rename pass path by path: sources buried, targets as at the remote with the moved content, all else untouched |
| `Renames.RenameOrderIrrelevant` | syncd/syncd/sync/providers/_common.py:237-245 | times aside, the visiting order does not matter |
| `Renames.RenamedContentsIff` | syncd/syncd/sync/providers/_common.py:254-265 | a content is live after the pass exactly when a live path had it that is due to be renamed or is no target |
| `Renames.RenamesKeepContents` | syncd/syncd/sync/providers/_common.py:254-265 | so no live content is lost or invented if no target holds another one |
| `Renames.OverwrittenContentIsLost` | syncd/syncd/sync/providers/_common.py:254-265 | and one held only by a target of another content's rename is lost |
| `Renames.RenamesAdvanceIff` | syncd/syncd/sync/providers/_common.py:254-265 | the pass never moves a history back exactly at paths that are no target or whose version the remote's dominates |
| `Renames.RenameOverwrites` | syncd/syncd/sync/providers/_common.py:237-245 | concrete replicas where it loses a content and moves a history back: one of two equal files edited here, the other deleted there |
| `Renames.DeletionOrRename` | syncd/syncd/sync/providers/_common.py:213-216 | a path due to be renamed is neither removed nor put off by the deletion pass |
| `Renames.ListenerMoveTravels` | syncd/syncd/sync/providers/_common.py:228-265 | a move made at the listener is replayed in one session with no request and no push for either path |
| `Renames.InitiatorMoveTravels` | syncd/syncd/sync/providers/p2p.py:193-217 | a move made at the initiator reaches the listener as exactly one RENAME_FILE; no other message concerns either path |
| `Deferrals.DeletionHasItsDeferral` | syncd/syncd/sync/providers/_common.py:217-225 | over a whole life each deletion uses up an earlier deferral of its own |
| `Deferrals.DeferralsAreConserved` | syncd/syncd/sync/providers/_common.py:209-224 | deferrals equal deletions plus withdrawals plus those still pending |
| `Deferrals.PassMeaning` | syncd/syncd/sync/providers/_common.py:206-226 | when a pass defers, deletes and withdraws, said of the two indexes alone; a deferral whose tombstone no longer dominates stays |
| `Protocol.EveryStateIsSafe` | syncd/syncd/sync/providers/p2p.py:165-270 | in every reachable state the phases agree, replies follow requests one at a time, and someone can move unless both are done or the initiator waits for a file the listener does not have, for both HELLO orders |
| `Protocol.RequestsAreDistinct` | syncd/syncd/sync/providers/p2p.py:176-178 | in every reachable state no request and no reply has been repeated |
| `Protocol.BackedIsAnswerable` | syncd/syncd/sync/providers/_common.py:274-283 | when live entries are backed by files, every request is answered |
| `Protocol.FinishedRunIsSession` | syncd/syncd/sync/providers/client_server.py:134-259 | whatever the interleaving, a finished run has empty channels, one reply per request, and both sides as the session function says |
| `Protocol.EveryRunCanFinishIff` | syncd/syncd/sync/providers/p2p.py:165-270 | a run can be continued to a finished one exactly when the listener has the file of every path asked for |
| `Protocol.EveryRunStops` | syncd/syncd/sync/providers/_common.py:274-283 | otherwise every run comes to hang on a request that is dropped in silence |
| `Protocol.RunCounts` | syncd/syncd/sync/providers/p2p.py:165-270 | all interleavings take the same number of steps, so none runs on |
| `Wires.StreamRoundTrip` | syncd/syncd/sync/protocol.py:33-45 | any mix of messages and raw runs, newlines included, is read back exactly |
| `Codecs.CodecExists` | syncd/syncd/sync/protocol.py:33-45 | there is a text for every packet, without newline, from which it is read back |
| `Wires.StreamWriter.SendFileData` | syncd/syncd/sync/protocol.py:91-105 | inline below the threshold, header and chunked bytes from it on |
| `Streams.FileIsStreamedIff` | syncd/syncd/sync/protocol.py:91-105 | a file is streamed exactly from 67108864 bytes on |
| `Streams.SessionFramesFit` | syncd/syncd/sync/protocol.py:24-30 | every inline reply and push of a session stays within the line limit, and only large files are streamed |
| `Wires.StreamReader.ReadMessage` | syncd/syncd/sync/protocol.py:33-40 | takes one line off the stream and decodes it |
| `Wires.StreamReader.ReadRaw` | syncd/syncd/sync/protocol.py:118-123 | the chunk loop takes exactly the declared bytes, kept or drained |
| `Providers.Provider.RecvStreamToDisk` | syncd/syncd/sync/protocol.py:108-131 | the bytes reach the final name through a temporary one; a short stream touches only the temporary file |
| `Wires.ContentRoundTrip` | syncd/syncd/sync/protocol.py:48-53 | base64 decoding inverts encoding (section 4 of RFC 4648) |
| `Wires.GroupsAreBigEndian` | syncd/syncd/sync/protocol.py:48-49 | each four symbols are the 24 bits of three bytes, the first most significant, padded at the end (section 4 of RFC 4648) |
| `Wires.InlineFitsIff` | syncd/syncd/sync/protocol.py:28-30 | every inline file fits the line limit exactly when the rest of its line takes at most 11184812 bytes |
| `Streams.StreamIsInMemoryIff` | syncd/syncd/sync/providers/_common.py:149-193 | streamed and in-memory receive agree exactly when the file is rejected or no file has its temporary name |
| `Streams.TempNameSpelled` | syncd/syncd/sync/protocol.py:114 | the spelling of the temporary name |
| `Streams.StreamDiffersOnlyInTemp` | syncd/syncd/sync/providers/_common.py:149-193 | in every case they differ at most in the temporary file |
| `Streams.FramingIsInvisible` | syncd/syncd/sync/protocol.py:91-105 | a whole push phase leaves the same listener however its files are framed |
| `Streams.PullFramingIsInvisible` | syncd/syncd/sync/providers/p2p.py:179-187 | a whole pull phase leaves the same initiator however the replies are framed |
| `Streams.FramedSessionIsSession` | syncd/syncd/sync/providers/p2p.py:159-276 | so the whole session over frames is the session of single messages |

## Left out

- Convergence.TwoWayConvergenceIff: assumes that each content has one path, paths in one version on both sides aside; some assumption of this kind is needed, since renames found by checksum alone can defeat convergence (`Duplicates.RenamedIntoTwoDiverges`), but this one is not the weakest. It also assumes that equal histories mean equal versions, because scans and conceded conflicts can break that (`Duplicates.TwinsStayApartIff`), and that both nodes carry out deletions.
- Histories.ClocksAreSound: a full scan, a delivery or a session that forgets an own edit is not a step of a run; such steps can make twins (`Duplicates.RescanMakesTwins`, `Concessions.ConcessionMakesTwins`). Sessions in which a rename fires are not single steps, but a replayed rename is a run of three (`Histories.RenameIsThreeSteps`).
- Guarantees.SessionAdvances: assumes no rename fires; when the rename pass moves a history back is `Renames.RenamesAdvanceIff`.
- KeepBoth.InitiatorLosesNothing: assumes no rename of the listener's is replayed and the path is not flagged; which contents the rename pass loses is `Renames.RenamedContentsIff`. `KeepBoth.ListenerLosesNothing` also assumes the initiator announces none.
- ScanTheorems.WatchBatchIsScanIff: assumes no name is both a file and a directory and that the modification time hides no change.
- Streams.FramedSessionIsSession: assumes no file with a `.synak.tmp` name on either side, since a stream overwrites and removes one (`Streams.StreamIsInMemoryIff`).
- Protocol.EveryStateIsSafe: assumes no local edit during the session.
- Concurrent sessions on one node, edits during a session, broken connections and operating-system errors.
- Sync loops, pause and resume, status and error strings, ports and sockets, the verify timer.
- Loading and saving the index file, the `.synak` directory, pruning of empty parent directories, the retried replace on Windows.
- Three-way and larger sessions as such: `Histories.dfy` covers any number of nodes meeting in pairs.
- HTTP API, command line, web interface, configuration parsing, subprocess providers.
