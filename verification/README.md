# DBTrail: a verified model of the snapshot daemon's core

DBTrail keeps a change index of a MySQL source and a series of snapshots, and brings the newest
snapshot forward from the recorded changes ("update", or refresh) instead of reading the source in
full. This project models the parts of it where a mistake would lose a backup, repeat work for ever,
or report something false, and proves what those parts are for. One module per component:

| file | component |
|---|---|
| `coverage.dfy` | the line the refresh gate and the fold share, and keeping snapshots inside the index's window |
| `refresh_gate.dfy` | skipping a cycle when nothing was indexed: marks, anchor, fold, memo, interleaved with the index |
| `event_counts.dfy` | counting the events an update applied, from memory or from the run history |
| `job_protocol.dfy` | the crash journal: lock files, whole-file saves and reclaims by any number of processes and hosts |
| `job_records.dfy` | what the run history says of a run, and what a released or reclaimed one leaves |
| `job_reuse.dfy` | when a job may make a directory its own that an earlier run may have had |
| `reclaim.dfy` | removing what a killed job left on disk, with a crash possible between any two file operations |
| `supervisor.dfy` | the five kinds of job that share one slot per server |
| `schedule_slots.dfy` | the schedule's grid of slots, edge-triggered firing, the full copy a busy server leaves owed |
| `stand_ins.dfy` | what is started after a scheduled job ends, and how such full reads are rationed |
| `pace.dfy` | grading whether updates are falling behind |
| `disk_verdict.dfy` | the disk check before a full read |
| `resolved_pairs.dfy` | retiring resolved pairs while statements may still read them |
| `byos_loop.dfy` | the agent's stream loop, its batches, sinks and retries |
| `proxysql.dfy` | the generated ProxySQL script and the quoting in it |
| `dump_dir.dfy` | moving a previous dump aside and putting it back |

Code that changes objects, files or maps step by step is modelled by classes and methods with loops;
decisions are functions. Concurrency is a state machine: every critical section, file operation or
system call is one step, and the theorems are about every sequence of steps. What comes from outside
(the clock, the network, which file operations are refused, what mydumper writes, what `select` picks) is an
input or a free choice.

Where the code does not meet a property for all inputs, the property is stated with the exact
condition and the failing family is shown:

- a directory made a job's own while a reclaim can still come for it, or while another job is at work in it
  (`JobReuse.ClaimIsSafeExactlyWhenReusable`, `JobReuse.ReuseHappens`);
- a statement stamped past the fold's instant (`RefreshGate.LateStatementIsHidden`), reached by a source
  clock ahead (`RefreshGate.SourceAheadHides`) and, had the instant been taken before the marks, by
  agreeing clocks too (`RefreshGate.AnchorFirstHides`);
- a rebuilt index (`RefreshGate.RebuiltIndexHidesOnlyByCoincidence`, `RefreshGate.RebuiltIndexHides`);
- an index window shorter than the daemon's with rotation behind (`Coverage.OverdueIndexExactly`,
  `Coverage.OverdueIndexWindowOutrunsTheLine`);
- a mark of zero after a restart (`EventCounts.MemoryAndHistoryAgree`);
- a peak past 64 bits (`DiskVerdict.ExactUnlessThePeakWraps`, `DiskVerdict.WrappedPeakPassesTooMuch`).

`dafny verify dfyconfig.toml` checks the whole project.

## Model

| member | source | states |
|---|---|---|
| `Coverage.CoveredIsTheVerdict` | consoleapp/baseline_refresh_gate.go:156-202 | a snapshot is covered exactly when the floor is known, the product's own staleness verdict is OK, it is less than 0.8 of the configured retention old, and it is an hour and an interval past the floor and past what the retention leaves unless the floor is known to hold |
| `Coverage.LineMonotoneInNow` | consoleapp/baseline_refresh_gate.go:156-180 | at one floor and rule the line never moves back in time |
| `Coverage.LineNotBelowFloor` | consoleapp/baseline_refresh_gate.go:156-180 | the line is never more than a nanosecond below the floor |
| `Coverage.FreshChainCovered` | consoleapp/baseline_refresh_gate.go:120-202 | a chain begun one interval ago is still covered exactly when floor and retention are more than an hour and two intervals behind, with the exact variant where the floor holds |
| `Coverage.RotationReaches` | internal/rotation/rotation.go:119-129 | dropping hourly partitions older than the cutoff moves the floor no further than an hour past the cutoff |
| `Coverage.SurvivesMeansNoFloorPasses` | consoleapp/baseline_refresh_gate.go:105-118 | a start survives an interval exactly when no floor rotation can reach in it passes the start |
| `Coverage.FloorHoldsExactly` | consoleapp/baseline_refresh_gate.go:182-202 | the floor is known to hold exactly when the index's window is known and no rotation before the next look, on it or on the configured one, moves the floor |
| `Coverage.KeepaliveExact` | consoleapp/baseline_refresh_gate.go:156-202 | for every rule, floor and window, everything the gate calls covered survives until the next look exactly when 0.8 of what the index holds, 0.8 of the retention, or an effective floor not known to hold leaves the window its hour and interval; every window the rule speaks for is left it |
| `Coverage.OverdueIndexExactly` | consoleapp/baseline_refresh_gate.go:182-202 | with rotation behind on a window shorter than the retention, or with none configured, it survives exactly when 0.8 of what the index holds, or of the retention, leaves that window its hour and interval |
| `Coverage.OverdueIndexWindowOutrunsTheLine` | consoleapp/baseline_refresh_gate.go:182-202 | an index of that family that fails: called covered, and passed by a floor rotation can reach |
| `Coverage.EarliestStart` | internal/reconstruct/baseline_readbound.go:210-243 | where the readers of a snapshot start: the least start of any table, and attained |
| `Coverage.FoldMovesEveryStart` | internal/reconstruct/tabledelta.go:291-370 | after a fold every reader starts at the fold or strictly after the line it ended chains on |
| `Coverage.TablesLastUntilEnded` | internal/reconstruct/tabledelta.go:291-370 | over any folds a chain keeps its start, and a carried table its file, until a fold chooses to rewrite it or finds it at or before the line |
| `Coverage.FoldEndsOrExtends` | internal/reconstruct/tabledelta.go:291-370 | a rewrite, or a line that has reached it, starts a table's chain at the fold; an extension starts one at its file |
| `Coverage.GateAndFoldAgree` | consoleapp/baseline_refresh_loop.go:578-599 | every start that opened the gate is ended by the fold anchored later, and the gate then closes exactly when a snapshot dated at the fold is covered at all: no livelock |
| `Coverage.ForcedStartNeverReturns` | consoleapp/baseline_refresh_loop.go:578-599 | over any run of folds at increasing instants, a start that forced one is never a start again: each forces at most one fold |
| `Coverage.CycleKeeps` | consoleapp/baseline_refresh_loop.go:856-919 | one cycle, skipped or folded, leaves a snapshot that survives until the next |
| `Coverage.CycleFoldsExactlyWhenNeeded` | consoleapp/baseline_refresh_loop.go:856-919 | a cycle leaves the snapshot alone exactly when nothing asks for a fold and the snapshot is sound, or the fold is refused; otherwise it publishes one dated at its own instant |
| `Coverage.IdleRunFoldsNothing` | consoleapp/baseline_refresh_loop.go:856-919 | a run that is idle at every cycle folds nothing |
| `Coverage.KeepaliveWholeRun` | consoleapp/baseline_refresh_loop.go:856-919 | over any run of cycles no fold is refused for missing events and every snapshot stays at or above the floor |
| `Coverage.FullReadStartsARun` | consoleapp/baseline_refresh_loop.go:856-919 | a full read puts a server in a state from which that holds |
| `RefreshGate.StepKeeps` | consoleapp/baseline_refresh_loop.go:255-290 | index writes, rotation, mark reads, anchoring, folds, skips and restarts all keep: what a remembered mark counts was folded |
| `RefreshGate.FoldTakesTheCounted` | consoleapp/baseline_refresh_loop.go:629-672 | a fold to an instant at or after everything a mark counts takes everything it counts |
| `RefreshGate.MarksOutliveTheIndex` | consoleapp/baseline_refresh_gate.go:417-444 | what a mark says stays true while the index grows and is trimmed |
| `RefreshGate.SkipHidesNothing` | consoleapp/baseline_refresh_loop.go:487-503 | in every interleaving, a skipped cycle had nothing unfolded that was indexed before it read the marks |
| `RefreshGate.MemoIsTheLastCleanFold` | consoleapp/baseline_refresh_loop.go:487-503 | over every run, a memo is remembered exactly when it is that of the last clean fold whose cycle read both marks and then took its instant, with no restart since |
| `RefreshGate.SkipRestsOnACleanFold` | consoleapp/baseline_refresh_loop.go:255-290 | so a skipped cycle rests on a clean fold that read the very marks this cycle read |
| `RefreshGate.RefusedFoldTakesNothing` | consoleapp/baseline_refresh_loop.go:487-503 | a refused fold takes nothing; any other takes exactly what is held up to its instant; only a clean one is remembered |
| `RefreshGate.LateStatementIsHidden` | consoleapp/baseline_refresh_loop.go:629-672 | whenever the marks stand still the next quiet cycle is skipped, and it hides work exactly when they count a row event or a schema change stamped past the instant that no earlier fold took |
| `RefreshGate.SourceAheadHides` | consoleapp/baseline_refresh_loop.go:651-656 | a source clock ahead by however little reaches that from the start |
| `RefreshGate.AnchorFirstHides` | consoleapp/baseline_refresh_loop.go:633-648 | with the instant taken before the marks, a statement in between is hidden although the clocks agree, in a run from the start |
| `RefreshGate.RebuiltIndexHidesOnlyByCoincidence` | consoleapp/baseline_refresh_gate.go:436-444 | after a rebuild the next cycle is skipped and hides work exactly when both new marks equal the remembered ones and the rebuilt index holds anything |
| `RefreshGate.RebuiltIndexHides` | consoleapp/baseline_refresh_gate.go:436-444 | a run from the start in which it does |
| `EventCounts.FindBySnapshot` | internal/console/baseline_history.go:628-642 | a record found names the snapshot and no later one does; none is found only when none names it |
| `EventCounts.ScanForSnapshot` | internal/console/baseline_history.go:628-642 | the backward scan finds the newest record that names the snapshot |
| `EventCounts.MarkIsTheLastRecords` | internal/console/baseline_history.go:293-302 | the base in the history is the mark of the last record that names the snapshot, and only of a full read or an update without an error that read one |
| `EventCounts.ProbeAndCountAgree` | consoleapp/baseline_schedule_loop.go:447-464 | the cut-over probe and the later count start from one base exactly unless the destination moved |
| `EventCounts.CountsNeverMix` | consoleapp/baseline_refresh_loop.go:1508-1550 | a count never mixes two indexes or, by memory, two destinations, and without a base there is none |
| `EventCounts.MemoryAndHistoryAgree` | consoleapp/baseline_refresh_loop.go:1508-1550 | memory and history give one count exactly when the recorded mark is not zero or nothing was indexed |
| `EventCounts.NextKnows` | consoleapp/baseline_refresh_loop.go:437-447 | every update, restart and other run leaves the base of the next count findable |
| `EventCounts.CountsTelescope` | consoleapp/baseline_refresh_loop.go:1523-1550 | over any sequence of updates and restarts the counts add up to the last mark less the first, less what a zero base lost |
| `EventCounts.NothingUncountedAfterANonzeroMark` | internal/console/baseline_history.go:293-302 | once a mark is not zero nothing is lost |
| `JobProtocol.FreeLockMeansGone` | consoleapp/baseline_jobs_lock_unix.go:55-82 | a lock found free on the entry's own kernel means the owner is gone and nobody else reclaims the run |
| `JobProtocol.BeginKeeps` | internal/console/baseline_jobs.go:53-64 | journaling a job, or failing to, keeps the invariant |
| `JobProtocol.ClaimDirKeeps` | consoleapp/baseline_refresh_loop.go:1263-1277 | making a directory a job's own, whoever had it before and is still at work in it and whether or not the claim reaches the journal, keeps the invariant: no entry and no reclaim has a directory that another job at work has, except one claimed against the guard |
| `JobProtocol.FinishKeeps` | internal/console/baseline_jobs.go:88-97 | the record and the recorded mark in one save keep it, saved or not |
| `JobProtocol.DropEntryKeeps` | consoleapp/baseline_jobs.go:145-167 | releasing a job keeps it, when the save fails too |
| `JobProtocol.TryFlockKeeps` | consoleapp/baseline_jobs_lock_unix.go:55-82 | taking or failing to take the flock keeps it |
| `JobProtocol.CheckPathKeeps` | consoleapp/baseline_jobs_lock_unix.go:55-82 | the check that the path still names the locked file keeps it |
| `JobProtocol.RemoveDirKeeps` | consoleapp/baseline_jobs.go:242-262 | removing a listed directory keeps it: the directory's run is not running |
| `JobProtocol.DropReclaimedKeeps` | internal/console/baseline_jobs.go:101-127 | dropping a reclaimed entry with its interrupted record keeps it |
| `JobProtocol.StepKeeps` | consoleapp/baseline_jobs.go:82-299 | every step of every process, crashes, outside deletions and claims against the guard included, keeps that invariant |
| `JobProtocol.EveryRunIsSafe` | consoleapp/baseline_jobs.go:82-299 | over every run no job at work, journaled or not, ever has a directory it made its own removed under it, whoever claimed it since, except one that some claim of the run took against the guard; whoever is past a flock is alone and the run is not at work; no version of the history holds a run twice |
| `JobProtocol.OwnKernelLockTellsTheTruth` | consoleapp/baseline_jobs_lock_unix.go:34-82 | on its own kernel a lock is free exactly when the owner is gone and no reclaim holds it |
| `JobProtocol.ForeignLockIsAlwaysFree` | consoleapp/baseline_jobs.go:204-209 | on any other kernel it is always free, so only the recorded host keeps a reclaim away |
| `JobProtocol.ReclaimGoesThrough` | consoleapp/baseline_jobs.go:210-283 | a free lock and a matching path are enough for the whole reclaim |
| `JobProtocol.AbandonedIsCleared` | consoleapp/baseline_jobs.go:186-283 | every directory an abandoned entry lists goes, then the entry, and the run is on record exactly once |
| `JobRecords.FinishedIsOnRecord` | internal/console/baseline_jobs.go:86-97 | over every run in which a job finishes, its owner's copy has it on record exactly once and its entry marked for as long as the owner lives |
| `JobRecords.FinishReachesTheFile` | internal/console/baseline_jobs.go:86-97 | with the save, record and mark are in the file right after that step |
| `JobRecords.UnfinishedIsOnNoRecord` | internal/console/baseline_jobs.go:86-127 | a run that neither finished nor was reclaimed is on no record in any copy |
| `JobRecords.BegunIsListedOrBare` | internal/console/baseline_jobs.go:53-64 | a job that begins is listed in the file and in its process's copy, or, when the save fails, in neither, and works on |
| `JobRecords.ReleaseLeavesNoTrace` | consoleapp/baseline_jobs.go:145-167 | a release that goes through takes the entry, then the lock file, then the lock, and leaves the record |
| `JobRecords.FailedReleaseIsFound` | consoleapp/baseline_jobs.go:153-163 | one whose save failed keeps entry and lock file together and lets the lock go |
| `JobRecords.ReclaimTidiesUp` | consoleapp/baseline_jobs.go:263-283 | a reclaim that goes through leaves neither entry nor lock file nor lock |
| `JobRecords.MissingIsDropped` | consoleapp/baseline_jobs.go:210-241 | dropping an entry whose lock file is gone leaves neither entry nor lock file and touches nothing it lists |
| `JobReuse.UnreusableIsLost` | consoleapp/baseline_jobs.go:108-139 | after a claim the guard refuses, journaled or not, some run without further claims removes the directory under a job at work that has it: the claiming one or one that had it before |
| `JobReuse.ClaimIsSafeExactlyWhenReusable` | consoleapp/baseline_refresh_loop.go:1263-1277 | in every sound state and for both kinds of claim, some job at work that has the directory can lose it by runs that claim nothing else exactly when the guard refuses the claim: another run with a lock file is listed with it in a copy that is left, another reclaim is about to remove it, or this run is listed with it while another job is at work in it |
| `JobReuse.ReuseHappens` | consoleapp/baseline_refresh_loop.go:1256-1277 | a run from nothing reaches a job that claims a directory another is at work in, and one of them can lose it when either claim reached the journal |
| `Reclaim.DiscardingIsUnlisted` | internal/reconstruct/discard.go:25-40 | a directory on its way out has a name no listing takes for a snapshot, and the sweep recognises it |
| `Reclaim.SnapshotNamesExactly` | internal/snapshotdir/snapshotdir.go:28-47 | fourteen digits in the form a name is written in, and no other name, are taken for a snapshot |
| `Reclaim.StagingNamesExactly` | consoleapp/baseline_jobs.go:311-328 | scratch is one of the four prefixes with something after it |
| `Reclaim.MarkersDecide` | internal/baseline/marker.go:136-155 | only the marker of an unfinished write without that of a finished one makes a directory incomplete |
| `Reclaim.RenameIsHarmless` | internal/reconstruct/discard.go:75-118 | the rename of an unpublished snapshot changes nothing readers find |
| `Reclaim.InPlaceDeleteExposesAPartialSnapshot` | internal/reconstruct/discard.go:75-90 | deleting in place can turn every partial snapshot into one that reads as complete |
| `Reclaim.Disk.DiscardUnpublished` | internal/reconstruct/discard.go:91-120 | only a snapshot marked incomplete goes; at every instant, a kill included, readers find the same snapshots with the same contents |
| `Reclaim.Disk.SweepDiscarded` | internal/reconstruct/discard.go:142-160 | leftovers of earlier discards go, readers see no difference, and when no operation is refused no such directory is left |
| `Reclaim.Disk.ReclaimSnapshotDir` | consoleapp/baseline_jobs.go:393-417 | a marked snapshot stays and is reported, an unpublished one goes, a markerless one stays unless empty |
| `Reclaim.Disk.CheckJobDir` | consoleapp/baseline_jobs.go:333-351 | the checks pass exactly for a name the program makes under a parent that still resolves where the job wrote |
| `Reclaim.Disk.ReclaimScratch` | consoleapp/baseline_jobs.go:364-381 | a scratch directory goes, anything that is not a directory stays |
| `Reclaim.Disk.ReclaimJobDir` | consoleapp/baseline_jobs.go:333-382 | only the listed directory and leftovers beside it change, an untrusted entry changes nothing, and when no operation is refused and the discarding name is not taken by a file, exactly the leftovers are removed and nothing fails |
| `Reclaim.Disk.ReclaimEntry` | consoleapp/baseline_jobs.go:242-277 | over all listed directories readers never see a difference and only trusted listed paths change; the entry is dropped only when nothing it lists is left to remove; when no operation is refused and no name is taken it is dropped and every trusted leftover is gone; a published one is reported |
| `Supervisor.StepKeeps` | consoleapp/baseline_job_guard.go:76-100 | every step of every job keeps: an entry reads running exactly when its job holds the server |
| `Supervisor.SingleFlight` | consoleapp/baseline_refresh_loop.go:201-221 | over every run at most one of a server's five entries reads running, and no server merges where its own pass writes |
| `Supervisor.SkipLeavesNoTrace` | consoleapp/baseline_refresh_loop.go:1042-1084 | a skipped cycle puts the status back exactly as it found it, whatever every other job did meanwhile |
| `Supervisor.LateUploadTouchesOnlyItsOwn` | consoleapp/baseline.go:520-547 | an upload that ends late or panics changes no entry but its own, never one that is running, and a panic after its last word changes nothing |
| `Supervisor.StepsAreFramed` | consoleapp/baseline_refresh_loop.go:105-152 | a step changes the status shown for its own job and no other |
| `Supervisor.EndsAreShown` | consoleapp/baseline_job_guard.go:116-153 | a job that ends shows succeeded only after a good end, a panic shows failed with no counts, a published full read succeeded and uploading, each under the stamp and instant it ran with |
| `Supervisor.ClaimsAreShown` | consoleapp/baseline_refresh_loop.go:123-152 | a claim shows as running from its instant with nothing of the run before but a refresh's new tables; a refused one changes nothing |
| `Supervisor.AnchorsAreShown` | consoleapp/baseline_refresh_loop.go:659-672 | the instant goes on the status and nothing else there changes |
| `Supervisor.StatusIsTheLastEnd` | consoleapp/baseline_job_guard.go:54-153 | over every run a status reads running until a step ended its entry, and then as the last step that did says |
| `Supervisor.EveryExitFreesTheServer` | consoleapp/baseline_job_guard.go:54-100 | after success, failure, skip, publish or panic every kind of job can claim the server |
| `Supervisor.Slots.Busy` | consoleapp/baseline_refresh_loop.go:204-221 | busy exactly when some job holds the server |
| `Supervisor.Slots.Trigger` | consoleapp/baseline.go:384-412 | refused exactly when the server is held, or for a compaction when the folder is being resolved; otherwise a new entry takes the slot |
| `Supervisor.Slots.TriggerRefresh` | consoleapp/baseline_refresh_loop.go:123-152 | the claim keeps what it displaces, carries its new tables, and ends an earlier gate skip |
| `Supervisor.Slots.AnchorRefresh` | consoleapp/baseline_refresh_loop.go:659-672 | the instant goes on the claim and changes nothing else |
| `Supervisor.Slots.ReleaseRefreshSlot` | consoleapp/baseline_refresh_loop.go:1067-1084 | the slot shows the displaced status again, the skip is noted under the claim's own stamp, the server is free |
| `Supervisor.Slots.FinishJob` | consoleapp/baseline_compact.go:247-270 | the job's entry turns succeeded or failed with its count, under its own stamp, and the server is free |
| `Supervisor.Slots.FailPanickedJob` | consoleapp/baseline_job_guard.go:116-153 | a panic while holding the slot turns the entry failed with no counts, its stamp and instant kept, and frees the server |
| `Supervisor.Slots.PublishDump` | consoleapp/baseline.go:598-617 | a published full read shows succeeded, published and uploading, frees the server and keeps its own entry |
| `Supervisor.Slots.FinishDump` | consoleapp/baseline.go:909-951 | the end of an upload goes to the run's own entry, in the map or not |
| `Supervisor.Slots.RecoverDumpJob` | consoleapp/baseline.go:520-547 | the panic guard of a published run fails its own entry, only while still uploading |
| `Supervisor.Slots.ClaimFolder` | consoleapp/baseline_resolve.go:106-118 | a folder is claimed exactly when no pass holds it and this server is not compacting |
| `ScheduleSlots.SlotIsTheFloor` | internal/console/backup_schedule.go:323-332 | the slot is the one grid instant with now in its period, before the epoch too |
| `ScheduleSlots.SlotsAdvance` | internal/console/backup_schedule.go:323-332 | slots never go back, and move by one at most within a period |
| `ScheduleSlots.EdgesFireOnce` | consoleapp/baseline_schedule_loop.go:775-785 | edges of values that never go back fire in order, each at most once, all of them when none is skipped |
| `ScheduleSlots.SlotsFireOnce` | consoleapp/baseline_schedule_loop.go:775-804 | for ticks in order the slots that fire are grid slots after the one seen at the save, strictly increasing, and every one exactly once when ticks are a period apart at most |
| `ScheduleSlots.RunTicks` | consoleapp/baseline_schedule_loop.go:678-773 | the loop fires exactly the edges of both grids whatever the gates and the supervisor answer, and is idle only when neither moved |
| `ScheduleSlots.Scheduler.Tick` | consoleapp/baseline_schedule_loop.go:678-840 | what one tick fires, and the whole state it leaves: both observations at this tick and what is owed after it |
| `ScheduleSlots.OwedExactlyAfterACollision` | consoleapp/baseline_schedule_loop.go:844-893 | over every sequence of saves, ticks and removals under any identities, a full copy is owed exactly when one of that schedule met a busy server and no start, gate refusal, save, removal, lost timetable or run of another schedule came since |
| `ScheduleSlots.OwedIsTriedAtTheNextRun` | consoleapp/baseline_schedule_loop.go:806-853 | what is owed is tried at the next run of that schedule, whatever the full-copy grid says |
| `ScheduleSlots.FiredExactlyWhenDue` | consoleapp/baseline_schedule_loop.go:712-729 | over every sequence of saves, ticks and removals, by slot numbers: with the gates open a full copy is tried exactly when its grid moved since the last look or one is owed and the schedule's own grid moved, an update runs exactly when that grid moved and none is due, and a shut gate leaves exactly the outcome named |
| `ScheduleSlots.EveryFullSlotIsTriedOnce` | consoleapp/baseline_schedule_loop.go:712-729 | with the gates open and ticks in order at most a period apart, every full-copy slot after the save is tried by one tick and no other |
| `ScheduleSlots.RunEvents` | consoleapp/baseline_schedule_loop.go:490-508 | the object follows that account over every run, in its state and in what each tick fires |
| `StandIns.StandInLeadsNowhere` | consoleapp/baseline_schedule_loop.go:1199-1285 | a stand-in is the other kind of job, has a lower rank, and follows only a job that left no snapshot or whose update was promised more |
| `StandIns.StandInsExactly` | consoleapp/baseline_schedule_loop.go:1196-1255 | what each ended job is followed by, exactly: a full read for an update that left nothing or was promised more, an update for a chosen full read that left nothing, and nothing else |
| `StandIns.OneSlotAtMostTwoJobs` | consoleapp/baseline_schedule_loop.go:1140-1343 | one slot starts its own job and at most one more, of the other kind |
| `StandIns.SameIncurableRefusal` | consoleapp/baseline_schedule_loop.go:1581-1607 | true exactly when something was refused, neither list was cut short, and every table was refused before for the same reason a read does not move past |
| `StandIns.IncurableMeansNothingNew` | consoleapp/baseline_schedule_loop.go:1564-1607 | two refusals are the same incurable one exactly when something was refused and no table calls for a read: a schema change, a gap, or words not seen before |
| `StandIns.Stops.CannotCure` | consoleapp/baseline_schedule_loop.go:1507-1552 | a stop begins, lasts and keeps its beginning exactly as long as the same refusals come within a day of it |
| `StandIns.Stops.Refused` | consoleapp/baseline_schedule_loop.go:1370-1414 | a refused update takes a read exactly when reads are not stopped and one may start; the read replaces the record, ends the stop, and counts once it is noted as gone through |
| `StandIns.RefusedAgainAndAgain` | consoleapp/baseline_schedule_loop.go:1486-1552 | over any slots refused for the same incurable reasons, with any reads starting and going through, a slot is stopped exactly when the last read went through and the stop that began right after it has lasted less than a day, and every other slot where a read may start takes one |
| `StandIns.OneReadADay` | consoleapp/baseline_schedule_loop.go:1496-1552 | so after a read that went through every later read is more than a day less a second away |
| `StandIns.ADayLaterOneIsTaken` | consoleapp/baseline_schedule_loop.go:1515-1522 | and the first slot a day after the stop began takes one, if one may start |
| `StandIns.Emergency.Newest` | consoleapp/baseline_schedule_loop.go:1646-1668 | the newest emergency read this process or the history knows of |
| `StandIns.Emergency.TryRead` | consoleapp/baseline_schedule_loop.go:1618-1668 | a read starts exactly when none known is less than 23 hours ago, and reads in a row stay that far apart, less a second across a restart when noted |
| `StandIns.Emergency.Restart` | consoleapp/baseline_schedule_loop.go:1625-1638 | a restart forgets memory and keeps the rationing that is noted |
| `Pace.WindowsStayBounded` | consoleapp/baseline_refresh_loop.go:2143-2163 | with a slope under one, iterated windows stay within the first, the interval, or where cost meets window |
| `Pace.WindowsCloseIn` | consoleapp/baseline_refresh_loop.go:2150-2163 | and above where they settle they close in by the slope |
| `Pace.WindowsRunAway` | consoleapp/baseline_refresh_loop.go:2150-2163 | with a slope of one or more and a floor they grow without end |
| `Pace.VerdictIsTheSlope` | consoleapp/baseline_refresh_loop.go:2179-2214 | two runs past their growing windows are graded falling behind exactly when the slope is over one |
| `Pace.GentleSlopeFollowsWindow` | consoleapp/baseline_refresh_loop.go:2157-2163 | a slope of one or less never outgrows the window between any two runs |
| `Pace.ReadingsExactly` | consoleapp/baseline_refresh_loop.go:2179-2214 | which of the five readings a run gets, exactly |
| `Pace.ReadingForetellsTheNextWindow` | consoleapp/baseline_refresh_loop.go:2136-2178 | a cadence reading means the next window is no larger than this one, one over the window that it is |
| `Pace.PaceBook.Run` | consoleapp/baseline_refresh_loop.go:302-323 | a cycle is graded against the last cycle that folded, if it published, and only a published one leaves a sample |
| `Pace.FallingBehindComparesNeighbours` | consoleapp/baseline_refresh_loop.go:510-546 | a falling-behind verdict compares with a cycle that published, was past its window and cost less, with nothing but skipped ones since |
| `Pace.GradeHistory` | consoleapp/baseline_refresh_loop.go:2179-2214 | a server whose cost never outgrows the window is never told it is falling behind, over any history of skips, refusals, crashes and runs |
| `DiskVerdict.MoreSpaceIsNeverWorse` | consoleapp/backup_disk.go:141-247 | more working space never worsens the verdict, wrapped sums included |
| `DiskVerdict.RefusalIsMeasured` | consoleapp/backup_disk.go:197-204 | a refusal rests on a measured disk that holds less than half the data, and would be one on data plus indexes |
| `DiskVerdict.RefusesExactly` | consoleapp/backup_disk.go:141-204 | it refuses exactly when a measured disk holds less than half the data of tables whose sizes were given |
| `DiskVerdict.LowExactly` | consoleapp/backup_disk.go:205-261 | it says low exactly when it does not refuse and a measured disk is too small for the dump, the copy or both, and cannot tell exactly in the rest |
| `DiskVerdict.WorstCases` | consoleapp/backup_disk.go:133-140 | the largest dumps an estimate allows decide whether all of them fit |
| `DiskVerdict.RoomMeansItFits` | consoleapp/backup_disk.go:141-261 | unless the peak is looked at and wraps, the check passes a read exactly when the sizes can be trusted and every dump and copy within them fits, on one disk, two, or unknown |
| `DiskVerdict.WrappedPeakPassesTooMuch` | consoleapp/backup_disk.go:163-165 | where it wraps, on one disk or when that is unknown, some free space passes although a dump within the estimate does not fit |
| `DiskVerdict.ExactUnlessThePeakWraps` | consoleapp/backup_disk.go:141-261 | the check is exact for every free space if and only if the peak, where it is looked at, stays in 64 bits |
| `ResolvedPairs.Resolved.Newest` | consoleapp/baseline_resolve.go:371-375 | the names kept are those from the end of the list until there are two, and no others |
| `ResolvedPairs.NewestIsTheLastTwo` | consoleapp/baseline_resolve.go:371-375 | for snapshots with different names that is exactly the last two |
| `ResolvedPairs.Resolved.SweepOne` | consoleapp/baseline_resolve.go:385-408 | when no operation is refused pairs are unmarked when kept, else marked, dated again, left to wait or removed by the age of the mark; refused or not, pairs unmarked until then outlive their readers |
| `ResolvedPairs.Resolved.Sweep` | consoleapp/baseline_resolve.go:371-414 | nothing appears, kept pairs stay whole, what was unmarked until any moment outlives its readers from that moment on, and when no operation is refused each snapshot's pairs end as the rule says at an instant of the sweep |
| `ResolvedPairs.RetiredPairsGo` | consoleapp/baseline_resolve.go:392-408 | so pairs out of the newest two whose grace has passed are gone, none goes before, and the others are marked, under the date they had unless that is yet to come |
| `ResolvedPairs.KeptPairsAreUnmarked` | consoleapp/baseline_resolve.go:388-391 | pairs of the newest two lose their mark and stay as whole as they were |
| `ResolvedPairs.RunPasses` | consoleapp/baseline_resolve.go:341-414 | over any sequence of sweeps and passes and any refusals, each act does its part in order, and pairs handed out at any instant, between two acts as well, are whole until the grace has passed |
| `ByosLoop.RetryFlush` | cliapp/agent.go:1117-1138 | it gets through exactly when some allowed attempt succeeds before the agent is told to stop, makes no attempt after that, and waits one second doubling between |
| `ByosLoop.Agent.Send` | cliapp/agent.go:588-614 | a configured sink's batch is booked as delivered when it gets through, and as lost, with its batch, when it does not |
| `ByosLoop.Agent.FlushToSinks` | cliapp/agent.go:967-1042 | each configured sink is offered the events that split and booked by its own replies; an unseeded identity is an error |
| `ByosLoop.Agent.FlushBatch` | cliapp/agent.go:889-910 | the pending batch goes to the buffer whole and once, and is entered in each configured sink's books unless stopping; an unseeded identity is an error |
| `ByosLoop.Agent.Step` | cliapp/agent.go:912-957 | one turn lets go of what that turn lets go of, enters it once, and leaves the loop exactly when it should |
| `ByosLoop.BatchesAreTheRows` | cliapp/agent.go:854-958 | over any turns the batches let go and the pending one are exactly the row events, in order, in batches of one up to the batch size |
| `ByosLoop.BatchesLeaveExactlyWhenDue` | cliapp/agent.go:912-957 | what is held back leaves whole at the end of the stream, a flush tick, a lost identity or a row that fills the batch, and at no other turn |
| `ByosLoop.LeavesExactly` | cliapp/agent.go:912-957 | the loop returns at the end of the stream, fails on another server's identity, none, the tenth failure in a row, or a batch with no identity to send it under, and otherwise goes on |
| `ByosLoop.SinksBalance` | cliapp/agent.go:967-1042 | over any batches and replies each configured sink's attempts are the events that split in the batches let go while not stopping and with a seeded identity; those whose batch got through are delivered, the rest lost, and lost batches are counted |
| `ByosLoop.CountersNeverGoBack` | cliapp/agent.go:588-614 | over a whole run no sink's counters, losses included, go back |
| `ByosLoop.NothingPendingAtTheEnd` | cliapp/agent.go:912-957 | once the loop has left, nothing is pending |
| `ByosLoop.RunLoop` | cliapp/agent.go:854-958 | over anything select may pick, it stops at the first turn that leaves it, and buffer, pending batch and both sinks are what the turns consumed come to, in balance |
| `ProxySQL.Generate` | cliapp/proxysql_config.go:496-603 | the script, statement by statement |
| `ProxySQL.AllOrNothing` | cliapp/proxysql_config.go:522-528 | inside the transaction the tables change at the commit or not at all |
| `ProxySQL.ScriptReplacesOrRollsBack` | cliapp/proxysql_config.go:526-592 | the script leaves the tables exactly as managed, or as they were when a tenant's name repeats or is another user's |
| `ProxySQL.ScriptIsIdempotent` | cliapp/proxysql_config.go:496-603 | applying it twice is applying it once |
| `ProxySQL.ScriptIsFramed` | cliapp/proxysql_config.go:24-67 | rows outside its hostgroups, rule ids and users never change, and its own are exactly two servers, six live rules that send their own pattern to the shim, and the tenants with the password or hash their plugin needs |
| `ProxySQL.QuotedReadsBack` | cliapp/proxysql_config.go:605-610 | every quoted value reads back exactly, quotes and all |
| `ProxySQL.InsertedUserReadsBack` | cliapp/proxysql_config.go:558-560 | so do both values of a user's row from the text of its insert |
| `DumpDir.LooksLikeDump` | cliapp/dump.go:569-583 | a listing is a dump's exactly when it holds a marker |
| `DumpDir.FileSystem.Prepare` | cliapp/dump.go:600-646 | when no operation is refused it succeeds exactly for a free directory or a dump whose backup name is free; nothing is deleted, only a recognizable dump is moved, anything else is refused untouched |
| `DumpDir.FileSystem.CommitDump` | cliapp/dump.go:650-658 | the old dump goes, and nothing else |
| `DumpDir.FileSystem.Rollback` | cliapp/dump.go:662-675 | the old dump comes back, or stays whole where it was put when an operation fails |
| `DumpDir.FileSystem.RunDump` | cliapp/dump.go:375-392 | when no operation is refused it goes ahead whenever the directory can be prepared, and it ends as mydumper does; the trace is the move and then each write of mydumper; up to the last of them, and to the end on failure, the old dump is whole at its path or the backup's in every tree; on success the new output stays from there on; no other path is ever touched |

## Left out

- SQL, S3, mydumper, DuckDB, Postgres, TLS, flags, status text, log lines and metrics: input and output with no state to prove about.
- Access control, doctor, configuration, init, upload and key generation: thin wrappers or easy checks.
- The fold itself, table deltas and their size and day caps: only when a chain is ended and where its readers start.
- Lock files replaced from outside under the same name, and inode or run-name reuse: a path only ever names the file made for its run, or nothing.
- The entry a reclaim goes by is read when the lock is taken; the daemon copies it at boot before it starts jobs of its own, which is the same entry.
- An entry whose lock file is gone is kept by the code while a directory it lists is still there; the model lets a process drop it at any time.
- Platforms without flock: no entry is written there and nothing is reclaimed. A job whose entry could not be saved runs on without one.
- The cap on run-history records: it only removes records, and keeps the newest.
- Mutual exclusion of the dump command's own lock file across a stale takeover: not claimed.
- Panics after a job's terminal status write has released the lock: the generic guard works by slot state, so a job only panics while it holds its slot.
- Two servers sharing one snapshot folder: their registry refusal is not modelled, and a compaction of one is kept from a pass of its own server only.
- Backward clock steps in the schedule loop, and the walk over servers in one tick: one server's view, with instants in order.
- A panic while a slot is being fired, and the words of every skip reason.
- Row ids of the index become visible in the order they are handed out.
- JobProtocol.EveryRunIsSafe: what a run claimed against the guard is excepted; the code's own test looks only at what is in the directory, and `JobReuse.ClaimIsSafeExactlyWhenReusable` says what that does not shut out.
- ScheduleSlots.FiredExactlyWhenDue: one identity is one timetable, as the code makes an identity out of the timetable.
- ScheduleSlots.SlotsFireOnce: ticks must not go back in time, because a step back overwrites the observation and fires the same slot again.
- Reclaim.Disk.ReclaimJobDir: an empty snapshot directory may stay when it cannot be read, as the code keeps it; snapshot names are the form the program writes, not every form its parser accepts.
- StandIns.RefusedAgainAndAgain: whether a read starts is an input here, the rationing of emergency reads included, and a read goes through when that is noted before the next refusal.
- StandIns.Emergency.TryRead: a start that was not noted before a crash does not count after the restart, because the code notes it after the trigger.
- Pace.VerdictIsTheSlope: exact numbers instead of whole nanoseconds, because rounding is not the point.
- DiskVerdict.RoomMeansItFits: data is no larger than data plus indexes, as the source's own sums make it; a wrapped peak has its own lemma.
- ResolvedPairs.Resolved.SweepOne: a removal that fails part way may leave pairs that are neither whole nor marked, as the code may; what is promised is about pairs that were whole when handed out.
- ByosLoop.RunLoop: the buffer's eviction and the contents of split records are not modelled.
- ProxySQL.Generate: loading to runtime and saving to disk are one statement with no effect on the edited tables; the password hash is an input, and the routing patterns are named, not spelled out.
