# Integrated recorder: verified models

This project models the parts of the recorder whose correctness is hardest to see and
proves what they promise. Each module follows one component of the repository.

**Segment acquisition.** `Recording` and `Gaps` are the in-place edits of the recording
root (observation, gaps, pending entries); `Accounting` is their meaning as a ledger, and
`Continuation` the agreement of the read-only handover preflight with the steps of the
stateful path. `Commits` and
`Publication` are the out-of-order publication of segments with the moving epoch marker.
`SourceIdentity` shows that signed URIs do not matter to it. `TaskTable` and
`SegmentScheduler` are the scheduler's table and its methods, and `Departures` says what
the table functions mean for a task.
`Acquisition` puts table, workers, retry timers, ingest jobs, gap commits, the poller and
shutdown together as one state machine whose steps are the critical sections; on it
`Ownership`, `NoLoss`, `Losses`, `EndOfStream`, `CommitLog`, `PreloadedTask` and
`Lifetimes` prove properties of every run, `Progress` what its steps achieve from every
state, and `Runs` shows runs that break a promise.

**Engine handover.** `Handover` is the protocol of two or more Engines and the Host's
commit fence and `Transfers` what it achieves; `Payloads` is how a worker acquires an object and who owns its bytes on
every path, and `Preparation` the same for the probing target; `Staging` follows each
staged payload from the probe to the first commit; `PauseRace` is the conversation between a pausing caller and the worker.

**Schemas and JSON.** `Visibility` and `SchemaDefaults` are visibility conditions, cycle
check and default fixpoint; `Decimal`, `Hexadecimal` and `CanonicalJson` the canonical
text that decides equality of values.

**Supporting services.** `Workflows` counts terminal workflow events; `AttributeList`,
`PlaylistText` and `MediaPlaylist` are the HLS parser, `MediaTags` and `MediaLines` what it
makes of a text line by line, `VodPlaylist` and `VodRoundTrip` the VOD printer and the round trip; `Timeline` the preview timeline cache; `PluginState` the multi-scope
writes; `IntegrityJobs` and `JobLife` the verification jobs; `RingLog` the log ring with cursor paging.

## What the proofs found

Some promises hold only under a condition. The code is modelled as it is; a lemma gives a
concrete run and another the condition.

- A stop between the observation of a playlist and the queueing of its root loses what
  the playlist offered, and so does a refresh before its discovery is done
  (`Runs.StopBeforeDiscoveryLoses`, `Runs.RefreshBeforeDiscoveryLoses`). Which objects a
  run loses is `Losses.LostIff`: those that an abandoned playlist or a refused download
  was the last to account for and that no later playlist of the epoch brings back.
- A playlist whose source was replaced can still write: when its discovery waits for
  room in the full task table and the run is cancelled, and through gap commits it has
  begun (`Runs.BlockedPlaylistWrites`, `Runs.GapOutlivesItsPlaylist`). There is no other
  case (`EndOfStream.SupersededWritesIff`, `EndOfStream.SupersededNeverWrites`).
- An Engine that resumes after another Engine wrote to the archive overwrites what it
  wrote (`Handover.RollbackOverCommitsLoses`); resuming loses nothing if and only if
  nobody wrote while it was parked (`Handover.ResumeLosesIff`).
- A pause that times out between the worker's publication and its next look at the
  operation never returns (`PauseRace.StuckForever`, `PauseRace.TimedOutPauseReturnsIff`).
- A preloaded candidate that becomes a gap leaks its staged payloads. That happens if and
  only if the source is refreshed before a worker takes the candidate, the stream ends
  before a refreshed playlist offers its entry, and the gap is saved (`Staging.LeaksIff`,
  `Staging.RefreshBeforeFirstCommitLeaks`).
- An initialisation section that is archived between a worker's look at the root and its
  look at the sections on their way is handed over a second time
  (`Payloads.InitHandedTwice`).
- Queued events, workflows and reservations can reach 513; counting only reservations
  that may still emit, 512 is never exceeded (`Workflows.LiteralCountIsExceeded`).
- The VOD printer cannot express a segment without an initialisation section after one
  with a section (`VodRoundTrip.InitsReadBackIff`).
- Gaps stored with their ends swapped make new gaps overlap (`Gaps.MalformedGapOverlaps`);
  all code that writes gaps keeps them well formed.

## Model

| member | source | states |
|---|---|---|
| `Recording.RecordingDoc.AddMissingRanges` | internal/acquire/worker.go:1819-1865 | new gaps cover exactly the sequences of [from, to] that are neither captured nor already covered for that track and epoch; old gaps stay, new ones are maximal runs, pairwise-apart gaps stay pairwise apart, nothing wraps at the uint64 maximum |
| `Gaps.UncoveredIsExact` | internal/acquire/worker.go:1842-1865 | the sorted sweep over blocked intervals produces exactly their complement in [cursor, to], as separated nonempty runs |
| `Gaps.MalformedGapOverlaps` | internal/acquire/worker.go:1831-1865 | the concrete stored gap (ending before it starts) for which the new gaps overlap each other |
| `Recording.RecordingDoc.MarkGap` | internal/acquire/worker.go:1704-1718 | marks one sequence as a gap unless it is archived or covered, and it stops being pending |
| `Recording.RecordingDoc.MarkPending` | internal/acquire/worker.go:1680-1702 | adds one pending object unless it is pending already |
| `Recording.RecordingDoc.RemovePending` | internal/acquire/worker.go:1483-1491 | exactly the one object stops being pending, in the current and the legacy list |
| `Recording.RecordingDoc.MarkRemainingPending` | internal/acquire/worker.go:1723-1755 | the inventory of an interrupted playlist: exactly its entries that are not captured become pending, gap-covered ones included |
| `Recording.RecordingDoc.FinalizePendingEpochExcept` | internal/acquire/worker.go:1781-1807 | exactly the unprotected pending objects of the epoch become gaps |
| `Recording.RecordingDoc.FinalizePending` | internal/acquire/worker.go:1757-1775 | every pending object of every epoch becomes a gap and nothing is pending |
| `Recording.RecordingDoc.DetectsReset` | internal/acquire/worker.go:359-396 | an epoch ends exactly when sequences regress or an archived object changed its identity |
| `Recording.RecordingDoc.ObservePlaylist` | internal/acquire/worker.go:314-501 | the in-place edits of one observation equal the ledger function Accounting.Observe; the next epoch begins exactly if the playlist regressed or one of its entries differs from its first archived match in discontinuity sequence, in the resource of both URIs, or in both program times; it fails exactly if that epoch would overflow |
| `Recording.ResetMeans` | internal/acquire/worker.go:359-396 | what both reset tests decide, in terms of entries and archived segments |
| `SourceIdentity.ObservationIgnoresSignatures` | internal/acquire/worker.go:359-396 | playlists and archives that differ only in the signed part of URIs lead to the same ledger: a re-signed window never opens an epoch |
| `SourceIdentity.PreflightIgnoresSignatures` | internal/acquire/manager.go:949-1023 | and to the same epoch and position of the preflight candidate |
| `SourceIdentity.SameLedger` | internal/acquire/worker.go:550-577 | an archive that differs only in the signed part of URIs says the same about every object |
| `Accounting.ObservedEpoch` | internal/acquire/worker.go:330-397 | the epoch, the last sequence and the archive after an observation, in terms of the playlist |
| `Accounting.ObservedObject` | internal/acquire/worker.go:395-470 | exactly which objects become gaps and which stop being pending: entries marked, skipped, jumped over or left behind while pending, and what was pending in an epoch that ended; nothing archived or protected |
| `Accounting.FreshMeans` | internal/acquire/manager.go:986-1005 | the candidate of the preflight is the first entry that is neither marked as a gap nor archived nor a gap of its epoch |
| `Recording.RecordingDoc.DetectsNewEpoch` | internal/acquire/manager.go:966-985 | the preflight's own reset loops, which compare inside the search and stop at the first archived match, answer whether sequences regress or some first match changed its identity |
| `Recording.ResetTestsAgree` | internal/acquire/manager.go:966-985 | that test and the observer's, which first collects the match and then compares, agree for every archive and playlist |
| `Recording.RecordingDoc.FindHandoverCandidate` | internal/acquire/manager.go:949-1005 | the read-only search with its own reset test equals Accounting.Preflight, in the epoch that the same comparison of entries and archived segments decides |
| `Accounting.PreflightAgrees` | internal/acquire/manager.go:949-1023 | for every consecutive playlist, no live task and one reset verdict, the entry the preflight picks on the old ledger is the first fresh one of the ledger that observation leaves |
| `Continuation.FirstTaskIsFresh` | internal/acquire/segments.go:195-281 | from an empty table, discovering entry by entry gives its first task to the first fresh entry, and to none if there is none |
| `Continuation.PreflightIsFirstTask` | internal/acquire/manager.go:949-1023 | the preflight's candidate, by its own reset test, is the object that observing, sweeping and discovering the playlist step by step gives its first task, and there is none exactly when they give none |
| `Accounting.OfferedIsNotMissing` | internal/acquire/worker.go:420-470 | observing a playlist never declares one of its own offered entries missing |
| `Commits.CommitOrderIrrelevant` | internal/acquire/segments.go:1046-1163 | every permutation of a scheduler's commits ends in the same track, next ordinal and marker table |
| `Commits.CommitKeeps` | internal/acquire/segments.go:1046-1163 | one commit, wherever its ordinal falls, keeps: sorted distinct ordinals, the lowest segment of every touched epoch above 0 forced to a discontinuity, every other segment with its source flag, the marker table naming that lowest segment |
| `Commits.CommitAllHolds` | internal/acquire/segments.go:1046-1163 | the same for any list of admissible commits |
| `Commits.LifetimeEnds` | internal/acquire/segments.go:1046-1163 | a finished lifetime is a valid start for the next: archived segments read as before, epochs stay marked, other segments keep their source flag |
| `Commits.PermutationAdmissible` | internal/acquire/segments.go:1046-1163 | admissibility (new keys, ordinals above all archived ones, each once) does not depend on order |
| `Commits.CurrentMarkerIs` | internal/acquire/segments.go:1052-1075 | the marker looked up in the table or reconstructed from archived segments is the epoch's lowest segment with its source flag |
| `Commits.OrderedIsUnique` | internal/acquire/segments.go:1122-1135 | a list of segments sorted by distinct ordinals is determined by its elements |
| `Publication.TrackDoc.PersistSegment` | internal/acquire/segments.go:1016-1165 | the imperative publication with four fallible durable writes: on success the track is Commit of the old track, on any failure track and markers are unchanged |
| `Publication.TrackDoc.PlanMarker` | internal/acquire/segments.go:1046-1095 | which segment gains the marker, which loses it and gets its source flag back, and the planned table entry |
| `Publication.TrackDoc.Publish` | internal/acquire/segments.go:1096-1163 | the root update refuses exactly the ordinal overflow and otherwise sorts in the new segment |
| `Publication.SidecarsFollow` | internal/acquire/segments.go:1080-1121 | after the two metadata writes the durable metadata of every segment agrees with the new track |
| `Ownership.StepKeeps` | internal/acquire/segments.go:650-869 | every critical section of workers, timers, poller, gap committers and shutdown keeps task ownership |
| `Ownership.RunKeepsOwnership` | internal/acquire/segments.go:113-1002 | every state of every run is well owned |
| `Ownership.OwnershipMeans` | internal/acquire/segments.go:174-278 | ready lists exactly the queued tasks, each once; a waiting task is available and has one live timer with its token; a gap in progress has exactly one committer; awaiting iff awaiting a manifest; no two workers share a task; no task is stranded |
| `Ownership.FreshIsOwned` | internal/acquire/segments.go:113-167 | a new scheduler, with or without an adopted handover candidate, satisfies the ownership invariant |
| `NoLoss.StepKeeps` | internal/acquire/segments.go:195-281 | every step keeps the books: the observed range of each epoch is archived, gap-covered, pending, held by a task, undiscovered, or was dropped by some step |
| `NoLoss.RunKeepsBooks` | internal/acquire/segments.go:195-281 | the same for every state of every run |
| `NoLoss.CommitIsNew` | internal/acquire/segments.go:1016-1045 | no object is archived twice and no gap is archived |
| `Losses.StepLoses` | internal/acquire/segments.go:195-281 | over every step: an object is unaccounted for afterwards iff the step lost it (it abandons a playlist by one of the listed guards and only that playlist offered the object, or it refuses a download at ingest shutdown whose object nothing else accounts for), or it was unaccounted for and the step is no observation that brings it back |
| `Losses.RecoversIff` | internal/acquire/worker.go:314-501 | a lost object of an observed range is brought back exactly by an observed playlist of its epoch that offers it or marks it as a gap |
| `Losses.LostIff` | internal/acquire/segments.go:195-281 | at any moment of any run an observed object is unaccounted for iff some step lost it and no later observation brought it back |
| `Losses.EndPartition` | internal/acquire/worker.go:1757-1807 | a finished recording has nothing pending; each observed object is archived or a gap, never both, and neither exactly when it was lost for good |
| `Losses.NoSilentLoss` | internal/acquire/worker.go:314-501 | an observed object that no step of the run loses is at all times archived, a gap, pending, held by a live task or about to be discovered, and at the end archived or a gap and not both |
| `Runs.StopBeforeDiscoveryLoses` | internal/acquire/segments.go:380-436 | a concrete run: a stop between the observation of a playlist and the queueing of its root ends Stopped with an observed object neither archived nor a gap |
| `Runs.RefreshBeforeDiscoveryLoses` | internal/acquire/segments.go:496-513 | a concrete run: a refresh of the source between observation and sweep does the same |
| `Lifetimes.LifetimesChain` | internal/acquire/segments.go:1492-1537 | a drained, joined lifetime hands balanced books to the next one |
| `Lifetimes.DrainedCloseAddsNothing` | internal/acquire/segments.go:1492-1537 | closing a drained scheduler adds no pending entry and no gap |
| `Lifetimes.DrainedStaysDrained` | internal/acquire/worker.go:1231-1313 | after the drain no single step of the scheduler touches the recording or the empty table |
| `Lifetimes.DrainedRunAddsNothing` | internal/acquire/worker.go:1231-1313 | over any run from the drained scheduler on, its close and the join included, the table stays empty and the recording as it was: a pause that reaches Paused leaves no accepted work behind |
| `Lifetimes.StartIsSound` | internal/acquire/segments.go:113-167 | every invariant holds when a lifetime starts |
| `EndOfStream.StepClock` | internal/acquire/segments.go:453-489 | the accepted playlist generation never decreases and the ended state is cleared only by a newer generation |
| `EndOfStream.RunClock` | internal/acquire/segments.go:453-489 | the generation clock stays sound over every run |
| `EndOfStream.GenerationsGrow` | internal/acquire/segments.go:453-489 | between any two moments of a run neither latestManifestGeneration nor the media generation decreases |
| `EndOfStream.CompletesOnlyTheCurrentSource` | internal/acquire/worker.go:503-548 | a recording becomes Completed only by publishing the ENDLIST of the media generation current at that moment, with tasks, snapshots and metadata commits drained and nothing pending |
| `EndOfStream.CheckedStepsWriteNothing` | internal/acquire/segments.go:195-281 | every poller step of a superseded playlist that checks the source leaves root, tasks and goroutines as they are |
| `EndOfStream.SupersededWritesIff` | internal/acquire/segments.go:233-262 | a superseded playlist can change the root iff its discovery waits for room in a cancelled run with something left to make pending, or it has begun to commit a gap that is not settled |
| `EndOfStream.SupersededNeverWrites` | internal/acquire/segments.go:453-489 | however the run goes on, a playlist that neither waits for room nor commits a gap when its source is refreshed never writes again |
| `Runs.BlockedWrites` | internal/acquire/segments.go:246-262 | from every state in which discovery waits for room, a refresh and a stop lead to the old playlist writing its inventory |
| `Runs.BlockedPlaylistWrites` | internal/acquire/segments.go:246-262 | a concrete run with a playlist of 129 entries that gets there and writes |
| `Runs.GapWrites` | internal/acquire/segments.go:826-837 | from every state in which a gap commit has begun, a refresh leads to the old playlist writing that gap |
| `Runs.GapOutlivesItsPlaylist` | internal/acquire/segments.go:826-837 | a concrete run that gets there and writes |
| `CommitLog.RunKeepsLog` | internal/acquire/segments.go:1016-1165 | over every run the commits of a lifetime have new keys and ordinals at or above its first |
| `CommitLog.CommitsAreAdmissible` | internal/acquire/segments.go:1016-1165 | the commits of a run are admissible on the track it started from |
| `CommitLog.LifetimeCommitsInAnyOrder` | internal/acquire/segments.go:1046-1163 | of every run: whatever order workers finish in, the lifetime leaves the same track, sorted, marked, each object once |
| `SegmentScheduler.Scheduler.NoteMediaGeneration` | internal/acquire/segments.go:473-489 | a newer generation is accepted and reopens an ended stream; an older one changes nothing |
| `SegmentScheduler.Scheduler.ManifestGenerationCurrent` | internal/acquire/segments.go:453-469 | whether a playlist is of the current source, and what the check does to the clock |
| `SegmentScheduler.Scheduler.GrowIfSaturated` | internal/acquire/segments.go:183-187 | a burst worker starts exactly when all workers are busy and fewer than four exist |
| `SegmentScheduler.Scheduler.Take` | internal/acquire/segments.go:650-690 | a worker takes the oldest ready task; stale entries are skipped without losing one |
| `SegmentScheduler.Scheduler.Admit` | internal/acquire/segments.go:196-272 | a new task with the next ordinal, or full, or ordinal overflow; a known task is left alone |
| `SegmentScheduler.Scheduler.RebuildReady` | internal/acquire/segments.go:540-566 | ready becomes exactly the queued tasks in ordinal order |
| `SegmentScheduler.Scheduler.Observe` | internal/acquire/segments.go:496-566 | exactly the tasks that wait for a worker, a retry or a playlist and whose object is of an older epoch, is marked as a gap, or is left out by a playlist that has a later entry become gaps and are listed as expired, preloaded ones excepted; every other task keeps its phase |
| `SegmentScheduler.Scheduler.EndList` | internal/acquire/segments.go:599-641 | no task is left waiting for a playlist: those that the playlist they asked for has offered become ready, the others become gaps, and no other task changes |
| `SegmentScheduler.Scheduler.AwaitPlaylist` | internal/acquire/segments.go:784-824 | the task waits for a fresh playlist or is requeued, following the clock |
| `SegmentScheduler.Scheduler.RetryTimer` | internal/acquire/segments.go:849-869 | the timer requeues the task exactly if it is still its own |
| `Departures.SweepMeans` | internal/acquire/segments.go:513-533 | what one sweep does to one task, in terms of the playlist entries of its object |
| `Departures.EndedTableMeans` | internal/acquire/segments.go:599-641 | what ENDLIST does to every task of the table |
| `Departures.FailureMeans` | internal/acquire/segments.go:733-780 | a failed download is the last one iff the object is no longer on offer or it was the third and the stream has ended; the task then becomes a gap and is tried again otherwise |
| `Progress.ArchivesFirst` | internal/acquire/segments.go:650-690 | from every state with an idle worker, eight steps archive the object of the first ready task if a playlist of the present source offered it, and change no other task or record |
| `Progress.Archives` | internal/acquire/segments.go:940-1002 | from every state in which a worker downloads, six steps archive the object |
| `Progress.TriesAgain` | internal/acquire/segments.go:733-780 | from every state in which a download fails before the last attempt, three steps put the task back on the ready list with one attempt more and call its object pending |
| `Progress.BecomesGap` | internal/acquire/segments.go:733-780 | after the last attempt four steps make the object a gap, unless it was archived, and remove the task |
| `Progress.TurnedAway` | internal/acquire/segments.go:871-886 | a task whose entry is not of the present source asks for a playlist of it and counts as not offered |
| `Progress.FallsBehind` | internal/acquire/segments.go:1176-1193 | a download whose source was refreshed meanwhile asks for a playlist of the present source, and counts as not offered unless one has offered it |
| `Progress.RefreshesSource` | internal/acquire/segments.go:1195-1235 | a refused download refreshes the source, up to three times for one task, and asks for a playlist of it |
| `Progress.RefusedForGood` | internal/acquire/segments.go:718-725 | the fourth refusal ends the run and changes no task and no record |
| `Progress.AwaitsPlaylist` | internal/acquire/segments.go:784-824 | a task that asks for a playlist is ready again iff a playlist of at least that generation has offered its object, and waits otherwise |
| `Progress.ServesWaiting` | internal/acquire/segments.go:214-237 | discovery makes a waiting task ready iff the playlist is of the generation that it asks for or of a later one |
| `Progress.AdmitsIff` | internal/acquire/segments.go:243-278 | an offered object without a task gets one, with the next ordinal and ready, iff the table holds fewer than 128 tasks; the poller waits otherwise |
| `Progress.DiscoveredEndCompletes` | internal/acquire/worker.go:503-548 | when the last playlist has been discovered and nothing is left to do, four steps complete the recording; what was pending becomes a gap |
| `Progress.EmptyEndCompletes` | internal/acquire/worker.go:503-548 | so does an ENDLIST playlist without entries |
| `Handover.HandoverSafety` | internal/acquire/manager.go:410-569 | over every interleaving without a disturbed resume: archived segments are never taken back, no object is archived twice, ordinals of later lifetimes exceed all earlier ones across Engines |
| `Handover.StepKeeps` | internal/acquire/manager.go:1027-1109 | every undisturbed step of pause, drain, park, prepare, transfer, activate, resume, complete, restart keeps the archive sound and only extends it |
| `Handover.RunPrefixes` | internal/acquire/manager.go:1403-1446 | over every undisturbed run the root copy of every Engine past its start is a prefix of the archive |
| `Handover.ResumeLosesTheRest` | internal/acquire/manager.go:489-525 | the first root update after a resume keeps an archived entry iff the resumed Engine's copy holds it: exactly what was archived behind it is lost |
| `Handover.ResumeLosesIff` | internal/acquire/manager.go:489-525 | resuming a parked Engine loses an archived entry iff another Engine's update reached the root while it was parked, which the Host can see before it resumes |
| `Handover.AbortedPauseIsUndisturbed` | internal/acquire/manager.go:464-484 | a pause aborted before any transfer meets that condition |
| `Handover.RollbackOverCommitsLoses` | internal/acquire/manager.go:489-525 | a concrete run in which a rollback over the target's commit loses the target's segment and reuses its ordinal |
| `Handover.OnlyTheOwnerWrites` | internal/acquire/manager.go:1403-1446 | in any run whatever, only the current owner's commits change the archive |
| `Handover.EpochsGrow` | internal/acquire/manager.go:57-70 | ownership only moves to strictly larger epochs |
| `Transfers.MovesRecording` | internal/acquire/manager.go:1027-1109 | from every state in which an Engine works as the owner and another is idle, draining, parking, preparing, transferring, activating and completing end with the other one at work on the same archive, its candidate above all archived ordinals |
| `Transfers.Pauses` | internal/acquire/worker.go:1231-1313 | every running Engine can be drained and parked without a change of the archive or of its copy of the root |
| `Transfers.ParkedIsDrained` | internal/acquire/worker.go:1231-1313 | an Engine parks only when it drains and holds no object |
| `Transfers.GoesOn` | internal/acquire/manager.go:489-525 | a parked Engine resumes, under its own token or a later one that names it, with a new scheduler on its own copy of the root |
| `Transfers.GivesUpPause` | internal/acquire/manager.go:464-484 | after a pause that was given up it does so under the same token |
| `Transfers.StartsOver` | internal/acquire/worker.go:1231-1313 | an Engine whose scheduler ended gets a new one on its own copy, and what it had in hand is forgotten |
| `Transfers.ResumesForward` | internal/acquire/manager.go:489-525 | an Engine resumes only under the present owner's token, its own or a later one that names it |
| `Transfers.SaveAloneLoses` | internal/acquire/manager.go:489-525 | over a changed archive the first save of any kind after a resume replaces the archive by the copy |
| `Payloads.Acquirer.AcquireInit` | internal/acquire/segments.go:1249-1342 | from its two looks, first at the root and later at the flight table: a staged or downloaded init is released or handed over exactly once on every path; it is handed over iff the root did not show it when it was read, it was not on its way at the later look, and download and admission succeed; no failure leaves a flight behind |
| `Payloads.InitHandedTwice` | internal/acquire/segments.go:1249-1256 | a concrete init that lands between the two looks of a second worker and is handed over again |
| `Payloads.Acquirer.AcquireMedia` | internal/acquire/segments.go:940-990 | the staged or downloaded media payload is handed over exactly when the outcome is PersistQueued and released exactly once otherwise |
| `Payloads.Acquirer.Acquire` | internal/acquire/segments.go:899-994 | a task that is turned away keeps its payloads; any other task gives them up, and both, and all downloads on the way, are released or handed over exactly once whatever fails |
| `Staging.StepConserves` | internal/acquire/manager.go:857-943 | after every step of prepare, replace, discard, activate, adopt, acquire, end of stream and close each payload has one owner, or was consumed once, or leaked |
| `Staging.RunConserves` | internal/acquire/manager.go:662-701 | the same for every run |
| `Staging.PayloadsAreLinear` | internal/acquire/manager.go:1083-1140 | in every run no payload is consumed twice or while it is owned, and at the end each was consumed exactly once or leaked |
| `Preparation.Target.StageCandidate` | internal/acquire/manager.go:857-893 | what staging downloaded belongs to the candidate it returns, with success or without; anything else, mismatching media included, was released once |
| `Preparation.Target.Probe` | internal/acquire/manager.go:710-776 | however often the probe fetches a manifest and stages a candidate, everything it downloaded was released exactly once, except the payloads of the candidate it returns |
| `Preparation.Target.Store` | internal/acquire/manager.go:659-700 | the candidate is stored iff the root read again in time is the same, the Manager open, the recording idle and no other candidate in its way; a refused candidate and a replaced one are released exactly once |
| `Preparation.Target.Prepare` | internal/acquire/manager.go:589-701 | on every exit of the prepare half each payload downloaded so far, and each that was stored before, is stored now or was released exactly once |
| `Staging.OneTaskOfTheTable` | internal/acquire/segments.go:784-824 | what the one-task model does to the preloaded task on an offer and on a wait is what the table functions do to it |
| `Staging.SweptAsInTheTable` | internal/acquire/segments.go:513-523 | so is what it does to it on a sweep |
| `Staging.LeaksIff` | internal/acquire/segments.go:599-641 | a step leaks staged payloads iff the stream ends for the preloaded task after acquire turned it away and before a playlist of the refreshed source offered its entry again, and the gap that this makes of it is saved |
| `Staging.UnsavedGapIsReleased` | internal/acquire/segments.go:826-837 | if that gap cannot be saved the task keeps its payloads and closing the scheduler releases them |
| `Staging.TurnsAwayIff` | internal/acquire/segments.go:871-886 | acquire turns the preloaded task away iff the source was refreshed since a playlist last offered its entry, or since its adoption |
| `Staging.RefreshBeforeFirstCommitLeaks` | internal/acquire/segments.go:127-156 | a concrete run that leaks both staged payloads |
| `PreloadedTask.PreloadedExpiresIff` | internal/acquire/segments.go:496-566 | over every step of the scheduler a preloaded task becomes a gap iff ENDLIST finds it waiting for a playlist that has not offered it, or it is put back to wait after ENDLIST, or its own download failed for good; sweeps never expire it |
| `PauseRace.StuckForever` | internal/acquire/manager.go:464-484 | once the caller has taken back a pause the worker has published but not read, no further step lets it return |
| `PauseRace.UnstuckReturns` | internal/acquire/worker.go:1231-1313 | otherwise the worker's next steps answer the caller |
| `PauseRace.TimedOutPauseReturnsIff` | internal/acquire/manager.go:464-484 | a timed-out pause returns if and only if the worker had read the operation before |
| `PauseRace.RaceIsReachable` | internal/acquire/manager.go:410-462 | the stuck state is reachable |
| `PauseRace.InTimePauses` | internal/acquire/worker.go:1231-1313 | a request that is in time parks the worker and answers its caller |
| `PauseRace.LateIsRefused` | internal/acquire/worker.go:1231-1313 | a late request never parks the worker: it is back at work at its next read, and whoever waits is told |
| `SchemaDefaults.Validate` | internal/adapterproto/types.go:796-840 | the depth-first search accepts exactly the schemas with valid references and an acyclic visibility graph |
| `SchemaDefaults.CycleCheck.Visit` | internal/adapterproto/types.go:815-838 | one search from a field finds a cycle exactly when one is reachable, and otherwise ranks all it visited |
| `Visibility.RankedIsAcyclic` | internal/adapterproto/types.go:815-838 | a ranking of the fields rules out cycles |
| `Visibility.DependsOnReferences` | internal/adapterproto/types.go:877-954 | a condition's value depends only on the fields conditionReferences lists |
| `Visibility.EqualsMeans` | internal/adapterproto/types.go:1177-1189 | true iff the field is present and decodable and its value is the expected one; an absent field makes it false, an undecodable one is an error |
| `Visibility.NotEqualsMeans` | internal/adapterproto/types.go:1190-1202 | true iff the field is absent or has another value; an undecodable one is an error |
| `Visibility.TruthyMeans` | internal/adapterproto/types.go:1203-1213 | never an error; an absent field and an undecodable one are not truthy |
| `Visibility.AllMeans` | internal/adapterproto/types.go:1143-1155 | true iff every child is; otherwise the first other child decides |
| `Visibility.AnyMeans` | internal/adapterproto/types.go:1156-1172 | false iff every child is; otherwise the first other child decides |
| `Visibility.LimitsMean` | internal/adapterproto/types.go:882-954 | conditions are accepted up to 32 lists deep and without empty lists; the node count is the number of conditions in the tree |
| `Visibility.ReferencesOkMeans` | internal/adapterproto/types.go:796-814 | what Schema.Validate asks of keys, conditions and references before the cycle check, at most 2048 conditions to a field included |
| `SchemaDefaults.Ordered` | internal/adapterproto/types.go:1077-1100 | the dependency order lists every field once, after the fields it mentions |
| `SchemaDefaults.ApplyDefaults` | internal/adapterproto/types.go:1077-1118 | the result extends the input, contains an unsupplied default iff its field is visible in the result itself, and nothing else; a field whose condition compares one field is there iff that field has, or has not, the expected value; on an invalid schema the result is the input |
| `SchemaDefaults.FixpointIsUnique` | internal/adapterproto/types.go:1077-1118 | only one map has that property |
| `SchemaDefaults.Idempotent` | internal/adapterproto/types.go:1077-1118 | applying defaults twice changes nothing |
| `SchemaDefaults.OrderIndependent` | internal/adapterproto/types.go:1077-1118 | the order of the schema's fields does not matter |
| `SchemaDefaults.ValidityIsOrderIndependent` | internal/adapterproto/types.go:796-840 | nor does it matter for acceptance |
| `Decimal.CanonicalDecidesValue` | internal/adapterproto/types.go:1315-1348 | two number tokens have the same canonical form iff they denote the same decimal value (signs of zero, trailing zeros and huge exponents included) |
| `Decimal.UniqueScale` | internal/adapterproto/types.go:1328-1347 | a coefficient not divisible by 10 and its exponent are unique |
| `CanonicalJson.CanonicalDecidesEquality` | internal/adapterproto/types.go:1256-1308 | two decoded values have the same canonical text iff they are the same value |
| `CanonicalJson.ValueEnds` | internal/adapterproto/types.go:1256-1308 | canonical texts are self-delimiting: equal concatenations have equal values and equal rests |
| `CanonicalJson.ObjectsByContent` | internal/adapterproto/types.go:1280-1301 | objects have the same text iff they have the same keys with the same values, however their members were written |
| `Workflows.EventsAreConserved` | internal/adapterhost/workflow.go:542-598 | in every reachable state each workflow has emitted at most one terminal event, every emitted event is still queued or was acknowledged, and the claims never exceed 512 |
| `Workflows.StepKeeps` | internal/adapterhost/workflow.go:479-524 | every step keeps the accounts; none drops an event |
| `Workflows.QueueingFindsRoom` | internal/adapterhost/workflow.go:642-661 | a step that queues an event finds room: the drop-oldest branch is unreachable |
| `Workflows.LeavingEmitsOne` | internal/adapterhost/workflow.go:620-640 | a workflow that stops being active has emitted exactly one event |
| `Workflows.EndingEmits` | internal/adapterhost/workflow.go:581-661 | a step that ends a workflow (a failed start or continuation, a removal, an ended continuation) removes it, puts its one event last in the queue and changes nothing else |
| `Workflows.FailedContinuationEmits` | internal/adapterhost/workflow.go:620-640 | a failed continuation does that if its workflow is active in its generation, and nothing at all otherwise |
| `Workflows.EndedContinuationEmits` | internal/adapterhost/workflow.go:592-598 | an ended continuation does that if its workflow is active, and nothing at all otherwise |
| `Workflows.OtherStepsEmitNothing` | internal/adapterhost/workflow.go:542-568 | no other step emits an event |
| `Workflows.LifeCycle` | internal/adapterhost/workflow.go:542-661 | over every step: where it leaves a workflow that is reserved, inserted with its own adapter and generation, locked for a continuation, unlocked or ended, and that it leaves every other one alone |
| `Workflows.AcknowledgedLeave` | internal/adapterhost/workflow.go:711-730 | acknowledging and discarding change only the queue |
| `Workflows.LiteralCountIsExceeded` | internal/adapterhost/workflow.go:542-568 | a concrete run in which queued events, workflows and all reservations together reach 513: only unspent reservations are bounded |
| `Workflows.LifecycleQueue.Queue` | internal/adapterhost/workflow.go:642-661 | the queue method is Enqueue on the abstract queue, shifting out the oldest only when full |
| `Workflows.LifecycleQueue.AcknowledgeEvent` | internal/adapterhost/workflow.go:711-722 | acknowledging removes exactly the first event with that number, or nothing |
| `PlaylistText.ParseDecimal` | internal/hls/parse.go:368-393 | the one-pass scan accepts exactly digits, or digits "." digits |
| `PlaylistText.ShowRoundTrip` | internal/hls/parse.go:368-393 | decimal text is read back as the same number and scale |
| `PlaylistText.ParseAttrs` | internal/hls/parse.go:422-480 | the index loop equals the recursive attribute grammar, with every refusal |
| `AttributeList.ReadsBack` | internal/hls/parse.go:422-480 | for any reader of single attributes, the loop returns exactly the map of what is laid out for it |
| `PlaylistText.AttrsRoundTrip` | internal/hls/parse.go:422-480 | every printable attribute list (distinct keys, quoted and bare values) is read back as its map |
| `PlaylistText.TrimMeans` | internal/hls/parse.go:395-420 | trimming removes exactly the blank characters at both ends |
| `AttributeList.AddAllMeans` | internal/hls/parse.go:422-480 | the map of an attribute list has exactly its keys, each with its value |
| `PlaylistText.SplitJoined` | internal/hls/parse.go:395-420 | written lines are read back as they were |
| `MediaPlaylist.ParseMedia` | internal/hls/parse.go:157-356 | the line loop equals the fold over tags, header and size checks included |
| `MediaPlaylist.ParsedIsWellFormed` | internal/hls/parse.go:157-356 | every accepted playlist numbers segments MediaSequence + i without wrapping, one per URI line, bounds durations and target, and marks exactly the segments at which the discontinuity sequence grows (sections 4.3.3.2 and 4.3.3.3 of RFC 8216) |
| `MediaLines.MediaSequenceIsRead` | internal/hls/parse.go:187-196 | an EXT-X-MEDIA-SEQUENCE line gives the first sequence, no such line means 0, and the segments follow |
| `MediaLines.DiscontinuitySequenceIsRead` | internal/hls/parse.go:197-207 | an EXT-X-DISCONTINUITY-SEQUENCE line gives the discontinuity sequence of the playlist, no such line means 0 |
| `MediaLines.TargetAndEndAreRead` | internal/hls/parse.go:208-217 | the target duration and whether there is an EXT-X-ENDLIST line |
| `MediaLines.UriIsRead` | internal/hls/parse.go:308-345 | the n-th URI line is the n-th segment, with its resolved URI |
| `MediaLines.MarksAreRead` | internal/hls/parse.go:276-284 | a segment is a gap, or a discontinuity, iff such a line stands between the URI line before it and its own; its discontinuity sequence counts the EXT-X-DISCONTINUITY lines before it |
| `MediaLines.DurationIsRead` | internal/hls/parse.go:218-230 | its duration is that of the EXTINF line since the previous URI line |
| `MediaLines.SomeDuration` | internal/hls/parse.go:308-312 | every URI line of an accepted text has such a line |
| `MediaLines.NoSecondDuration` | internal/hls/parse.go:218-221 | and never a second one |
| `MediaLines.TimeIsRead` | internal/hls/parse.go:231-236 | its program time is that of the last such line since the previous URI line |
| `MediaLines.NoTimeIsRead` | internal/hls/parse.go:231-236 | and it has one iff there is such a line |
| `MediaLines.RangeIsRead` | internal/hls/parse.go:258-275 | its explicit byte range is that of the EXT-X-BYTERANGE line since the previous URI line |
| `MediaLines.InitIsRead` | internal/hls/parse.go:237-257 | its initialisation section is that of the last EXT-X-MAP line before it, however far, whose byte range must give its offset |
| `MediaLines.NothingLeftOver` | internal/hls/parse.go:346-348 | no accepted text ends with a duration or a gap mark whose URI is missing |
| `MediaLines.UnsupportedIsRefused` | internal/hls/parse.go:183-305 | variables, I-frame playlists, delta updates and session keys are refused |
| `MediaLines.EncryptionIsRefused` | internal/hls/parse.go:294-301 | so is every encryption method but NONE, in any case |
| `MediaLines.LowLatencyHasSegment` | internal/hls/parse.go:287-354 | an accepted low-latency playlist has a complete segment |
| `MediaLines.HeaderAndSize` | internal/hls/parse.go:157-182 | an accepted text starts with the header and fits into four mebibytes |
| `MediaPlaylist.ImplicitRangesContinue` | internal/hls/parse.go:258-275 | a byte range without offset yields a segment of the same resource starting exactly where the previous segment's range ended (section 4.3.2.2 of RFC 8216) |
| `VodPlaylist.SortIsStable` | internal/derivative/playlist.go:56-72 | the archive order is sorted, keeps the segments and never reorders tied ones |
| `VodPlaylist.SortOrder` | internal/derivative/playlist.go:56-72 | segments with an ordinal come first, by ordinal, and the others follow by epoch and sequence |
| `VodPlaylist.BuildPlaylist` | internal/derivative/playlist.go:37-123 | accepts exactly the supported tracks and prints the lines of the sorted segments |
| `VodPlaylist.CheckSegments` | internal/derivative/playlist.go:84-104 | the validation loop accepts exactly the acceptable segments and finds the longest duration |
| `VodRoundTrip.PrintThenParse` | internal/derivative/playlist.go:105-122 | a printed VOD within the manifest size is accepted iff no duration exceeds the bound, and is then read entry by entry: sequences 0..n-1, durations, discontinuities, URIs, ENDLIST |
| `VodRoundTrip.InitsReadBackIff` | internal/derivative/playlist.go:110-119 | every segment is read with its own initialisation section iff no segment without one follows a segment with one (and the first is not named like the printer's start marker) |
| `VodRoundTrip.UriAttribute` | internal/derivative/playlist.go:113-116 | the printed EXT-X-MAP attribute is read back |
| `Timeline.TimelineService.TimelineStarts` | internal/preview/service.go:857-888 | the cached answer always equals a full recomputation, with at most 16 recordings cached; another recording leaves the cache only to make room in a full one, and then the least recently used one |
| `Timeline.StartsMean` | internal/preview/helpers.go:62-74 | the first segment starts at 0 and each other one where its predecessor ends; a duration that is not positive or would exceed the bound does not count |
| `Timeline.LastMatchMeansPrefix` | internal/preview/service.go:866-875 | for grow-only histories, matching the last ordinal and hash means the whole cached list is a prefix |
| `Timeline.PrefixStands` | internal/preview/service.go:866-875 | if one cached segment is still at its place, so is everything before it |
| `Timeline.CacheHoldsStarts` | internal/preview/service.go:876-886 | extending the cache element by element gives the full recomputation |
| `Timeline.SegmentStarts` | internal/preview/helpers.go:62-74 | the reference loop computes the start of each segment by ordinal |
| `Timeline.TimelineService.Evict` | internal/preview/service.go:895-912 | exactly the least recently used recording goes |
| `PluginState.StateService.Apply` | internal/pluginconfig/state.go:109-170 | for any pattern of failing saves: refused before any write iff a mutation is invalid or its scope unreadable; otherwise done, rolled back or torn as the pattern decides; done leaves the in-order fold on every touched scope, rolled back leaves every scope as before, other scopes are untouched |
| `PluginState.OneFailureRollsBack` | internal/pluginconfig/state.go:151-186 | if one write fails and every later save succeeds, the outcome is rolled back |
| `PluginState.TornMeansTwoFailures` | internal/pluginconfig/state.go:172-186 | torn means that a write failed and after it a restoring save |
| `PluginState.StateService.Rollback` | internal/pluginconfig/state.go:172-186 | restores every item in reverse order and reports success exactly when all its saves succeed |
| `PluginState.ConfigService.PutPartial` | internal/pluginconfig/store.go:182-260 | one scope: refused iff invalid, else written whole, restored or torn as its saves decide |
| `PluginState.ConfigService.PutBatch` | internal/pluginconfig/store.go:139-180 | refused before any write iff a scope occurs twice or cannot be read; otherwise every scope written, or every scope as before, or torn, as the saves and the first invalid update decide |
| `PluginState.TornBatch` | internal/pluginconfig/store.go:139-180 | a torn batch means that a restoring save failed |
| `PluginState.Disk.Restore` | internal/pluginconfig/store.go:270-279 | saves both halves, the second even if the first fails, and reports success exactly when both succeed |
| `PluginState.StateService.Prepare` | internal/pluginconfig/state.go:118-150 | the prepared writes: one per touched scope, holding its original and its fold |
| `PluginState.LastMutationWins` | internal/pluginconfig/state.go:126-150 | what is left under a key is the last mutation that sets or clears it, clearing winning within one mutation |
| `PluginState.PutMeans` | internal/pluginconfig/store.go:228-250 | what a partial write leaves under a key: a blank secret leaves the stored one alone, clearing wins over setting, and clearing a secret also clears a value of that name |
| `IntegrityJobs.StepKeeps` | internal/integrity/service.go:177-587 | every critical section keeps the job invariant, and changes a settled result only by landing a saved verdict: cancelled, failed, panicking and unsaved jobs leave the recording's result exactly as it was |
| `IntegrityJobs.RunKeepsResults` | internal/integrity/service.go:437-522 | over every run a recording's result is the last verdict that landed for it, or the one from before the run |
| `IntegrityJobs.InvariantMeans` | internal/integrity/service.go:199-225 | at most one queued or running job per recording, and a result reads verifying exactly while its job runs |
| `IntegrityJobs.HistoryNeverBlocks` | internal/integrity/service.go:215-231 | a full history never refuses a job: it always holds a finished one to forget |
| `IntegrityJobs.RestartRecovers` | internal/integrity/service.go:589-665 | a restart from any written state file finds no active job and no result stuck at verifying, and leaves other results alone |
| `IntegrityJobs.StepKeepsDisk` | internal/integrity/service.go:667-683 | every written state file is one that restart can recover |
| `JobLife.JobSteps` | internal/integrity/service.go:437-572 | over every step: what becomes of a job, from queued to completed, failed or cancelled with its code; it leaves the history only if a new job needs room and it is the oldest finished one of 5000 |
| `JobLife.StartReplies` | internal/integrity/service.go:177-225 | Start answers closed, the unfinished job of the recording, full at 64 unfinished jobs or queue entries, or goes on |
| `JobLife.StartChanges` | internal/integrity/service.go:226-273 | a new job is queued if it could be saved; otherwise only its queue entry stays |
| `JobLife.Travels` | internal/integrity/service.go:425-450 | IDs are received oldest first, each is given up when it is decided about, and a closed service stays closed |
| `JobLife.JobCompletes` | internal/integrity/service.go:437-522 | without faults a new job on an open service with an empty queue is received, runs and completes, and its verdict is the result of the recording |
| `IntegrityJobs.Service.Start` | internal/integrity/service.go:177-273 | existing job, closed, full, accepted, or not saved; a failed write undoes everything but the queue entry, pruned history included |
| `IntegrityJobs.Service.Begin` | internal/integrity/service.go:437-475 | the first critical section of run, its failed write included |
| `IntegrityJobs.Service.End` | internal/integrity/service.go:478-522 | the second critical section of run: cancelled, panicked, completed, or completed but not saved |
| `IntegrityJobs.Service.CancelJob` | internal/integrity/service.go:534-554 | a queued or running job is cancelled and the previous result put back; others are left alone |
| `IntegrityJobs.Service.FailJob` | internal/integrity/service.go:556-572 | the job fails and the previous result is put back |
| `IntegrityJobs.Service.Close` | internal/integrity/service.go:398-423 | every active job is cancelled, in whatever order |
| `RingLog.Store.Add` | internal/applog/store.go:89-114 | the ring holds exactly the newest 2000 entries of the log; the sequence never wraps |
| `RingLog.Store.Query` | internal/applog/store.go:119-156 | the backwards scan returns the newest wanted entries below the cursor, the next cursor iff more exist, and the total of matches |
| `RingLog.PagingIsComplete` | internal/applog/store.go:119-156 | following cursors over an unchanged store yields the whole listing: every retained match exactly once, newest first |
| `RingLog.PagingNeverRepeats` | internal/applog/store.go:119-156 | with entries added between pages nothing is returned twice and the order stays newest first |
| `RingLog.PagingMissesOnlyOverwritten` | internal/applog/store.go:119-156 | a finished session returns every match that was there at the start and is among the newest 2000 entries at the end |
| `RingLog.CursorRoundTrip` | internal/applog/store.go:245-251 | cursor text parses to a sequence number iff it is that number's ID |
| `RingLog.CursorCuts` | internal/applog/store.go:137-143 | a cursor cuts off exactly the entries at or above it |
| `Hexadecimal.HexRoundTrip` | internal/applog/store.go:245-251 | fixed-width hexadecimal text is read back |

## Left out

- Fetching, redirects, headers, address checks, adapter processes, FFmpeg and sockets: a fetch or an adapter call is a step with any result.
- File writes, permissions and durability details: a store is a map, a save succeeds or fails.
- The Host's fence, the ingest service and object storage: only the contracts visible at their call sites are used; they are not part of this model.
- The failure path to Interrupted: it finalises pending entries while tasks may still be live, so the partition at the end is claimed for Stopped and Completed only.
- Media generations, tokens and retry attempts are unbounded naturals; archive ordinals, epochs and sequences are uint64 with their overflow branches.
- Times, durations of waiting, Go channel internals and fairness: steps interleave in any order.
- Initialisation segments during acquisition: a task's media payload stands for both; `Staging` counts them separately.
- Acquisition.Observe of unfinished snapshots: the content of queued root snapshots is not distinguished, only whether they are still open.
- Ownership.OwnershipMeans: holds while the scheduler is not cancelled; after that goroutines leave without finishing and closing collects the rest.
- Losses.NoSilentLoss: assumes playlists with consecutive sequences, as the parser produces them; `Losses.LostIff` says what is lost without its other hypothesis.
- Acquisition.GapMark: after a gap commit that could not be saved the worker's slot is given back; in one of the three callers (internal/acquire/segments.go:760-766) the worker ends without giving it back. The scheduler is closed by then.
- Acquisition.GapperMark: a gap commit of the poller that could not be saved closes the scheduler in the same step; in the source the error first travels up to the poll loop.
- Acquisition.Wake: the poller that waits for room may look again at any time, not only after a change of the table.
- Handover.HandoverSafety: assumes no disturbed resume; `Handover.ResumeLosesIff` says exactly when a resume is one.
- Handover.ResumeLosesIff: speaks of the first root update after the resume that lands before ownership moves again.
- Staging.LeaksIff: follows one candidate and its preloaded task; other tasks of the scheduler only download and consume payloads of their own.
- Preparation.Target.Prepare: reading the root, finding and checking a candidate, refreshing the source and the time that is left are parameters.
- Payloads.Acquirer.Acquire: downloads, admissions and the wait for another worker's init end as given by parameters; hash collisions of init identities are left out.
- Gaps.UncoveredIsExact: for well-formed stored gaps, which every writer keeps.
- SourceIdentity.ObservationIgnoresSignatures: which part of a URI names the resource (internal/acquire/worker.go:554-575) is part of the input.
- Progress.AwaitsPlaylist: while the stream has not ended; after ENDLIST the task becomes a gap instead, as `Ownership` and `EndOfStream` have it.
- Visibility.DependsOnReferences: the truth value of a JSON value is a parameter, because it rounds numbers to floating point.
- Validation of schema fields other than visibility references, and the limits on nodes and depth of canonical JSON: easy bounded checks.
- Decimal.CanonicalDecidesValue: starts from the parts of a number token; splitting the token's text is not modelled, and neither is the float64 branch.
- CanonicalJson.CanonicalDecidesEquality: an object is the list of its members by sorted key; `CanonicalJson.ObjectsByContent` relates that list to the map.
- MediaPlaylist.ParseMedia: resolution of URIs, timestamps and rounding to float64 are parameters; text is a sequence of characters whose UTF-8 size is counted; the scanner's limit on the length of one line is not modelled.
- VodRoundTrip.PrintThenParse: assumes that the printed decimal of a duration rounds back to it, which is what the shortest form guarantees, and local names that the parser takes as URIs.
- Master playlists and variant selection: simple scans.
- Choosing the track to print when there is no main track.
- Timeline.TimelineService.TimelineStarts: durations are reals, the sum is bounded by 10^18 instead of the largest float64, and the access clock does not wrap.
- Frame selection, context windows and derivative clips of the preview service.
- PluginState.StateService.Apply: schema validation of values is a refusal before any write; it is not modelled further.
- The effective configuration along a scope chain: a map overwrite.
- IntegrityJobs.StepKeeps: job IDs are issued in increasing order instead of at random; creation and finishing times are left out, and with them the sort of loaded jobs.
- RingLog.Store.Query: a query is any predicate on entries; its validation and the redaction of messages are left out.
- Interaction byte accounting, control-plane lifecycle and generation routing of the adapter host beyond what ends a workflow.
