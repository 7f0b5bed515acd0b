# Unikraft provider: billing and reconcile model

A Dafny model of the two state machines in this repository that decide money and lifecycle, and proofs about
every run of them.

**Usage billing** (`internal/stateprojector`). A tailer cuts growing event files into lines (`Framing`, `Tailer`,
`TailerRotation`). A processor opens a window when an instance starts running, closes it when it stops, and on every
tick of a wall-clock timer writes what is due (`Billing`, `BillingLaws`, `ProcessorRuns`, `Processor`). A writer appends
records and rotates the output (`OutputFiles`). An index attributes an instance to a Pod and its size (`PodIndex`).
`Pipeline` puts the stages together: from the bytes of the event files to the sum of the records in the output files.

**Instance reconcile** (`internal/controller`). `Protocol` is a transition system for one Instance name: each step is
one API call of the reconciler or one action of a user, the compute controller, the scheduler, kraftlet or a host, in
any order, and any call may fail. `ProtocolSafety`, `ProtocolTeardown` and `ProtocolRecovery` prove what holds in every
reachable state, and `ProtocolProgress` what a reconcile achieves. `Reconciler` is the reconcile procedure itself,
written call by call, and every execution of it is proved to be a run of that protocol. `PodMetadata`, `InstanceStatus`
and `Recovery` hold the decisions a reconcile makes.

**Sizing** (`Footprint`) ties the two together: what the reconciler programs on a Pod is what the projector later bills.

Times are integer nanoseconds. `dafny verify dfyconfig.toml` checks everything.

## What is assumed

- Each event and each flush tick of the processor is one step, as both run under the windows lock. The resolver and the
  record writer may answer differently at every step. A failed append is taken to have written nothing, although
  `append` can fail in `Sync` after the bytes are out (`internal/stateprojector/writer.go:61-64`).
- One reconcile is in flight per Instance. Reads of the Instance may be stale but never go back; reads of Pods, Services
  and Nodes are current. Nobody else creates objects under the Instance's name, writes the boot ID annotation or
  strips the provider's finalizer. Without current reads of the Pod the finalizer gate does not hold: a check that misses
  a Pod releases the finalizer.
- The bytes that were read from an event file do not change later, unless the tailer finds the file shorter than what it
  read. A file that is rewritten in place and has grown past that point by the next poll would not be noticed.
- Whether a line is blank is a parameter of the tailer, since the source trims Unicode white space.

## Where the code does less than its comments or documentation say

- `internal/stateprojector/processor.go:214` says a failed span is retried by the next flush. That holds for windows
  that stay open (`BillingLaws.FailedFlushesAreRetried`); a close whose write failed loses the rest of its stretch
  (`BillingLaws.FailedCloseIsLost`, with the exact condition in `BillingLaws.ClosedWindowBills`).
- `internal/stateprojector/processor.go:157-158` and `cmd/state-projector/README.md:203-206` bound what a crash loses
  by one flush interval. A window's first span may be longer (`BillingLaws.FirstSpanCanExceedInterval`, with the bound
  that does hold in `BillingLaws.LagAfterTick`), and because the running event is not read again the whole rest of the
  stretch is lost (`BillingLaws.CrashLosesTheRest`, and over whole runs `Pipeline.RestartedProjectorBills`).
- `cmd/state-projector/README.md:73-78` says replaying processed events is safe. A replay bills nothing if and only
  if no tick is due while a replayed window is open and no replayed stop is later than the watermark, which for a
  replayed window is its own start; after a restart it is without effect if and only if it also ends stopped
  (`BillingLaws.ReplayIsHarmlessIff`). A replayed stretch is billed again (`BillingLaws.ReplayedStretchBillsTwice`), even
  an empty one when a flush comes between its events (`BillingLaws.FlushedReplayIsBilled`), and a replayed stop closes
  an open window however old it is (`BillingLaws.ReplayIntoOpenWindow`).
- `cmd/state-projector/README.md:198-200` says a restart picks up exactly what was missed. It does if and only if the
  saved offset is a clean cut (`Tailer.RestartedRunsDeliver`); a restart inside a line can mangle it
  (`Tailer.RestartCanMangle`).
- `cmd/state-projector/README.md:95-98` says the tailer is safe under rotation whenever it happens. When it notices a new
  file it closes the old one without reading its rest: nothing is lost if and only if no line of the old file was
  unread by then (`TailerRotation.RotationIsSafeIff`, at an input in `TailerRotation.RotationCanLose`).
- Two rotations in one second overwrite one another (`OutputFiles.EveryRecordStoredIff`, at an input in
  `OutputFiles.SameSecondLosesRecord`).

## Model

| member | source | states |
|---|---|---|
| Billing.FlushSkipThreshold | internal/stateprojector/processor.go:28-34 | for every positive interval the threshold is positive and at most the interval; the tolerance is a tenth of the interval, but never more than a second |
| BillingLaws.RunsTile | internal/stateprojector/processor.go:197-227 | in every run, with any failed writes, each window's records are positive and contiguous from its start to its watermark, and every record belongs to exactly one window |
| BillingLaws.TilesTotal | internal/stateprojector/processor.go:212-220 | tiling records add up to exactly the stretch they cover |
| BillingLaws.TilesCoverOnce | internal/stateprojector/processor.go:212-220 | every instant of a window's billed stretch is covered by exactly one record and no other instant is |
| BillingLaws.WatermarkIsLatestEnd | internal/stateprojector/processor.go:219 | the watermark is the start of the window or the latest end of its records |
| BillingLaws.RunConserves | internal/stateprojector/processor.go:115-155 | everything ever billed for an instance is the sum of the stretches billed by its windows |
| BillingLaws.ClosedWindowBills | internal/stateprojector/processor.go:198-219 | a written close bills up to the later of its time and the watermark; a failed one only up to the watermark; with the exact condition under which that is the time run |
| BillingLaws.BillingRefinesTimeline | internal/stateprojector/processor.go:115-155 | with writes succeeding, closed windows and running stretches of the events correspond one to one, and agree if and only if no close fell below the watermark |
| BillingLaws.WellTimedNeverOverbills | internal/stateprojector/processor.go:198-207 | runs in which no flush is later than the next event are never overbilled |
| BillingLaws.FlushingNeverChangesTheBill | internal/stateprojector/processor.go:173-184 | two well-timed runs of the same events bill the same stretches and, once stopped, the same total, the sum of off minus on, whatever their flushes |
| BillingLaws.LateCloseIsOverbilled | internal/stateprojector/processor.go:198-207 | a flush past a later close bills time that did not run |
| BillingLaws.RecordsNeverOverlap | internal/stateprojector/processor.go:142-151 | with events in order and no overbilled close, all records of an instance across all its windows follow one another without overlap |
| BillingLaws.OrderedKeysAreDistinct | internal/stateprojector/writer.go:32-37 | records that do not overlap have distinct dedup keys |
| BillingLaws.SteadyTicksFlush | internal/stateprojector/processor.go:173-184 | once flushed at a tick, a window is flushed at every later tick that comes a threshold after the one before, so nothing older than the last tick is unreported |
| BillingLaws.LagAfterTick | internal/stateprojector/processor.go:177-184 | after any written tick less than a threshold is unreported, and less than threshold plus gap before the next tick; it is no more than the gap if and only if the tick flushed the window or found nothing unreported |
| BillingLaws.FirstSpanCanExceedInterval | internal/stateprojector/processor.go:157-158 | a window's first span can leave more than one interval unreported |
| BillingLaws.RepeatedEventsAreAbsorbed | internal/stateprojector/processor.go:118-146 | an event that repeats the current state may be dropped anywhere in a run without effect |
| BillingLaws.ReplayIsHarmlessIff | cmd/state-projector/README.md:73-78 | for every lane and every replay: nothing is billed if and only if no written tick is due and no written stop is later than the watermark while a window is open; on a lane without a window nothing changes if and only if the replay also ends stopped |
| BillingLaws.MarksAreStarts | internal/stateprojector/processor.go:118-141 | the watermark of a replayed window that has billed nothing is the start its events announce |
| BillingLaws.ReplayBills | cmd/state-projector/README.md:73-78 | replayed on a lane without a window, events bill whatever their own windows bill once more |
| BillingLaws.ReplayIntoOpenWindow | cmd/state-projector/README.md:73-78 | the first replayed stop closes the open window and bills it up to its own time unless more was reported; what follows is billed as on a lane without a window |
| BillingLaws.WellTimedReplayBills | cmd/state-projector/README.md:73-78 | a written, well-timed replay that ends stopped bills every replayed stretch once more, and changes nothing if and only if all are empty |
| BillingLaws.FlushedReplayIsBilled | internal/stateprojector/processor.go:160-164 | an empty replayed stretch is billed up to a flush between its events |
| BillingLaws.ReplayedStretchBillsTwice | cmd/state-projector/README.md:73-78 | a replayed stretch is billed again, under a new key when the first pass was flushed |
| BillingLaws.FailedFlushesAreRetried | internal/stateprojector/processor.go:213-217 | after any number of failed flushes the next tick or close writes the span it would have written without them |
| BillingLaws.FailedCloseIsLost | internal/stateprojector/processor.go:150-151 | a close whose write fails leaves its stretch in no record |
| BillingLaws.AttributionIsStable | internal/stateprojector/processor.go:229-286 | a resolved window keeps its attribution and every record it writes carries it, that of its close included |
| BillingLaws.FirstAnswerDecides | internal/stateprojector/processor.go:229-286 | in every run each record is billed to whoever the first answer names that was asked for since its window opened, the answer asked for by its own emission included; and to nobody, at no size, while none has |
| BillingLaws.CrashLosesTheRest | cmd/state-projector/README.md:203-206 | a crash loses exactly the time from the watermark to the end of the stretch, however many ticks follow |
| BillingLaws.RestartedRunsBill | cmd/state-projector/README.md:203-206 | two clean runs with a restart in between bill the time that all their events say the instance ran, less the time from the forgotten window's watermark to the first event after the restart |
| ProcessorRuns.UuidsAreIndependent | internal/stateprojector/processor.go:113-151 | in every run the window and records of an instance are those of the run restricted to its own events and all ticks |
| ProcessorRuns.FlushOrderIsIrrelevant | internal/stateprojector/window.go:70-78 | the order in which flushes visit the windows decides nothing about any instance |
| ProcessorRuns.ProcessorConserves | internal/stateprojector/processor.go:115-227 | tiling and conservation for every instance of the whole processor |
| ProcessorRuns.BillIsIndependentOfFlushing | internal/stateprojector/processor.go:165-193 | two clean processor runs that give an instance the same events bill it the same total, whatever their intervals, ticks, flush orders and other instances |
| ProcessorRuns.FlushNeverOverbills | internal/stateprojector/processor.go:178-182 | no flush ever takes the overbilled branch, as the threshold is positive |
| ProcessorRuns.OverbilledCountsLateCloses | internal/stateprojector/processor.go:198-206 | in every run the overbilled counter is the number of closes below the watermark |
| ProcessorRuns.EventIsTakenIff | internal/stateprojector/processor.go:87-110 | an event counts exactly if its type is absent or right and it names an instance and a state |
| ProcessorRuns.DroppedEventIsCounted | internal/stateprojector/processor.go:87-110 | a dropped event changes nothing but the counter that says why |
| ProcessorRuns.UnstampedHappensNow | internal/stateprojector/processor.go:93-97 | an event without a readable time happens when it is handled |
| ProcessorRuns.EventMeans | internal/stateprojector/processor.go:113-151 | only the state running opens a window, anchored at the event's time, every other state closes it, and no other window is touched |
| ProcessorRuns.EmissionIsCounted | internal/stateprojector/processor.go:208-221 | an emission with something to report writes one record or counts one error, and any other does neither |
| ProcessorRuns.CountersAreRight | internal/stateprojector/processor.go:118-151 | in every run as many records are counted as were written, and as many windows are open as were opened and not closed |
| Processor.WindowStore.GetOrOpen | internal/stateprojector/window.go:45-52 | the existing window unchanged, or a new one anchored at the event time |
| Processor.WindowStore.Delete | internal/stateprojector/window.go:61-63 | removes that window and no other |
| Processor.WindowStore.All | internal/stateprojector/window.go:72-78 | every open window exactly once, in some order |
| Processor.EventProcessor.ResolveWindow | internal/stateprojector/processor.go:238-255 | caches the first attribution found and never replaces it |
| Processor.EventProcessor.EmitWindow | internal/stateprojector/processor.go:197-227 | the new window, the record written and the counters are those of one emission; a failed write moves nothing |
| Processor.EventProcessor.HandleEvent | internal/stateprojector/processor.go:87-155 | takes exactly the event step of the processor run, drops included |
| Processor.EventProcessor.FlushTick | internal/stateprojector/processor.go:173-186 | takes exactly the flush step, over every open window once |
| Framing.LinesResume | internal/stateprojector/file_source.go:117-128 | cutting the stream anywhere and carrying the tail over gives the lines and tail of the whole |
| Framing.TailIsBare | internal/stateprojector/file_source.go:172-179 | what stays pending is the newline-free end of the data |
| Framing.LinesRejoin | internal/stateprojector/file_source.go:174-186 | lines with their newlines, followed by the tail, are the stream itself |
| Framing.RestartDelivers | internal/stateprojector/file_source.go:70-83 | a resumed run delivers the rest of the line the cut falls in as a line of its own, then every line that starts after it |
| Framing.RestartIsSeamlessIff | internal/stateprojector/file_source.go:149-170 | two runs split at a cut deliver what one run delivers if and only if the cut is clean |
| Tailer.RunsFrame | internal/stateprojector/file_source.go:89-139 | however the file grows and is cut into reads, exactly the non-blank lines read since the start were handed on, in order, the tail is pending, and the saved offset lies within what was read |
| Tailer.ReadsReach | internal/stateprojector/file_source.go:117-128 | the reads of a poll get as far as they ask for, up to the end of the file |
| Tailer.RotationIsNoticedIff | internal/stateprojector/file_source.go:106-115 | a poll closes the file if and only if the path names another one or the file is shorter than what was read, and the next poll reads from the first byte |
| TailerRotation.RotatedRunsFrame | internal/stateprojector/file_source.go:89-139 | over any number of replaced or shortened files, the lines handed on are those of what each pass of the run read, in order: one pass for every opening, one for every poll that closed a file, each but the first from the file's first byte, and each finished one with what the poll that closed the file found unread |
| TailerRotation.RotationIsSafeIff | internal/stateprojector/file_source.go:106-115 | in every run the lines handed on are all lines of the files, as found at the end of each pass of the run, if and only if no pass left a line unread; otherwise as many are missing as were left |
| TailerRotation.RotationCanLose | cmd/state-projector/README.md:95-98 | a line appended between the last poll and a rotation is never handed on |
| Tailer.OversizedOffsetStartsOver | internal/stateprojector/file_source.go:162-164 | a saved offset beyond the file counts as zero |
| Tailer.NegativeOffsetNeverReads | internal/stateprojector/file_source.go:165-168 | a negative saved offset, which parses, cannot be sought, and the file is never read again |
| Tailer.SavedLinesWereHandedOn | internal/stateprojector/file_source.go:129-132 | every line that ends by the saved offset was handed on, even when saves fail |
| Tailer.RestartedRunsDeliver | internal/stateprojector/file_source.go:70-83 | after an exit or a crash at any moment, whichever saves failed, the lines up to the saved offset and those of the restarted run are what one run would have delivered if and only if the saved offset is a clean cut; what was handed on beyond the offset is handed on again |
| Tailer.OnlyTheStraddlingLineIsLost | internal/stateprojector/file_source.go:117-132 | the only line a restart can lose is the one the saved offset falls in, and not when the first run had read to its end |
| Tailer.RestartCanMangle | internal/stateprojector/file_source.go:149-170 | a restart inside a line hands on its second half as a line of its own |
| Tailer.FileSource.ConsumeLines | internal/stateprojector/file_source.go:174-186 | hands on exactly the complete non-blank lines and returns the rest; it terminates as the buffer shrinks |
| Tailer.FileSource.ReadFile | internal/stateprojector/file_source.go:117-128 | the read loop, for every sequence of read sizes |
| Tailer.FileSource.PollOnce | internal/stateprojector/file_source.go:89-139 | one turn of the loop: open and correct the offset, detect rotation, read, save |
| Tailer.FileSource.Stop | internal/stateprojector/file_source.go:79-84 | the final save on exit |
| OutputFiles.RotationPartitionsTheLog | internal/stateprojector/writer.go:51-92 | in every run the rotations followed by the live file are the appended records, cut into consecutive pieces |
| OutputFiles.RotatedFileHoldsItsCut | internal/stateprojector/writer.go:74-131 | a rotated file holds exactly its last rotation and is missing only if a cleanup after that rotation found it old enough |
| OutputFiles.EveryRecordStoredIff | internal/stateprojector/writer.go:85-86 | without cleanups every record is in a file if and only if no two rotations share a second |
| OutputFiles.SameSecondLosesRecord | internal/stateprojector/writer.go:85-86 | two rotations in one second leave the first record in no file |
| OutputFiles.RecordStoredUntilSwept | internal/stateprojector/writer.go:100-131 | with distinct seconds a record is lost only with a rotation that a later cleanup found at least the maximum age old |
| OutputFiles.RecordStoredOnce | internal/stateprojector/writer.go:74-92 | no record is in two files |
| OutputFiles.LiveFileStaysSmall | internal/stateprojector/writer.go:74-92 | while renames succeed the live file is below the limit after every append |
| OutputFiles.RotationsReachTheLimit | internal/stateprojector/writer.go:74-92 | a file is rotated only when it has reached the limit |
| OutputFiles.SweepLeavesTheYoung | internal/stateprojector/writer.go:100-131 | a cleanup leaves exactly the rotations that are younger than the maximum age or cannot be removed |
| OutputFiles.OutputWriter.AppendEntry | internal/stateprojector/writer.go:51-65 | appends one entry, creating the file, or changes nothing |
| OutputFiles.OutputWriter.Rotate | internal/stateprojector/writer.go:74-92 | renames the live file away when it has reached the limit |
| OutputFiles.OutputWriter.CleanUpOldRotations | internal/stateprojector/writer.go:100-131 | removes exactly the expired rotations that can be removed, in any listing order |
| Pipeline.ProcessorSeesTransitions | internal/stateprojector/processor.go:87-155 | the steps the processor takes for an instance are the transitions its events announce |
| Pipeline.FilesBillTheLog | internal/stateprojector/writer.go:51-131 | whatever order the directory lists them in, the output files bill everything that was appended, unless one was overwritten or swept |
| Pipeline.ProjectorConserves | internal/stateprojector/processor.go:87-227 | end to end: the records of a stopped instance in the output files add up to exactly the time that the lines read from the event files say it ran, for any polls, reads, rotations, flushes and other instances; these are all lines of the files if and only if no pass of the run left one unread |
| Pipeline.RestartedProjectorBills | cmd/state-projector/README.md:198-206 | end to end over an exit or a crash at any moment: the output files bill the time that the lines of both runs say the instance ran, less the time from the watermark of the window that was open to the first event after the restart; with the exact condition for these being all lines of the event file, and what is read twice |
| PodIndex.SchemeIsStripped | internal/stateprojector/pod_index.go:83-96 | a runtime prefix is cut at its first separator, whatever follows |
| PodIndex.BareIdIsTheUuid | internal/stateprojector/pod_index.go:83-96 | an id without a separator is the uuid itself |
| PodIndex.UuidsAreOfStarted | internal/stateprojector/pod_index.go:83-96 | the uuids of a Pod are those of its started containers and no others |
| PodIndex.Index.ContainerIds | internal/stateprojector/pod_index.go:83-96 | the uuids of the started containers, in order |
| PodIndex.Index.Upsert | internal/stateprojector/pod_index.go:98-136 | every uuid of the Pod resolves to it and every other one as before; the index keeps holding what its history of changes says |
| PodIndex.Index.Delete | internal/stateprojector/pod_index.go:159-174 | no uuid of the Pod resolves and every other one as before; the index keeps holding what its history of changes says |
| PodIndex.Index.Resolve | internal/stateprojector/pod_index.go:200-208 | the Pod of the last upsert that named the uuid, or nothing if a deletion named it since |
| PodIndex.RecordsBillTheProgrammedSize | internal/stateprojector/pod_index.go:114-123 | end to end: when an instance starts while the last the index heard of its uuid is a Pod, every record of its window, that of its close included, bills the largest CPU and memory that Pod's containers were sized at |
| Footprint.RoundingIsExactIff | internal/controller/instance_mapper.go:150-157 | rounding up to MiB is exact if and only if the size is at most 2^63 - 2^20; larger ones wrap |
| Footprint.ResolveContainerResources | internal/controller/instance_mapper.go:38-124 | the step-by-step procedure computes explicit limit, then catalog, then default, one dimension at a time |
| Footprint.SizingMeans | internal/controller/instance_mapper.go:38-124 | from the inputs alone, one dimension at a time: the explicit limit, else the published type, else the known type under either name, else the default; it fails exactly when a dimension is missing and the type cannot be read or is not known |
| Footprint.SizingFits | internal/controller/instance_mapper.go:107-124 | sizing in range never wraps, honours the limits and rounds memory up by less than a MiB |
| Footprint.ReadErrorNeverMissizes | internal/controller/instance_mapper.go:36-37 | a transient read error fails the sizing or gives what every other outcome would have given |
| Footprint.RetiredNameSizesAlike | internal/controller/instancetype_catalog.go:55-72 | a retired type name sizes like the name that replaced it |
| Footprint.BilledFootprint | internal/stateprojector/pod_index.go:113-123 | for every Pod no container's limit or request exceeds the result, and each part of it is some container's value or zero |
| Footprint.BilledIsProgrammed | internal/controller/instance_controller.go:529-546 | the billed footprint is the largest programmed CPU and memory, without wrap, never below a container's limits, and the zero requests never matter |
| Footprint.RequestsAreZero | internal/controller/instance_controller.go:1096-1102 | a programmed container requests exactly the resources it is limited to, and none of any of them |
| Fqdns.ExtractServiceFqdns | internal/controller/instance_controller.go:965-1013 | each non-empty service name once per container name, spec containers first by first occurrence, the others sorted; nothing without a readable annotation |
| Fqdns.ExtractionIsUnique | internal/controller/instance_controller.go:1000-1012 | that order determines the result, so map iteration order cannot show |
| PodMetadata.CopyUnikraftAnnotations | internal/controller/instance_controller.go:944-958 | the loop mirrors exactly the prefixed annotations that are not platform decisions |
| PodMetadata.MutateLookup | internal/controller/instance_controller.go:280-330 | what the platform decides follows from configuration alone; any other key is the tenant's if mirrored and the Pod's own otherwise |
| PodMetadata.PlatformDecides | internal/controller/instance_controller.go:280-330 | key by key, what configuration puts on or takes off a Pod |
| PodMetadata.TenantDecides | internal/controller/instance_controller.go:944-958 | every other prefixed key is the tenant's if the tenant sets it, and any other is the Pod's own |
| PodMetadata.BootIdIsLeftAlone | internal/controller/instance_controller.go:263-350 | no tenant annotation and no reconcile touches the recorded boot ID |
| PodMetadata.MutateIsIdempotent | internal/controller/instance_controller.go:263-350 | mutating a settled Pod changes nothing |
| PodMetadata.PatchTouchesOnlyDifferences | internal/controller/instance_controller.go:263-353 | a merge patch changes only keys on which base and modified object disagree |
| InstanceStatus.ContainerStartFailure | internal/controller/instance_mapper.go:162-187 | the first container that is failing to start, with its translated reason |
| InstanceStatus.StartFailureIsFirst | internal/controller/instance_mapper.go:162-187 | a failure is reported exactly when some container is failing, and it is the first one's |
| InstanceStatus.ReportMeans | internal/controller/instance_controller.go:831-899 | exactly when an Instance is reported available and exactly when programmed; a crash loop stays programmed |
| InstanceStatus.StartFailureIsReported | internal/controller/instance_controller.go:831-847 | by the runtime's own words, the first failing container decides: a crash loop stays programmed, creation errors are configuration errors, failed pulls make the image unavailable; with the messages |
| InstanceStatus.PhaseIsReported | internal/controller/instance_controller.go:785-899 | what is reported of a deleted Instance and, without a failing container, of every phase |
| InstanceStatus.ImageIsTheUsers | internal/controller/instance_mapper.go:189-209 | the image is named as the last container of that name has it, and as reported without one |
| InstanceStatus.TransitionTimeMoves | internal/controller/instance_controller.go:901-902 | a condition's transition time moves exactly when its truth value does |
| InstanceStatus.AddressesAreReported | internal/controller/instance_controller.go:904-917 | one entry for every service name with the first Pod address, one for the address alone without names, none without either |
| InstanceStatus.PlatformAddressesAreLeft | internal/controller/vpc_networking.go:44-56 | with VPC networking or a published reference interface status is left alone |
| InstanceStatus.TemplateHashIsTracked | internal/controller/instance_controller.go:820-830 | a running Pod sets the rollout hash, also while it crashes, and nothing else does |
| InstanceStatus.ImagePullFailure | internal/controller/instance_mapper.go:189-209 | names the image as the user wrote it |
| InstanceStatus.FirstWaitingReason | internal/controller/instance_controller.go:860-870 | the first non-empty waiting reason among the containers |
| InstanceStatus.WorkingInstance.Derive | internal/controller/instance_controller.go:785-899 | the branches over deletion, start failure and phase give exactly the reported conditions |
| InstanceStatus.SyncReports | internal/controller/instance_controller.go:763-902 | after a sync the two provider conditions say what the Pod says, and Available=True implies Programmed=True |
| InstanceStatus.SyncFrame | internal/controller/instance_controller.go:901-917 | every condition of compute is unchanged, and interfaces are untouched where VPC networking is on or a reference is published |
| InstanceStatus.SyncIsFixedPoint | internal/controller/instance_controller.go:919-928 | a second sync at any later time changes nothing and sends no patch |
| InstanceStatus.UnchangedMeansSame | internal/controller/instance_controller.go:919-928 | when no patch is sent there was nothing to send |
| InstanceStatus.UncheckedPatchLosesWrite | internal/controller/instance_controller.go:920-924 | without the version check the merge patch would undo a write of compute |
| InstanceStatus.WorkingInstance.SyncPowerState | internal/controller/instance_controller.go:749-931 | the in-place update of the status and the patch it sends are those of a sync |
| Recovery.StuckStartRemaining | internal/controller/instance_recovery.go:133-152 | stuck exactly when Pending with every container stopped other than over an image pull, and the least wait until the grace period is over |
| ProtocolSafety.RunKeeps | internal/controller/instance_controller.go:101-230 | the protocol invariant holds in every reachable state |
| ProtocolSafety.FinalizerSafety | internal/controller/instance_controller.go:146-206 | in every reachable state a Pod or Service exists only while the very Instance that owns it exists and carries the finalizer, also under deletion between read and create and stale reads |
| ProtocolSafety.ComputeWritesSurvive | internal/controller/instance_controller.go:919-928 | in every run the conditions of compute, and interface status with a published reference, are exactly compute's last write |
| ProtocolTeardown.RunKeepsFinal | internal/controller/instance_controller.go:115-121 | an incarnation that is being deleted stays so and uids are not reused |
| ProtocolTeardown.TeardownNeverGoesBack | internal/controller/instance_controller.go:115-121 | once deletion was read nothing is ever created for that incarnation, the number of its backing objects never grows and its finalizer is never taken again |
| ProtocolTeardown.QuietTeardown | internal/controller/instance_controller.go:170-206 | one teardown during which nobody writes the Instance leaves everything terminating, and releases the finalizer when nothing was left |
| ProtocolTeardown.TeardownCompletes | internal/controller/instance_controller.go:170-230 | two such teardowns with removal of terminating objects in between release the finalizer from every reachable state |
| ProtocolRecovery.RunKeepsRecovery | internal/controller/instance_recovery.go:56-131 | in every run only Pods bound to a host carry a boot ID, and a reconcile in flight agrees with the Pod that exists |
| ProtocolRecovery.RunsAreTraced | internal/controller/instance_recovery.go:56-131 | in every run a recorded boot ID was recorded from the report of the Pod's own host that was the latest when the Node was read |
| ProtocolRecovery.RecoveryHasCause | internal/controller/instance_recovery.go:59-83 | a Pod that recovery deletes is the judged incarnation, and its host reported another boot ID after the Node read from which the Pod's own was recorded, or it was stuck and past its grace period when it was judged |
| ProtocolRecovery.RecordedOnce | internal/controller/instance_recovery.go:107-119 | the recording of an incarnation, the Node read behind it and the report it comes from are unique |
| ProtocolRecovery.NoRebootNoDeletion | internal/controller/instance_recovery.go:85-123 | a Pod whose host reported no other boot ID since the Node read that was recorded is never up for deletion for a reboot, whatever was reported before |
| ProtocolRecovery.EveryDeletionTakesAReboot | internal/controller/instance_recovery.go:59-72 | recovery does not loop: when a later incarnation is up for deletion for a reboot too, its boot ID was read after the earlier one was, and another one was reported since |
| ProtocolRecovery.BootIdIsWrittenOnce | internal/controller/instance_recovery.go:107-119 | each Pod incarnation's boot ID is written at most once in every run |
| ProtocolRecovery.RecordedForGood | internal/controller/instance_recovery.go:107-119 | a recorded boot ID never changes while the Pod exists |
| ProtocolProgress.ReachableIsSound | internal/controller/instance_controller.go:101-159 | every reachable state is one of those that the laws of ProtocolProgress speak of |
| ProtocolProgress.OnlyWantedInstancesGetObjects | internal/controller/instance_controller.go:123-159 | in no run does anything get a Pod or a Service but an Instance read as live, sandboxed, ungated, not suspended and finalized |
| ProtocolProgress.SuspendedInstanceIsStopped | internal/controller/instance_controller.go:234-246 | one read and one undisturbed call leave the Pod of a suspended Instance absent or terminating, and its Service and versions unchanged |
| ProtocolProgress.OtherInstancesAreLeftAlone | internal/controller/instance_controller.go:123-139 | nothing is done about an Instance that is no sandbox, is gated or is released |
| ProtocolProgress.RebootIsRecovered | internal/controller/instance_recovery.go:59-72 | two undisturbed calls leave a Pod recorded under another boot ID than its host reports terminating or gone |
| ProtocolProgress.NoRebootIsNoRemoval | internal/controller/instance_recovery.go:89-123 | an unknown or silent host, or the recorded boot ID, is no reboot; a Pod without a boot ID gets the one reported and is otherwise unchanged |
| ProtocolProgress.AnotherIncarnationIsSpared | internal/controller/instance_recovery.go:125-131 | deletion by UID spares another incarnation that has taken the Pod's place, in any state whatever |
| ProtocolProgress.TerminatingPodIsNotJudged | internal/controller/instance_recovery.go:59-61 | a terminating Pod is left to terminate |
| ProtocolProgress.StuckPodIsRecovered | internal/controller/instance_recovery.go:73-82 | two undisturbed calls remove a Pod that is Pending with all containers stopped for two minutes, and any other is left alone |
| ProtocolProgress.PodIsBroughtUpToDate | internal/controller/instance_controller.go:263-353 | two undisturbed calls give an existing Pod the wanted annotations and leave somebody else's alone |
| ProtocolProgress.ServiceFollowsPorts | internal/controller/instance_controller.go:646-747 | after two undisturbed calls there is a Service exactly if the Instance has ports |
| ProtocolProgress.TakenNameEndsReconcile | internal/controller/instance_controller.go:351-353 | an object created under the name since it was looked up ends the reconcile untouched |
| ProtocolProgress.VanishedObjectEndsReconcileIff | internal/controller/instance_controller.go:351-353 | a Pod or Service that has gone since ends the reconcile exactly if there was anything to patch |
| ProtocolProgress.StatusIsReported | internal/controller/instance_controller.go:919-928 | the call leaves the current Instance saying what a sync with the Pod says, or writes nothing if the version is not the one read |
| ProtocolProgress.InstanceIsProgrammed | internal/controller/instance_controller.go:101-386 | one undisturbed reconcile of eight calls gives an Instance without a Pod its finalizer, a new Pod, a Service exactly if it has ports, and its status |
| Reconciler.Cluster.Reconcile | internal/controller/instance_controller.go:101-159 | every execution is a run of the protocol whose trace is the read and then, for every call, exactly what others did before it and the reconciler's own step; it gives up only where a call fails or the protocol ends |
| Reconciler.Cluster.HandleDeletion | internal/controller/instance_controller.go:170-206 | the teardown procedure takes the protocol's teardown steps |
| Reconciler.Cluster.DeletePod | internal/controller/instance_controller.go:179-182 | marks the Pod, and a missing Pod is no error |
| Reconciler.Cluster.DeleteService | internal/controller/instance_controller.go:184-187 | marks the Service, and a missing Service is no error |
| Reconciler.Cluster.RemoveFinalizer | internal/controller/instance_controller.go:200-203 | writes only on the version that was read |
| Reconciler.Cluster.AddFinalizer | internal/controller/instance_controller.go:151-156 | writes only on the version that was read, and goes on with the version it wrote |
| Reconciler.Cluster.BackingResourcesPending | internal/controller/instance_controller.go:210-230 | goes on only if both objects were found absent |
| Reconciler.Cluster.ReconcileSandbox | internal/controller/instance_controller.go:246-386 | Pod, recovery, Service and status in this order, as protocol steps |
| Reconciler.Cluster.CreateOrPatchPod | internal/controller/instance_controller.go:263-353 | creates the Pod or patches the one observed, and sends nothing without a difference |
| Reconciler.Cluster.CreatePod | internal/controller/instance_controller.go:332-349 | creates the Pod with a fresh uid and the mutated annotations, unless one exists |
| Reconciler.Cluster.PatchPod | internal/controller/instance_controller.go:280-350 | refuses a Pod owned by another Instance and sends only differences |
| Reconciler.Cluster.RecoverPod | internal/controller/instance_recovery.go:56-83 | goes on only with a Pod it left alone |
| Reconciler.Cluster.ReadNode | internal/controller/instance_recovery.go:89-123 | the host's boot ID against the recorded one |
| Reconciler.Cluster.RecordBoot | internal/controller/instance_recovery.go:110-119 | records the boot ID that was read on the Pod as it now is |
| Reconciler.Cluster.JudgeStuck | internal/controller/instance_recovery.go:73-82 | leaves the Pod alone unless it is stuck and its grace period is over |
| Reconciler.Cluster.DeleteJudged | internal/controller/instance_recovery.go:125-131 | deletes only the judged incarnation |
| Reconciler.Cluster.ReconcileService | internal/controller/instance_controller.go:646-747 | deletes, creates or patches the Service as protocol steps |
| Reconciler.Cluster.LookUpService | internal/controller/instance_controller.go:673-678 | what to do about the Service, by the ports and by what exists |
| Reconciler.Cluster.CreateService | internal/controller/instance_controller.go:708-738 | creates the Service for this incarnation, unless one exists |
| Reconciler.Cluster.PatchService | internal/controller/instance_controller.go:708-738 | fails only if there is something to patch and nothing to patch it on |
| Reconciler.Cluster.SyncStatus | internal/controller/instance_controller.go:378-383 | sends the status patch with its version; any other version refuses it |
| Reconciler.ReconcilesAreSafe | internal/controller/instance_controller.go:101-386 | what holds of all protocol runs, recovery included, holds of the cluster at every call of every reconcile |

## Left out

- Pipeline.RestartedProjectorBills: one event file without rotation, as the saved offset does not say which file it
  belongs to.
- JSON, MD5, regular expressions and RFC 3339 text: events arrive decoded, and a record's key is its (uuid, start, end).
- Saturation of Go durations beyond 292 years, and quantities beyond 64 bits before they reach the rounding.
- Bytes of a failed append that reached the file before `Sync` failed.
- Wrap-around of 64-bit file offsets.
- Growth of the event file between two reads of one poll is the same as growth before the poll, and is not a step of its own.
- Logs, statistics other than the counters of the processor, and the attribution failure log.
- The informer caches of Pods, Services and Nodes: their reads are current in the protocol.
- Requeue delays, watches and event predicates of the controller runtime: reconciles happen at any time.
- Labels, the Pod spec other than its resources, Service ports, owner reference text and DNS settings: field copies.
- The text of condition messages: messages are values that hold what is formatted into them.
- The InstanceType reader, the namespace index, runtime class selection, configuration loading and manager setup.
