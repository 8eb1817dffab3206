# OPUS GreenNet: a verified model

The OPUS GreenNet integration of Home Assistant talks to a gateway that owns one EnOcean radio.
Everything an installation does goes through one connection: a stream of documents that report what
devices do, one radio request at a time towards the devices, and a memory of what is known, assumed
and still unconfirmed. This project models that connection and proves what it guarantees in every
order in which answers, timers, reports, cancellations and outages can come.

The parts, and the files they are in:

* **The event stream.** `DocumentSplitter.dfy` is the splitter that cuts the stream into documents,
  as a class over its buffers; `SplitterProperties.dfy` gives its meaning: a grammar of documents,
  independence of how the text is cut into chunks, and an account of every character.
  `StreamReader.dfy` is the reader's loop with its pauses, among the readers that replace each other.
* **The radio slot.** `PriorityLock.dfy` is the cancellable priority lock, `LockRuns.dfy` all that
  the calls waiting for it can do, and `RadioRequests.dfy` the outage and device generations that
  decide whether a queued request may still be sent. `EventLoop.dfy` adds the order in which the
  event loop resumes calls.
* **Confirmed settings.** `SettingsTraffic.dfy` runs settings reads and writes of all devices over
  the slot in every interleaving; `RepeaterOverlap.dfy` is the run that shows the one exception, and
  `SettingVersions.dfy` says what all this means for the values that are shown.
  `SettingGuards.dfy`, `GuardRuns.dfy` and `GuardStorage.dfy` are the protection of confirmed values
  against the gateway's cached copy, over runs and over restarts. `SettingConflicts.dfy` and
  `SettingGrid.dfy` are the refusal of writes that make a combination worse and the grid a number is
  put on; `SettingWrites.dfy` joins them to one write from the entry of a number to its guard.
* **Commands and feedback.** `Protocol.dfy` says which fields a report confirms and a command waits
  for, `CommandTracking.dfy` keeps the book of pending fields and delayed status checks,
  `CommandRuns.dfy` says what it holds after any run, and `StatusChecks.dfy` which checks are sent.
  `CoverTravel.dfy` and `CoverRuns.dfy` are the travel estimates of covers.
* **Devices.** `Devices.dfy` is what a telegram makes of a device, `DeviceRuns.dfy` what telegrams,
  lists and estimates keep, and `Confirmation.dfy` ties reports, confirmations and estimates
  together. `DeviceLists.dfy` is what a device object carries and `DeviceMetadata.dfy` what a list may
  replace.
* **Request bodies.** `JsonBody.dfy` is the bounded check of a JSON body.

`Options.dfy`, `Values.dfy` and `Addresses.dfy` hold what several of them share.

Objects with state are classes whose methods are proved against functions on their state; the runs
are sequences of steps of those functions, so that a statement about a run is a statement about the
methods. Times are real numbers. The answers of the gateway, the order of events, the text-to-number
conversion of Python and random shares are parameters, and every statement holds for all of them.

## What the proofs found

The code keeps its promises except at these points. Each comes with an input or a run that shows it,
or with what follows in every run it occurs in, and with the exact condition:

* A release that pops the entry of a call which is cancelled but not yet resumed makes that call end
  with `ValueError` instead of its cancellation. The lock itself stays sound
  (`LockRuns.CancelledThenReleased`, `LockRuns.CancelledCallEnds`, `LockRuns.PoppedBy`).
* Which documents are delivered before an error depends on how the stream was cut: a refused chunk
  takes the documents it completed with it (`SplitterProperties.DeliveredOrLost`,
  `SplitterProperties.ChunkingShowsOnAnError`).
* A settings read can be adopted while a repeater write of the same device is reading back, because
  the end of that PUT is not counted. Normally the second request of the read queues behind the
  read-back and the read is dropped; if an outage begins during its first answer, that request is
  refused at once, the error is swallowed (`custom_components/opus_greennet/coordinator.py:2517-2521`)
  and the first answer is adopted. The repeater mode itself is then not among what is adopted, so
  that what is shown is what the device holds even here
  (`RepeaterOverlap.ARepeaterWriteCanBeOverlapped`, `SettingsTraffic.FirstAnswerIsAdoptedExactlyIf`,
  `SettingsTraffic.AdoptedReadsOverlapNoWrite`, `SettingVersions.AdoptedReadIsCurrent`).
* An old value can come back if one list names the setting twice: the first entry ends the guard, and
  the second passes (`GuardRuns.AnOldValueCanComeBack`, `GuardRuns.OldValuesAreDropped`). A fifth
  different old value is not kept (`GuardRuns.AFifthOldValueIsGivenUp`,
  `GuardRuns.ConfirmProtectsTheOlderValues`). With its tolerance `_same_setting` is no equivalence
  (`GuardRuns.SameIsNotTransitive`).
* A pending angle can be left without any status check. A position command stops the checks of its
  channel, and none are scheduled again if it is deferred, if it fails by timeout or otherwise (but not
  by a rejection) after its movement was cleared, or if the position is reported before its
  acknowledgement
  (`CommandRuns.ADeferredCommandLeavesNoChecks`, `CommandRuns.AFieldCanStayWithoutChecks`; exactly when
  in `CommandRuns.UnaskedIsExplained` and `CommandRuns.UnfinishedCommandsLeaveNoChecks`).
* A timer that fires while the check of its channel is in flight starts no other, then or later. The
  comment at `custom_components/opus_greennet/coordinator.py:1849-1850` says the opposite; the test at
  line 1831 decides (`StatusChecks.TimerDuringACheckIsNotServed`).
* A reference run to the top of a cover that is at the top shows opening while the cover closes
  (`CoverTravel.AClosingCoverCanShowOpening`, `CoverTravel.DirectionIsShownRightExactlyIf`).
* A refreshed device list is no state, but a battery level in it raises the revision of its channel
  and so drops the estimate of a command that awaits its acknowledgement
  (`DeviceRuns.ABatteryLevelEndsAnEstimate`, `DeviceRuns.RefreshChangesNothingLive`). A position
  command on a channel not seen before drops its own (`DeviceRuns.AnUnseenCoverShowsNoEstimate`,
  `DeviceRuns.EstimateAppliesExactlyIfUntouched`).
* A value stored within half a step of the written one counts as confirmed and can create a
  combination of settings that no write may create
  (`SettingConflicts.AConfirmedWriteCanCreateAConflict`). That is excluded exactly if the combinations
  have room for the half step, which can be told before the write
  (`SettingConflicts.RoundingIsHarmlessExactlyIf`).
* A scalar inside sixteen nested containers counts as a seventeenth level
  (`JsonBody.ScalarCountsAtTheBoundary`).

One function has a limit that none of its uses meets: a minimum with more decimals than its step is
never put on its grid (`SettingGrid.SnapsToTheGridExactlyIf`, `SettingGrid.AFineMinimumIsLost`), and
every number the integration offers has a minimum without (`SettingWrites.CatalogueIsOnItsGrid`).

## Model

| member | source | states |
|---|---|---|
| DocumentSplitter.JsonDocumentSplitter.Take | custom_components/opus_greennet/api.py:318-354 | one character moves the splitter as the scanner does, in every state, and hands out a document exactly when its last bracket closes |
| DocumentSplitter.JsonDocumentSplitter.Feed | custom_components/opus_greennet/api.py:313-361 | feeding a chunk returns the documents of a scan of it and leaves the state of that scan; a refused chunk returns none and leaves exactly the state of the character that refused it, or the open document that is too long |
| DocumentSplitter.JsonDocumentSplitter.Finish | custom_components/opus_greennet/api.py:301-311 | the stream may end exactly if no document is open and the tail is blank |
| SplitterProperties.ChunksAreTheText | custom_components/opus_greennet/api.py:313-361 | scanning chunks one after the other gives the documents and the state of scanning the whole text, or the same failure |
| SplitterProperties.ChunkingIsIrrelevant | custom_components/opus_greennet/api.py:313-361 | two ways to cut the same text give the same documents in order and the same final state, and one fails exactly if the other does, in the same way |
| SplitterProperties.DeliveredOrLost | custom_components/opus_greennet/api.py:313-361 | every document completed before an error is either handed on or lost with the chunk that holds the error; without an error none is lost |
| SplitterProperties.ChunkingShowsOnAnError | custom_components/opus_greennet/api.py:313-361 | a text with an error whose chunkings deliver different documents |
| SplitterProperties.ReadStream | custom_components/opus_greennet/api.py:685-690 | the loop over the chunks of a response yields, in order, the objects among the documents of the whole text up to the first that is no JSON, and ends well exactly if every document is JSON and the text ends between two documents |
| SplitterProperties.DocumentsComeOut | custom_components/opus_greennet/api.py:282-361 | round trip: documents of the grammar joined by any white space come out exactly, in order, and the splitter is idle after them |
| SplitterProperties.NothingIsLost | custom_components/opus_greennet/api.py:282-361 | conservation: skipped white space, emitted documents and the buffered remainder rebuild the text |
| SplitterProperties.DocumentsAreTheGrammar | custom_components/opus_greennet/api.py:313-361 | a text is emitted as one document exactly if it is a bracketed group of the grammar and within the bound |
| PriorityLocks.PriorityLock.Acquire | custom_components/opus_greennet/api.py:381-389 | a call takes a free lock with no queue, and otherwise queues with its priority and the next number |
| PriorityLocks.PriorityLock.Interrupted | custom_components/opus_greennet/api.py:390-399 | a cancelled call passes a lock that was handed to it on, removes its entry, or ends with the error of removing what is not there |
| PriorityLocks.PriorityLock.Release | custom_components/opus_greennet/api.py:401-408 | the loop hands the lock to the least waiting call or frees it |
| PriorityLocks.ReleaseServesTheLeast | custom_components/opus_greennet/api.py:401-408 | what the popping loop does: the least entry of a call that still waits gets the lock and exactly the entries before it leave; with no such call the queue is empty and the lock free |
| LockRuns.StepKeepsInv | custom_components/opus_greennet/api.py:364-408 | every step of every call keeps: at most one owner, the lock is held exactly while there is one, and a free lock has no queue |
| LockRuns.NobodyIsStranded | custom_components/opus_greennet/api.py:381-408 | in every run, while a call waits somebody else owns the lock |
| LockRuns.HandoverGoesToTheLeast | custom_components/opus_greennet/api.py:401-408 | each handover goes to the least by priority and arrival among those waiting and not cancelled |
| LockRuns.RunMovesOn | custom_components/opus_greennet/api.py:381-408 | over every run entries leave the queue once and for all, numbers are given out once, and a future that is done stays as it is |
| LockRuns.NobodyOvertakes | custom_components/opus_greennet/api.py:381-408 | over every run, while a call waits uncancelled nobody behind it by priority and arrival is served |
| LockRuns.HandoverMakesProgress | custom_components/opus_greennet/api.py:401-408 | each handover brings a waiting call nearer: fewer calls are ahead of it |
| LockRuns.CancelledCallEnds | custom_components/opus_greennet/api.py:390-399 | a call cancelled while it waited ends as cancelled if its entry is still queued when it resumes and with `ValueError` exactly if not |
| LockRuns.PoppedBy | custom_components/opus_greennet/api.py:401-408 | the entry of a cancelled call is popped exactly by a handover that passes over it |
| LockRuns.CancelledThenReleased | custom_components/opus_greennet/api.py:390-408 | a waiter cancelled just before the owner releases ends with `ValueError`, unless an earlier waiter is there to be served |
| RadioRequests.RequestGate.CheckRequestValid | custom_components/opus_greennet/coordinator.py:1888-1895 | the refusal of a request by unload, device generation, availability and outage generation |
| RadioRequests.RequestGate.SetGatewayAvailable | custom_components/opus_greennet/coordinator.py:727-735 | losing the gateway raises the outage generation, once per outage |
| RadioRequests.RequestGate.AsyncUnload | custom_components/opus_greennet/coordinator.py:669-673 | unloading is noted for good and is an outage |
| RadioRequests.RequestGate.ForgetDevice | custom_components/opus_greennet/coordinator.py:1290-1293 | forgetting a device raises its generation |
| RadioRequests.OneRequestInFlight | custom_components/opus_greennet/coordinator.py:2030-2092 | in every run at most one request is in flight |
| RadioRequests.ValidMeansUndisturbed | custom_components/opus_greennet/coordinator.py:1888-1899 | a request valid when queued is valid at its turn exactly if no outage began, its device was not forgotten and nothing was unloaded, even when the gateway came back |
| RadioRequests.RequestKeepsItsGeneration | custom_components/opus_greennet/coordinator.py:2030-2033 | what a request was queued with stays its own in every run |
| RadioRequests.SentExactlyIfUndisturbed | custom_components/opus_greennet/coordinator.py:2030-2053 | a queued request is sent at its turn exactly if it is still wanted and nothing disturbed it since it was queued |
| EventLoop.NewcomerIsLast | custom_components/opus_greennet/api.py:381-389 | a request that enters the queue comes after every open one of no lower urgency |
| EventLoop.HeadIsNotPreceded | custom_components/opus_greennet/api.py:401-408 | what runs next is preceded by nothing |
| EventLoop.WakingKeepsOrder | custom_components/opus_greennet/api.py:389-408 | a call that is resumed leaves the order of the others |
| SettingsTraffic.DoKeepsInv | custom_components/opus_greennet/coordinator.py:2469-2554 | every step of any reads and writes keeps operations and the radio queue in agreement |
| SettingsTraffic.DoKeepsOrder | custom_components/opus_greennet/coordinator.py:2485-2554 | every step keeps: a write that a still adoptable read overlaps gets its next turn before the read |
| SettingsTraffic.AdoptionOverlapsNothing | custom_components/opus_greennet/coordinator.py:2517-2554 | at the step that adopts a read no write of the device is open, save for a repeater write reading back; then it is the first answer that ends the read, which asks for no second one or is refused it at once |
| SettingsTraffic.FirstAnswerIsAdoptedExactlyIf | custom_components/opus_greennet/coordinator.py:2505-2527 | the first answer of a clean read, at its turn, is adopted exactly if the read makes no second request or that one is refused at once |
| SettingsTraffic.OpenOrCounted | custom_components/opus_greennet/coordinator.py:2776-2817 | after any step a write that a clean read overlaps is still open, or the read is unclean |
| SettingsTraffic.UncleanIsNeverAdopted | custom_components/opus_greennet/coordinator.py:2517-2527 | over every run, a read that a counted write or a forgotten device made unclean is never adopted |
| SettingsTraffic.AdoptedReadsOverlapNoWrite | custom_components/opus_greennet/coordinator.py:2469-2554 | over every interleaving, an adopted settings read overlapped no configuration write of its device at any moment, save for a repeater write; then the repeater mode is not among what is adopted, and a read that asks for it was refused its second request |
| RepeaterOverlap.ARepeaterWriteCanBeOverlapped | custom_components/opus_greennet/coordinator.py:2505-2527 | the run in which an outage begins during the first answer of a read, its second request is refused, and it is adopted while a repeater write is open |
| SettingVersions.HappensKeepsInv | custom_components/opus_greennet/coordinator.py:2469-2554 | every step of reads, writes and devices keeps: an answer that may still be adopted tells what the device holds or a write of it is open, and a read-back tells nothing older than what is shown |
| SettingVersions.ShownNeverGoesBack | custom_components/opus_greennet/coordinator.py:2469-2554 | over every interleaving, and whenever devices take what is written: what is shown of a device never goes back to an older version, so that a confirmed value is never replaced by an older answer |
| SettingVersions.AdoptedReadIsCurrent | custom_components/opus_greennet/coordinator.py:2517-2554 | an adopted read shows what the device holds at that moment, parameters and repeater mode each, also beside a repeater write |
| SettingGuards.GuardBook.GuardConfirmedSetting | custom_components/opus_greennet/coordinator.py:2590-2624 | a confirmed write replaces the guard of the setting by its different older values, at most four, or removes it |
| SettingGuards.GuardBook.WithoutStaleSettings | custom_components/opus_greennet/coordinator.py:2626-2669 | the loop over a list drops exactly what the guards then in force protect against, and releases guards as the list goes on |
| SettingGuards.GuardBook.ReleaseRead | custom_components/opus_greennet/coordinator.py:2543-2553 | a read of the settings releases the guards of what it read |
| SettingGuards.GuardBook.ForgetDevice | custom_components/opus_greennet/coordinator.py:1280-1281 | forgetting a device removes its guards |
| GuardRuns.EventsKeepSound | custom_components/opus_greennet/coordinator.py:2590-2669 | over every run each guard has one to four pairwise different stale values, none of them the written one |
| GuardRuns.ConfirmProtectsTheOlderValues | custom_components/opus_greennet/coordinator.py:2590-2624 | after a confirmed write every older value is the written one or protected against, exactly if at most four of them differ |
| GuardRuns.AFifthOldValueIsGivenUp | custom_components/opus_greennet/coordinator.py:2590-2624 | a guard with four older values and a fifth shown: the guard after the write holds four, and the fifth is in none |
| GuardRuns.ShownValueIsKeptOut | custom_components/opus_greennet/coordinator.py:2590-2624 | the value shown before a confirmed write is kept out for the time of the guard, unless it is the same as the written one |
| GuardRuns.WritingBackReleases | custom_components/opus_greennet/coordinator.py:2590-2624 | a write leaves the setting without a guard exactly if no older value differs from it |
| GuardRuns.GuardEndsOnlyByItsReasons | custom_components/opus_greennet/coordinator.py:2590-2669 | any event but a later write of the same setting ends a guard exactly by expiry, a list showing the written or a third value, a read of the setting or forgetting the device, and otherwise leaves it as it is |
| GuardRuns.OldValuesAreDropped | custom_components/opus_greennet/coordinator.py:2626-2669 | a list brings no stale value of a running guard exactly if no earlier entry of the same list ended the guard |
| GuardRuns.AnOldValueCanComeBack | custom_components/opus_greennet/coordinator.py:2643-2669 | a list that names a setting twice for the same channel and brings the old value back |
| GuardRuns.ProtectedUntilRemoved | custom_components/opus_greennet/coordinator.py:2590-2669 | over every run, while a guard is not removed by one of its reasons it is the same guard |
| GuardRuns.SameIsNotTransitive | custom_components/opus_greennet/coordinator.py:390-401 | three values of which neighbours are the same setting and the ends are not |
| GuardStorage.GuardsFromStorage | custom_components/opus_greennet/coordinator.py:338-379 | restoring keeps exactly the well-formed entries that still run, whatever else the data holds |
| GuardStorage.AnyDataYieldsUsableGuards | custom_components/opus_greennet/coordinator.py:338-379 | no data yields an empty, over-long or over-age guard, nor one from the future |
| GuardStorage.SavedGuardsComeBack | custom_components/opus_greennet/coordinator.py:312-379 | round trip: saving and restoring keeps each guard that still runs, its age grown by the wall time that passed and by nothing if the clock went back, and drops exactly the expired ones |
| GuardStorage.RestartKeepsSound | custom_components/opus_greennet/coordinator.py:312-379 | guards that are sound before a restart are sound after it |
| Protocol.ConfirmedFieldsByChannel | custom_components/opus_greennet/protocol.py:519-555 | the fields a report confirms per channel are exactly those it reports with a usable value under a readable selector |
| Protocol.CommandFieldsByChannel | custom_components/opus_greennet/protocol.py:558-579 | a command waits for what a report of it would confirm, and a stop for the final position and angle of its channel |
| CommandTracking.CommandTracker.CancelQueries | custom_components/opus_greennet/coordinator.py:1771-1792 | a device or one channel of it loses its pending fields, timers and wanted check, and nothing else does |
| CommandTracking.CommandTracker.ScheduleQueries | custom_components/opus_greennet/coordinator.py:1794-1840 | earlier pending fields are kept, and the channel has two checks after 5 and 20 s, or 10 and 20 s after the end of its movement |
| CommandTracking.ChecksFollowTheMovement | custom_components/opus_greennet/coordinator.py:1809-1812 | a check that asks for a position is never due before ten seconds after the movement has ended, however late it is scheduled; without a movement the checks come after 5 and 20 s |
| CommandTracking.CommandTracker.Suspend | custom_components/opus_greennet/coordinator.py:1540-1546 | a new movement stops the checks of its channel but keeps its pending fields |
| CommandTracking.CommandTracker.RecordConfirmedFeedback | custom_components/opus_greennet/coordinator.py:1630-1664 | each reported field counts once and is pending no more; a channel with nothing pending loses its checks |
| CommandTracking.CommandTracker.CancelBackgroundWork | custom_components/opus_greennet/coordinator.py:745-751 | an outage clears everything but the counts of reports |
| CommandTracking.CommandTracker.ForgetDevice | custom_components/opus_greennet/coordinator.py:1286-1289 | a forgotten device loses its pending fields, checks and counts of reports |
| CommandTracking.CommandTracker.SnapshotFeedback | custom_components/opus_greennet/coordinator.py:2137-2145 | the counts of the commanded fields at the moment of sending |
| CommandTracking.CommandTracker.Acknowledged | custom_components/opus_greennet/coordinator.py:2205-2217 | on every channel the fields whose count did not change become pending with new checks; the other channels are as before |
| CommandRuns.PendingMoves | custom_components/opus_greennet/coordinator.py:1630-1812 | one event keeps the pending fields within the entries for checks and nonempty, and a field is pending after it exactly if it begins to be or was and is not ended |
| CommandRuns.PendingIsExplained | custom_components/opus_greennet/coordinator.py:1630-1812 | over every run a field is pending exactly if it was scheduled and since then not reported, cancelled, forgotten or lost to an outage |
| CommandRuns.CountsTellReports | custom_components/opus_greennet/coordinator.py:1639-1641 | while a device is not forgotten, a field was reported in a run exactly if its count rose |
| CommandRuns.AcknowledgedCommandIsTracked | custom_components/opus_greennet/coordinator.py:2124-2217 | when a command returns as sent, a field is pending exactly if it was pending anyway or is commanded and not reported since the moment of sending, whatever was reported before; then its channel has two checks ahead |
| CommandRuns.UnaskedIsExplained | custom_components/opus_greennet/coordinator.py:1540-1546 | over every run a channel has pending fields nothing will ask for exactly if it had at the start or a movement stopped its checks while something was pending, and since then none were scheduled and something stayed pending |
| CommandRuns.UnfinishedCommandsLeaveNoChecks | custom_components/opus_greennet/coordinator.py:2186-2228 | a command that is deferred, rejected or fails otherwise leaves the channel so exactly if the checks it stopped were stopped to the end, unless it was rejected or failed with its movement still registered |
| CommandRuns.ADeferredCommandLeavesNoChecks | custom_components/opus_greennet/coordinator.py:2186-2199 | the run of a deferred position command that leaves a pending angle without checks, with no report at all |
| CommandRuns.AFieldCanStayWithoutChecks | custom_components/opus_greennet/coordinator.py:2205-2217 | the run of an acknowledged command that leaves a pending angle without checks because the position was reported before the acknowledgement |
| StatusChecks.StatusChecker.QueryCallback | custom_components/opus_greennet/coordinator.py:1815-1836 | a timer notes its wish and starts a check exactly if the gateway is available, the device known and no check of the channel under way |
| StatusChecks.StatusChecker.StillNeeded | custom_components/opus_greennet/coordinator.py:1848-1854 | a check is sent exactly if still wanted, and the question consumes the wish |
| StatusChecks.OneCheckPerChannel | custom_components/opus_greennet/coordinator.py:1815-1870 | in every run there is at most one check per channel, queued or in flight |
| StatusChecks.SentExactlyIfAskedFor | custom_components/opus_greennet/coordinator.py:1848-1854 | in every run a check at its turn is sent exactly if a timer asked for it and nothing superseded it since |
| StatusChecks.QueuedCheckServesTheTimer | custom_components/opus_greennet/coordinator.py:1830-1836 | a timer that fires while the check of its channel is queued starts no other and is served by that check |
| StatusChecks.TimerDuringACheckIsNotServed | custom_components/opus_greennet/coordinator.py:1831-1854 | a timer that fires while the check is in flight starts none, and until another timer fires no other check of the channel exists in any run |
| CoverTravel.PositionLiesBetween | custom_components/opus_greennet/coordinator.py:1514-1520 | the assumed position is between start and target and within 0..100 at every moment, begins at the start and ends at the target |
| CoverTravel.TravelIsBounded | custom_components/opus_greennet/coordinator.py:1525-1536 | the travel is at most the full run, or twice that with a reference run, and zero exactly if there is no way to go |
| CoverTravel.StartIsBounded | custom_components/opus_greennet/coordinator.py:1496-1566 | a command starts a movement exactly if the travel time is known and there is a way to go, from where the cover is assumed to be; a repeated target changes nothing but the revision |
| CoverTravel.DirectionIsShownRightExactlyIf | custom_components/opus_greennet/coordinator.py:1547-1552 | the direction shown is the way the cover goes first exactly if it is no reference run to the top of a cover that is at the top |
| CoverTravel.AClosingCoverCanShowOpening | custom_components/opus_greennet/coordinator.py:1547-1552 | the run at the top, first to the top, then down to the middle, which shows opening |
| CoverTravel.CoverEstimates.StartMovement | custom_components/opus_greennet/coordinator.py:1496-1566 | the registered movement, direction and revision of the channel become those of the start; other channels are as before |
| CoverTravel.CoverEstimates.FinishMovement | custom_components/opus_greennet/coordinator.py:1567-1587 | the end of the registered movement adopts its target if accepted, and otherwise notes that its time is over |
| CoverTravel.CoverEstimates.Acknowledged | custom_components/opus_greennet/coordinator.py:2218-2221 | acknowledging the registered movement accepts it, and finishes it if its time is over |
| CoverTravel.CoverEstimates.FailedOrDeferred | custom_components/opus_greennet/coordinator.py:2194-2197 | a deferred or failed command removes its own movement and no other |
| CoverRuns.MovementKeepsItsDeadline | custom_components/opus_greennet/coordinator.py:1505-1513 | over every run a movement keeps its start, target and deadline while registered, and never returns once it is not |
| CoverRuns.TargetIsAdoptedAtMostOnce | custom_components/opus_greennet/coordinator.py:1567-1587 | over every run a target is adopted at most once, only from the registered movement, after its travel and grace, and accepted |
| CoverRuns.PositionChangesByItsReasons | custom_components/opus_greennet/coordinator.py:1567-1587 | in every run only a report, an estimate on an unchanged channel or the end of the registered movement changes the position |
| CoverRuns.OwnTargetWaitsForItsAcknowledgement | custom_components/opus_greennet/coordinator.py:2134-2136 | in every run a target whose command is on its way is not adopted before the acknowledgement, however often it is repeated |
| CoverRuns.MovementBeatsTheEstimate | custom_components/opus_greennet/coordinator.py:1509-1555 | after a movement started or was repeated no estimate from before it is ever applied |
| Devices.Device.UpdateFromTelegram | custom_components/opus_greennet/enocean_device.py:1002-1332 | the loop over the functions of a telegram gives, per channel, what its functions make of it in order, after clearing button occurrences; every key the device understands is one of its cases |
| Devices.Device.ClearButtonOccurrence | custom_components/opus_greennet/enocean_device.py:992-1000 | every channel loses its button occurrence and nothing else |
| Devices.Device.ApplyEstimate | custom_components/opus_greennet/enocean_device.py:735-811 | an estimate is applied exactly if presence and revision of its channel are those of the snapshot, to that channel only |
| DeviceRuns.RangesHold | custom_components/opus_greennet/enocean_device.py:1002-1332 | over every sequence of telegrams, and whatever profiles the device is given meanwhile, every field of every channel is unknown or in its range, settings and profile readings included; an illumination above the range is shown as a maximum |
| DeviceRuns.ChannelIsIsolated | custom_components/opus_greennet/enocean_device.py:1013-1033 | what a telegram makes of a channel depends on the functions that name it alone, in their order |
| DeviceRuns.TelegramChangesOnlyWhatItNames | custom_components/opus_greennet/enocean_device.py:992-1038 | a channel no function names keeps everything but its button occurrence |
| DeviceRuns.MalformedFunctionsChangeNothing | custom_components/opus_greennet/enocean_device.py:1013-1033 | functions with a malformed selector can be left out of a telegram without any effect |
| DeviceRuns.LiveChangesRaiseTheRevision | custom_components/opus_greennet/enocean_device.py:1035-1038 | no telegram changes anything a device reports of itself without raising the revision, which counts exactly the functions that are no settings |
| DeviceRuns.EstimateAppliesExactlyIfUntouched | custom_components/opus_greennet/enocean_device.py:735-749 | over every run an estimate may be applied exactly if no report and no movement touched its channel since the snapshot; a channel that was not there must not have been created, not even by a movement that did not start |
| DeviceRuns.AnUnseenCoverShowsNoEstimate | custom_components/opus_greennet/coordinator.py:1496-1503 | a position command on a channel not seen before opens the channel and so drops its own estimate |
| DeviceRuns.RefreshChangesNothingLive | custom_components/opus_greennet/coordinator.py:1181-1190 | a list that is no state changes nothing live on a known device, whatever it holds, and raises a revision exactly by a battery level |
| DeviceRuns.ABatteryLevelEndsAnEstimate | custom_components/opus_greennet/coordinator.py:1181-1190 | a listed battery level makes the snapshot of a command on that channel stale |
| Confirmation.ConfirmedExactlyIfTaken | custom_components/opus_greennet/protocol.py:519-555 | a report confirms a field exactly if it sets it to what it says, but for what a heater reports in between, and only its own key, or a dim value for the switch, changes it |
| Confirmation.EstimateIsTheReportExpected | custom_components/opus_greennet/enocean_device.py:758-811 | an estimate assumes exactly the live values a report of the commanded value would show |
| DeviceLists.ConfigurationStateFunctions | custom_components/opus_greennet/protocol.py:191-213 | each setting with a value in a parameter list yields its function under the channel in force at its place, or its own, in order |
| DeviceLists.DeviceStateFunctions | custom_components/opus_greennet/protocol.py:398-456 | the first of the two places with any complete entry counts, without buttons, followed by the transmit modes of smoke detectors with the keys of their slots, repeater mode, battery, unlock answer and settings |
| DeviceLists.SettingsKnowTheirChannel | custom_components/opus_greennet/protocol.py:201-213 | each listed setting goes to its own channel or the one in force at its place, and the settings part of a list has the same effect whatever the state beside it selects |
| DeviceLists.AListPressesNoButton | custom_components/opus_greennet/protocol.py:398-428 | no list ever leaves a button occurrence on any channel, whatever the device object holds |
| DeviceMetadata.DeviceRecord.ApplyListedMetadata | custom_components/opus_greennet/enocean_device.py:334-375 | what a list replaces, field by field, and what it keeps: names, versions, link tables, profiles, management state, settings and signal |
| DeviceMetadata.NewerTelegramWins | custom_components/opus_greennet/coordinator.py:1166-1172 | over every run, lists requested before a telegram never replace the signal strength or last-seen time it brought |
| DeviceMetadata.NothingIsForgotten | custom_components/opus_greennet/enocean_device.py:346-386 | over every run of lists the age of the settings never moves back and known settings, product, versions, link tables and state are never cleared |
| SettingConflicts.CheckConstraint | custom_components/opus_greennet/enocean_device.py:435-450 | a combination is reported exactly if it is wrong, or if the write would create or worsen it |
| SettingConflicts.FindConflicts | custom_components/opus_greennet/enocean_device.py:423-450 | the names returned are exactly those of the offended combinations, and none is returned exactly if the write keeps all five |
| SettingConflicts.WritesAreReports | custom_components/opus_greennet/coordinator.py:2763-2768 | the value adopted after a write is the one its report leaves on the channel |
| SettingConflicts.WritesNeverWorsen | custom_components/opus_greennet/coordinator.py:2751-2768 | over every sequence of accepted writes that read back as written no combination becomes wrong or more wrong, all five together |
| SettingConflicts.RoundingIsHarmlessExactlyIf | custom_components/opus_greennet/coordinator.py:2689-2696 | before a write is sent: whatever the device stores within a margin of the written value and within range, all five combinations are kept, exactly if each combination of the setting has room for the unfavourable end of that margin |
| SettingConflicts.AConfirmedWriteCanCreateAConflict | custom_components/opus_greennet/coordinator.py:2689-2696 | a confirmed write whose stored value creates a wrong combination |
| SettingGrid.SnapsToTheGridExactlyIf | custom_components/opus_greennet/coordinator.py:260-276 | a value is put on the grid exactly if the minimum has no more decimals than the step |
| SettingGrid.SnapIsNearAndStays | custom_components/opus_greennet/coordinator.py:260-276 | then the result is within half a step, and a value on the grid is left as it is |
| SettingGrid.SnapStaysInRange | custom_components/opus_greennet/coordinator.py:260-276 | a value between a minimum and a maximum on the grid is written within them |
| SettingGrid.AFineMinimumIsLost | custom_components/opus_greennet/coordinator.py:272-276 | a limit of the function, met by no setting: whole steps from 0.2 would write the lowest value as zero |
| SettingWrites.CatalogueIsOnItsGrid | custom_components/opus_greennet/number.py:118-257 | every number that is offered has a minimum with the decimals of its step and a range within the one the device is read with |
| SettingWrites.WrittenValueIsRight | custom_components/opus_greennet/number.py:391-400 | for each of them a value in range is written on its grid, within half a step, in range, and stays the same when written again |
| SettingWrites.SettingWriter.SetDeviceParameter | custom_components/opus_greennet/coordinator.py:2671-2771 | one write from end to end: denied exactly without write access, device or listed setting, refused exactly if the snapped value makes a combination worse, unanswered without a read-back, confirmed exactly within half a step; the value read back is adopted and guarded in both of the last cases and nothing changes in the others |
| SettingWrites.ConfirmedWriteIsRight | custom_components/opus_greennet/coordinator.py:2671-2771 | a confirmed number of the catalogue is shown as stored, within a step of the request; the value shown before is kept out; and with room for half a step no combination is worse |
| StreamReader.StreamReaders.ReplaceStream | custom_components/opus_greennet/coordinator.py:777-783 | a restart cancels the reader, shows the stream as closed and starts the next generation, unless unloaded or rejected |
| StreamReader.StreamReaders.ReadStream | custom_components/opus_greennet/coordinator.py:814-834 | one stream does what the reader does resumed by each document in turn, with anything happening in between: documents are applied and availability set until it is replaced |
| StreamReader.StreamReaders.RunStream | custom_components/opus_greennet/coordinator.py:791-875 | the whole loop does what the reader does over all its attempts: streams, ends, rejections, pauses and failures, with anything happening while it waits |
| StreamReader.ReaderThatIsOverEnds | custom_components/opus_greennet/coordinator.py:820-869 | a reader that was replaced, cancelled or unloaded ends wherever it is resumed, and changes neither availability nor anything else |
| StreamReader.ReplacedReaderIsSilent | custom_components/opus_greennet/coordinator.py:777-875 | over every run, whatever the other readers do, a reader that is over applies nothing and pauses no more, and ends at its next resumption |
| StreamReader.OnlyTheCurrentReaderActs | custom_components/opus_greennet/coordinator.py:791-875 | over every run, all that readers do is done by the generation current just then, so that what they apply follows the order of the generations |
| StreamReader.TheLoopIsThatReader | custom_components/opus_greennet/coordinator.py:791-875 | the loop of one reader and that reader among all the others do the same, with the same end |
| StreamReader.ReaderPauses | custom_components/opus_greennet/coordinator.py:860-875 | the reader pauses once for each attempt it outlives, by the failures since the last healthy one |
| StreamReader.PauseIsBounded | custom_components/opus_greennet/coordinator.py:219-234 | a pause is between its nominal length and a quarter more, and between 1 and 75 s |
| StreamReader.UnhealthyAttemptsPause | custom_components/opus_greennet/coordinator.py:860-875 | n unhealthy attempts in a row pause for at least 2^n - 1 s up to six and 63 + 60 (n - 6) s beyond, however the reader got there |
| StreamReader.FreshAttemptsPauseExactly | custom_components/opus_greennet/coordinator.py:860-875 | from the start and without random shares they pause for exactly that |
| JsonBody.NestingDepthIs | custom_components/opus_greennet/wire.py:92-102 | the bounded count is the nesting while every node fits the bound, and one more than the bound otherwise |
| JsonBody.AcceptedExactlyIf | custom_components/opus_greennet/wire.py:50-102 | a tree of any depth and width passes exactly if every node can be encoded and lies within sixteen levels and the encoded whole is within 64 KiB; a refusal names what is wrong |
| JsonBody.ScalarCountsAtTheBoundary | custom_components/opus_greennet/wire.py:92-102 | sixteen nested lists pass if the innermost is empty and not if it holds a scalar |

## Left out

- HTTP, TLS, login, certificate pinning, redirects and name resolution: outside the connection's own logic.
- Config flow, options, repairs, registry migrations, diagnostics and entity platforms: projections and plumbing of Home Assistant.
- UTF-8 decoding and the line-framed variant of the stream: the splitter starts from decoded characters. What the JSON library makes of a document is a parameter.
- Floating-point rounding, NaN and infinity: numbers are real, and a value that is no finite number is "other".
- The layout of the waiter heap: the queue is a set of entries and a pop takes the least, which is what a heap of distinct entries gives.
- Logging, the radio journal, latency stamps, run-time measurements of covers and the origin of positions: they decide nothing.
- The button that reads settings on request refuses a second press while one runs; reads here may overlap each other.
- `GET` requests and the health probe, which use no radio slot, and the retry of unknown devices.
- CoverTravel.CoverEstimates.StartMovement: the identity of a movement object is a number per channel; several functions of one command are several steps.
- CoverRuns.TargetIsAdoptedAtMostOnce: a timer that is due may fire at any later moment or never; that it fires at all is the event loop's promise.
- Devices.Device.UpdateFromTelegram: channels are values of the map, which the device never replaces, so identity is presence; last-seen time and signal strength are in DeviceMetadata; names of keys are told apart before.
- Devices.Device.ApplyEstimate: what commands the entities send and which estimate they choose.
- SettingConflicts.WritesNeverWorsen: values a device list brings in are not writes and may worsen a combination.
- SettingGrid.SnapsToTheGridExactlyIf: the number of decimals of the step as text is a parameter with its defining property; the choice between an integer and a float of the same value is not represented.
- StreamReader.StreamReaders.RunStream: the first device list that setup waits for is only whether it still waits when credentials are rejected, and what a document does to devices is elsewhere.
- SettingWrites.SettingWriter.SetDeviceParameter: the lock of the device and the two requests, which are in SettingsTraffic; settings that are texts.
- SettingVersions.ShownNeverGoesBack: a device that takes a value after its write has ended, as one that sleeps might; reads are asked for no more urgently than writes, as all their callers do.
- JSON encoding: the length of an encoded body is a parameter, and none where the encoder refuses the value.
- What link tables and profiles hold, and the catalogue of readings: data, or parameters.
