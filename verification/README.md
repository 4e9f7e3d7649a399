# Verified model of the Platform Audio Layer

The Platform Audio Layer (PAL) routes audio streams to devices. Much of it is state that several
objects have to keep in step: streams and the shared devices they are attached to, detection
streams and the power mode they run in, a client registry and the streams opened for it. This
project models those parts in Dafny and proves what they keep, over every run where the property
is about runs, through every failure exit where calls can fail.

## How the model is laid out

| file | what it models |
|---|---|
| `LowPowerSwitch.dfy` | the machine that switches detection streams between LPI and NLPI, with deferral and cancellation, and the machine without deferral that it refines |
| `DetectionPause.dfy` | the disable counters that pause and resume the four detection stream types |
| `SoundTriggerUtils.dfy` | the file-level state of both and the event handlers that update it in place |
| `StreamAsr.dfy` | the ASR stream as far as it takes part in the switch |
| `SwitchThread.dfy` | the countdown thread of a deferred switch, interleaved with events |
| `CaptureProfiles.dfy` | the comparison of capture profiles, the search for the best one and the cache |
| `CaptureProfileOrder.dfy` | what that search can end with over all orders of the streams |
| `DeviceCounts.dfy` | open and start counts of devices against the device lists of streams |
| `PriorityList.dfy` | a device's list of stream attributes, a multimap filled by hinted inserts |
| `PalDevices.dfy` | the routed devices of a stream against the attribute lists of those devices |
| `ContextRegistry.dfy` | clients, their use cases, and the streams opened for them |
| `ModuleRecords.dfy` | decoding of variable-length tag records and the acknowledgement built from them |
| `Metadata.dfy` | the metadata parser and the metadata writer, on bytes |
| `MetadataEncoding.dfy` | that every list of items is what some bytes say |
| `UserCounters.dfy` | the user counters around API calls, callbacks and temporary mutes |
| `PerfLock.dfy` | the counted performance lock |
| `SoundModelUuid.dfy` | the order and equality of engine identifiers |

Where the program updates state in place there is a class with the same fields. Each of its
methods is proved equal to a specification function on values, or to a relation where the order
of iteration is left open; the lemmas about runs and interleavings are about those functions.
What unseen code answers (the resource manager, sessions, vendor libraries) is a parameter of the
operation, so every answer is covered. A stretch of code under one mutex is one atomic step.

`dafny verify dfyconfig.toml` checks everything.

## What the proofs turned up

Each of these is a property that holds under a condition; the condition is proved exact, or a
concrete run shows the failure.

- A stream reported inactive that was never registered can leave a switch to LPI pending while LPI
  is in force (the deactivate branch at utils/src/STUtils.cpp:1293-1302 does not look at the current
  target); the next NLPI stream then merely cancels it. A VoiceUI stream that comes or goes while a
  switch is pending and the device is charging has a similar effect, because
  utils/src/STUtils.cpp:1015-1070 writes the mode directly. And an ASR stream enters and leaves the
  set of NLPI streams by itself (stream/StreamASR/src/StreamASR.cpp:720-721, 885-890, 1308,
  1337-1340). Only while LPI is in force does it force a switch then, which never writes the mode
  (utils/src/STUtils.cpp:1172-1192) and so takes effect only if it is deferred or cancels a pending
  one; in NLPI it merely enters and leaves. `StepConsistentIff` gives exactly the steps of all these
  that break the invariant, and `AsrStartConsistentIff` and `AsrStopConsistentIff` say exactly when an
  ASR stream's start and stop as a whole do not.
- The countdown thread leaves its loop without giving the wake lock back when it is asked to exit
  in the middle of the loop (utils/src/STUtils.cpp:801-816): exactly if it holds the lock at that
  moment, which it does exactly if it has waited on the condition variable before. A countdown armed
  before its first wait is counted without the lock.
- An idle stream, or a card that is down, makes connect and disconnect edit the list without
  opening or closing (stream/src/Stream.cpp:868-878, 982-987); conservation of opens fails in
  exactly those steps.
- The start count goes wrong after a set-up lost to a reset, after a payload refused on the
  first start of a device that others hold open, after a stop for a device that was never started,
  and after a disconnect refused behind the early stop of speaker protection. `StartsConservedIff`
  proves that there is no other case.
- The comment above the insertion loop says that better attributes come first
  (device/src/Device.cpp:721-730). The comparison is not an order, and attributes that are below
  others in every respect can end up on top; with comparable attributes they cannot.
- The votes of the capture profile comparison can form a cycle, so that the result of a search
  can depend on the order in which the streams are looked at. It does not exactly if there is no
  candidate, or some candidate wins against every candidate of another format. For streams of
  several types, which are looked at one type after the other, the exact condition is told pass by
  pass.
- The sound trigger profile takes any backend but the TX macro. If a stream on a third backend fills it
  first, no vote replaces it, and streams on the VA macro are left without a profile that covers them,
  exactly until a recompute or a stop that leaves no candidate.
- After a stop the cached common profile may stay above everything that is active. On comparable
  profiles it is exact if and only if no candidate is left, it was empty, or a candidate that is left
  dominates it.
- The mask in GET_MSW (utils/inc/MetadataParser.h:26) is a 32-bit zero, so that the upper word of a
  written frame index is always zero, and an index survives exactly if it is below 2^32.
- A vendor library that can acquire but not release leaves the performance lock held. This takes the
  library to stay loaded: in that case utils/src/PerfLock.cpp:77-82 closes it and keeps the pointer to
  its acquire function.
- A use case whose reconfiguration fails is closed but stays registered, and is closed once more
  later. If another use case has been given the address of the closed stream meanwhile, that one's
  stream is closed instead. A use case whose acknowledgement fails is reported as failed but stays
  registered and running.
- The acknowledgement is written into 1024 bytes without looking at their number
  (context_manager/src/ContextManager.cpp:43, 1147-1175); it fits exactly if the matching records have
  at most 256 modules in all.
- The stride of the record walk is kept in 32 bits: a record of 2^29 - 1 modules or more makes the
  walk miss the record behind it.

## Model

| member | source | states |
|---|---|---|
| LowPowerSwitch.StepConsistentIff | utils/src/STUtils.cpp:1172-1326 | a step from a consistent state ends in a consistent state if and only if it is not an unregistered deactivation, a VoiceUI change with a switch pending, an ASR stream entering or emptying the set of NLPI streams, or a forced switch that defers or cancels, in the situations spelled out |
| LowPowerSwitch.BracketedIsGuarded | utils/src/STUtils.cpp:1293-1302 | streams that deactivate only after activating, VoiceUI streams that come and go only with nothing pending, and ASR streams that act only where the target is right already never take such a step |
| LowPowerSwitch.StepRefines | utils/src/STUtils.cpp:724-793 | one step of the deferring machine is one step of the machine that never defers |
| LowPowerSwitch.DeferralRefinesImmediate | utils/src/STUtils.cpp:1266-1326 | over every guarded run the effective target is the mode of the machine that never defers, it is LPI exactly when no stream needs NLPI and charging does not force NLPI, and with nothing pending the mode in force is that target |
| LowPowerSwitch.SwitchedExactly | utils/src/STUtils.cpp:1007-1010 | streams are restarted exactly when the target turns around with nothing pending, nobody buffering and no barge-in delay, or when a pending switch is handled with nobody buffering |
| LowPowerSwitch.NoSwitchWhileBuffering | utils/src/STUtils.cpp:748-792 | from any state at all, a request, a handling attempt or a forced switch with a stream buffering neither writes the mode nor restarts streams |
| LowPowerSwitch.CancelKeepsMode | utils/src/STUtils.cpp:748-783 | a request that turns the target around while a switch is pending cancels that switch and changes neither the mode nor the streams; any other keeps it pending |
| LowPowerSwitch.CountdownExactly | utils/src/STUtils.cpp:748-783 | a request that turns the target to LPI with nothing pending arms the countdown with five under low-latency barge-in, whether or not a stream is buffering; one that cancels a pending switch stops it there; nothing else touches it |
| LowPowerSwitch.DeferredExactly | utils/src/STUtils.cpp:748-792 | what is pending after a request that met nothing pending |
| LowPowerSwitch.ForcedExactly | utils/src/STUtils.cpp:1172-1192 | from any state, what a forced switch defers, cancels, arms and stops, and that it restarts the streams exactly if it does none of these |
| LowPowerSwitch.NlpiSetExactly | utils/src/STUtils.cpp:1272-1303 | exactly the streams that the rules allow and that play or record, on a platform that can switch, enter and leave the set; anything else changes nothing |
| LowPowerSwitch.BracketedRunConsistent | utils/src/STUtils.cpp:1252-1326 | every state of a bracketed run is consistent, and the run is guarded |
| LowPowerSwitch.SwitchedIsModeChange | utils/src/STUtils.cpp:1172-1192 | a restart changes the mode, except for a forced one, which never does |
| LowPowerSwitch.ModeCountsRestarts | utils/src/STUtils.cpp:1319-1325 | over every bracketed run the mode in force is the initial one turned around once per restart that was not forced |
| LowPowerSwitch.HandlingSettles | utils/src/STUtils.cpp:1194-1250 | handling a deferred switch with the card online and nobody buffering leaves the mode of the machine that never defers, after any guarded run |
| LowPowerSwitch.UnregisteredStreamBreaksTarget | utils/src/STUtils.cpp:1293-1302 | a run of two events that ends in LPI with an NLPI stream registered |
| LowPowerSwitch.VoiceUiDuringDeferralBreaksTarget | utils/src/STUtils.cpp:1015-1041 | a run that ends in LPI although charging forces NLPI |
| LowPowerSwitch.AsrStartConsistentIff | stream/StreamASR/src/StreamASR.cpp:885-890 | the start of an ASR stream leaves everything in step if and only if it can do with an LPI profile; or it forces a switch that is pending already or that a buffering stream defers; or it forces none and the target is NLPI already |
| LowPowerSwitch.AsrStopConsistentIff | stream/StreamASR/src/StreamASR.cpp:1308-1341 | the stop of a stream in the set does so if and only if it forces a switch, and thereby cancels a pending one to NLPI, exactly when nothing else asks for NLPI |
| LowPowerSwitch.AsrOnLpiPlatform | stream/StreamASR/src/StreamASR.cpp:885-890 | with the card up and LPI supported, the two conditions in terms of the mode in force and the pending switch |
| LowPowerSwitch.AsrForcesNothing | stream/StreamASR/src/StreamASR.cpp:885-890 | without LPI support, with an LPI profile, or in NLPI, a start or stop only enters or leaves the set |
| LowPowerSwitch.AsrStartStaysInLpi | stream/StreamASR/src/StreamASR.cpp:885-890 | a start that ends in LPI with nothing pending and an NLPI stream in the set |
| LowPowerSwitch.AsrStopStaysInNlpi | stream/StreamASR/src/StreamASR.cpp:1308-1341 | a stop in NLPI, of which only the deregistration has an effect, that ends in NLPI with nothing pending and no NLPI stream |
| DetectionPause.SweepKeepsTurns | utils/src/STUtils.cpp:683-711 | stepping the counters of distinct types steps each once and keeps pauses and resumes in turn |
| DetectionPause.PausesAndResumesInTurn | utils/src/STUtils.cpp:1305-1317 | over all disallowed events the four counters stay equal and non-negative, each type is paused and resumed strictly in turn, paused exactly while its counter is positive, and clients are told as often as VoiceUI resumes |
| DetectionPause.ToldWhenLastOneLeaves | utils/src/STUtils.cpp:1312-1336 | clients are told in exactly the steps in which the VoiceUI counter drops from one to zero, and last |
| DetectionPause.FourInTurn | utils/src/STUtils.cpp:1305-1317 | an event is one step of each of the four counters, type after type, with their calls in that order |
| DetectionPause.OrderOfCalls | utils/src/STUtils.cpp:1305-1317 | the four pauses of the first event, and the four resumes of the one that ends it before clients are told |
| SoundTriggerUtils.SwitchState.HandleStreamPauseResume | utils/src/STUtils.cpp:683-711 | steps the counter of the one type and makes its pause or resume call; nothing else changes |
| SoundTriggerUtils.SwitchState.CheckAndUpdateDeferSwitchState | utils/src/STUtils.cpp:724-793 | cancels, arms or lets through a switch as the specification machine does |
| SoundTriggerUtils.SwitchState.TrackStream | utils/src/STUtils.cpp:1281-1303 | keeps the set of NLPI streams, and asks for a switch exactly when the first one meets an LPI target or the last one leaves with nothing forcing NLPI |
| SoundTriggerUtils.SwitchState.HandleConcurrency | utils/src/STUtils.cpp:1252-1339 | a concurrency event is one step of the switch machine or, when disallowed, one step of the pause counters, with exactly their calls; the Tx count follows |
| SoundTriggerUtils.SwitchState.SetChargingState | utils/src/STUtils.cpp:1348-1376 | a charging report is one step of the switch machine, and a repeated one changes nothing |
| SoundTriggerUtils.SwitchState.OnChargingStateChange | utils/src/STUtils.cpp:965-1012 | the requests of the charging rule, after the flag has turned |
| SoundTriggerUtils.SwitchState.StHandleDeferredSwitch | utils/src/STUtils.cpp:1194-1250 | carries out a pending switch unless offline or buffering, and on the way to NLPI starts every waiting stream once and in order |
| SoundTriggerUtils.SwitchState.OnVoiceUiStreamRegistered | utils/src/STUtils.cpp:1015-1041 | the step of the switch machine for the first VoiceUI stream |
| SoundTriggerUtils.SwitchState.OnVoiceUiStreamDeregistered | utils/src/STUtils.cpp:1044-1070 | the step of the switch machine for the last VoiceUI stream |
| SoundTriggerUtils.SwitchState.RegisterNlpiStream | utils/src/STUtils.cpp:1539-1544 | the step of the switch machine for an ASR stream that enters the set |
| SoundTriggerUtils.SwitchState.DeregisterNlpiStream | utils/src/STUtils.cpp:1546-1551 | the step of the switch machine for an ASR stream that leaves the set |
| SoundTriggerUtils.SwitchState.ForceSwitchSoundTriggerStreams | utils/src/STUtils.cpp:1172-1192 | defers or cancels like a request, or restarts the streams, and never writes the mode; nothing with the card down |
| SoundTriggerUtils.SwitchState.UpdateDeferredStreams | utils/src/STUtils.cpp:1570-1580 | appends a waiting stream, or removes every occurrence of it |
| SoundTriggerUtils.WithoutIs | utils/src/STUtils.cpp:1570-1580 | a stream that no longer waits is gone altogether and all others wait as often as before |
| SoundTriggerUtils.WithoutKeepsOrder | utils/src/STUtils.cpp:1570-1580 | and in their order |
| SoundTriggerUtils.StartsInOrder | utils/src/STUtils.cpp:1236-1246 | one call for each waiting stream, in its turn |
| SoundTriggerUtils.TxCounted | utils/src/STUtils.cpp:1274-1279 | over bracketed runs the count of Tx concurrency is the number of streams that have begun and not ended; over no run is it negative |
| StreamAsr.StreamASR.GetCurrentCaptureProfile | stream/StreamASR/src/StreamASR.cpp:720-721 | a stream that needs NLPI enters the set when its profile is asked for |
| StreamAsr.StreamASR.StartRecognition | stream/StreamASR/src/StreamASR.cpp:885-890 | the start of the specification, which forces a switch only while LPI is in force |
| StreamAsr.StreamASR.StopRecognition | stream/StreamASR/src/StreamASR.cpp:1308-1341 | the stop of the specification, likewise |
| SwitchThread.EveryInterleavingSound | utils/src/STUtils.cpp:795-833 | in every interleaving the countdown stays within -1 to 5, wake lock calls alternate, the lock is not held while waiting, and no wake-up is lost |
| SwitchThread.CountingStep | utils/src/STUtils.cpp:820-831 | while counting, each thread step comes exactly one step nearer to the handling, which starts exactly from sleeping at zero |
| SwitchThread.HandledAfterFiveDecrements | utils/src/STUtils.cpp:16-17 | an armed countdown that is left alone has lost one per decrement, and the thread comes to handle the switch after exactly five decrements and a fixed number of its steps |
| SwitchThread.ArmedIsCounting | utils/src/STUtils.cpp:766-770 | arming puts a thread that has not finished into counting at once, wherever it is |
| SwitchThread.NothingLeftToHandle | utils/src/STUtils.cpp:795-833 | in every interleaving a thread at the loop guard or waiting has no countdown that has run out |
| SwitchThread.HandledOnce | utils/src/STUtils.cpp:825-828 | a handling takes one step, settles the mode exactly if the card is online and nobody buffers, and leaves the countdown alone |
| SwitchThread.WaitsAfterHandling | utils/src/STUtils.cpp:826-831 | after a handling with nothing armed meanwhile, two steps take the thread to waiting, without the wake lock and with the countdown stopped |
| SwitchThread.CountsWhatWasArmed | utils/src/STUtils.cpp:818-831 | a countdown armed during the handling is counted on |
| SwitchThread.WakesUpIff | utils/src/STUtils.cpp:807-816 | a waiting thread wakes up exactly when notified or spuriously, takes the wake lock, and gives it back at once only if it is to exit |
| SwitchThread.ExitingRun | utils/src/STUtils.cpp:801-816 | from the moment the exit is asked for, whatever happens then, the wake lock stays as it is and the thread finishes within four of its steps |
| SwitchThread.HoldsIffHasWaited | utils/src/STUtils.cpp:801-809 | in every interleaving a thread that is neither waiting nor finished holds the wake lock if and only if it has waited before |
| SwitchThread.WakeLockKeptIff | utils/src/STUtils.cpp:801-816 | over every run, the wake lock is kept for good if and only if the thread, when it is asked to exit, is in the middle of its loop and has waited before |
| SwitchThread.ExitDuringCountdownKeepsWakeLock | utils/src/STUtils.cpp:801-816 | a run from the start that ends with the wake lock held for good |
| CaptureProfiles.VotesOppose | utils/src/SoundTriggerPlatformInfo.cpp:199-231 | on one backend the score is antisymmetric, so that two profiles cannot both win |
| CaptureProfiles.VotesCycle | utils/src/SoundTriggerPlatformInfo.cpp:199-231 | three profiles can each win against the next |
| CaptureProfiles.SearchOrderIsComplete | utils/src/STUtils.cpp:477-499 | the four passes look at every detection stream and at nothing else |
| CaptureProfiles.FourPasses | utils/src/STUtils.cpp:492-495 | the search is a pass over VoiceUI streams, then ACD, then sensor, then ASR streams |
| CaptureProfiles.FoundAloneIff | utils/src/STUtils.cpp:342-475 | which streams can be found at all, type by type, with activity and microphones spelled out |
| CaptureProfiles.NoneIffNoCandidate | utils/src/STUtils.cpp:342-499 | for any profiles the search finds none exactly when there is no candidate, and else the profile of a candidate |
| CaptureProfiles.BestIsTopIff | utils/src/STUtils.cpp:342-499 | the search returns a profile dominating every candidate if and only if some candidate's profile does |
| CaptureProfiles.OrderIrrelevantIff | utils/src/STUtils.cpp:342-475 | all orders of the streams of a search give the same format if and only if there is no candidate, or some candidate wins against every candidate of another format |
| CaptureProfiles.OneKindOrderIrrelevantIff | utils/src/STUtils.cpp:477-499 | the same for the whole search over streams of one type |
| CaptureProfileOrder.YieldsIff | utils/src/STUtils.cpp:342-475 | a pass can end with a profile in some order if and only if a path of candidates, each beating the one before, leads there that leaves no other stream ahead of it all the way |
| CaptureProfileOrder.MixedOrderIrrelevantIff | utils/src/STUtils.cpp:477-499 | for streams of any types, all orders give one format if and only if all chains of four such paths, one for each pass, end with one format |
| CaptureProfiles.OrderDoesNotMatter | utils/src/STUtils.cpp:477-499 | with such a candidate, any two lists of the same streams of any types give the same format |
| CaptureProfiles.OrderMattersInACycle | utils/src/STUtils.cpp:477-499 | without one, two orders of three streams give two formats |
| CaptureProfiles.Cache.GetProfileByPriority | utils/src/STUtils.cpp:342-475 | the loop over the streams of one type computes the search over them from a given start |
| CaptureProfiles.Cache.GetCaptureProfileByPriority | utils/src/STUtils.cpp:477-499 | the four passes in turn are one search over all detection streams |
| CaptureProfiles.Cache.UpdateSoundTriggerCaptureProfile | utils/src/STUtils.cpp:501-577 | the new common profiles after a start or stop, and the result that says exactly when a common profile was replaced by a winning one |
| CaptureProfiles.Cache.UpdateCaptureProfiles | utils/src/STUtils.cpp:1513-1523 | the full recompute |
| CaptureProfiles.Cache.RecomputeForSwitch | utils/src/STUtils.cpp:836-868 | the recompute that forgets the cache first has the same result |
| CaptureProfiles.BestIsMaximum | utils/src/STUtils.cpp:836-868 | on comparable profiles the recompute is the exact maximum: a candidate's profile that dominates every candidate |
| CaptureProfiles.ActivatedBoundsBothIff | utils/src/STUtils.cpp:530-548 | an activation leaves a bound on both the newcomer and the old common profile if and only if the two are comparable |
| CaptureProfiles.ActivatedElsewhere | utils/src/STUtils.cpp:535-548 | an activation leaves the common profile of the other macro alone |
| CaptureProfiles.DeactivateCovers | utils/src/STUtils.cpp:549-574 | a deactivation leaves a common profile that dominates every active candidate that remains |
| CaptureProfiles.CacheCoversEveryRun | utils/src/STUtils.cpp:501-577 | over every sequence of registrations, starts, stops and switches on comparable profiles without such a start, each common profile dominates every active candidate of its backend |
| CaptureProfiles.StepSoundIff | utils/src/STUtils.cpp:501-577 | on comparable profiles an event keeps each common profile on its backend and above every active candidate if and only if no stream on a third backend fills an empty one |
| CaptureProfiles.ForeignStaysIff | utils/src/STUtils.cpp:530-574 | a third backend in the sound trigger profile stays exactly until a recompute, or a stop that leaves no candidate on the VA macro |
| CaptureProfiles.ForeignLeavesUncovered | utils/src/STUtils.cpp:530-548 | a run after which an active stream on the VA macro is not covered |
| CaptureProfiles.DeactivateEmptiesIff | utils/src/STUtils.cpp:549-574 | for any profiles a stop empties a common profile exactly when it leaves no candidate there |
| CaptureProfiles.DeactivateExactIff | utils/src/STUtils.cpp:549-574 | on comparable profiles a stop leaves a slot in the format of the recompute if and only if no candidate is left, the slot was empty, or a candidate that is left dominates what was in it |
| CaptureProfiles.CacheMayStayAbove | utils/src/STUtils.cpp:549-574 | a run in which that fails: the cache is above every active profile while the recompute is exact |
| DeviceCounts.Device.Open | device/src/Device.cpp:295-349 | the first open enables the path or fails without a trace; every successful open counts one |
| DeviceCounts.Device.Close | device/src/Device.cpp:351-379 | a close counts down, and the last one disables the path and forgets starts and payload |
| DeviceCounts.Device.Start | device/src/Device.cpp:398-453 | a start counts one even when the payload is refused, but not without a backend |
| DeviceCounts.Device.Stop | device/src/Device.cpp:467-478 | a stop counts down to zero and no further |
| DeviceCounts.Stream.ConnectStreamDevice | stream/src/Stream.cpp:961-1122 | list, counts and status after connecting, through every exit |
| DeviceCounts.Stream.SetUpDevice | stream/src/Stream.cpp:1030-1107 | the session part with its two clean-up exits, which differ after a reset |
| DeviceCounts.Stream.DisconnectStreamDevice | stream/src/Stream.cpp:864-949 | list, counts and status after disconnecting, through every exit; all other devices keep their counts |
| DeviceCounts.ConnectBalanced | stream/src/Stream.cpp:961-1122 | whatever fails, connecting changes the open count by one exactly when it appends the device, and then no other device of the list has its backend |
| DeviceCounts.DisconnectBalanced | stream/src/Stream.cpp:864-949 | whatever fails, disconnecting changes the open count by one exactly when it removes the device |
| DeviceCounts.FailedConnectUndone | stream/src/Stream.cpp:1086-1107 | a failed connect leaves list, open count and path as they were, unless the card was reset or only the boost setting failed |
| DeviceCounts.ConnectReports | stream/src/Stream.cpp:961-1107 | a connect with nothing to do reports success, and any other the first failure among open, set-up, start and the two last calls, with the streams and devices that a start is due for spelled out |
| DeviceCounts.DisconnectReports | stream/src/Stream.cpp:864-949 | a disconnect reports what the session answers, if it is asked |
| DeviceCounts.UsbReports | stream/src/Stream.cpp:1109-1119 | a failure on a USB headset that is gone is reported as such, and no other changed |
| DeviceCounts.AttachmentStartsIff | stream/src/Stream.cpp:1048-1067 | in which states, and for which MMAP devices, attaching starts and detaching stops the device |
| DeviceCounts.ConnectThenDisconnect | stream/src/Stream.cpp:864-1122 | connecting and disconnecting without failures gives back the list and the counts; a device nobody else holds ends closed |
| DeviceCounts.OpensConservedIff | stream/src/Stream.cpp:864-1122 | a step keeps every open count equal to the occurrences in all lists, backends distinct and paths enabled exactly while open, if and only if it does not take the idle or card-down path |
| DeviceCounts.EventOpensConservedIff | stream/src/Stream.cpp:864-1122 | the same with changes of a stream's state and of a device's payload among the steps |
| DeviceCounts.OpensConservedOverRuns | stream/src/Stream.cpp:864-1122 | over every run without those paths, with any failures anywhere and any changes of state and payload, opens are conserved |
| DeviceCounts.StartsConservedIff | stream/src/Stream.cpp:887-940 | a step keeps every start count equal to the starting attachments if and only if it is not one of the four failures listed |
| DeviceCounts.EventStartsConservedIff | stream/src/Stream.cpp:887-940 | the same with changes of state and payload: a change of state breaks it exactly if it turns listed attachments into starting ones or back |
| DeviceCounts.StartsConservedOverRuns | stream/src/Stream.cpp:1048-1067 | over every run without those failures and changes starts are conserved and never exceed opens |
| DeviceCounts.FailureFreeNeverLoses | device/src/Device.cpp:398-478 | runs in which no call fails and no state changes have none of those |
| DeviceCounts.IdleAttachBreaksOpens | stream/src/Stream.cpp:982-987 | an idle stream lists a device that was never opened |
| DeviceCounts.ResetBreaksStarts | stream/src/Stream.cpp:1030-1107 | a set-up lost to a reset leaves the device attached and not started |
| DeviceCounts.RefusedPayloadBreaksStarts | device/src/Device.cpp:441-449 | a payload refused on the first start leaves one start too many on a device that another stream holds |
| DeviceCounts.StrayStopBreaksStarts | stream/src/Stream.cpp:1069-1098 | a failed connect that started nothing takes away the start of another stream |
| DeviceCounts.RefusedDisconnectBreaksStarts | stream/src/Stream.cpp:893-918 | a refused disconnect leaves a running stream on a speaker that counts as stopped |
| PriorityList.BeatsIffNotBelow | device/src/Device.cpp:593-679 | without overwrites, compressed formats and the 44.1 kHz family, the comparison holds exactly when the incoming attributes are not below or equal in every respect |
| PriorityList.BothBeatIffIncomparable | device/src/Device.cpp:593-679 | two attributes beat each other exactly when they are incomparable |
| PriorityList.BeatsIffSomethingSpeaksFor | device/src/Device.cpp:593-679 | for all entries, the comparison holds exactly if some single attribute speaks for the incoming one; nothing that speaks against it outweighs that, and the order of the checks does not matter |
| PriorityList.NoEntryBeatsItself | device/src/Device.cpp:593-679 | equal entries never go before each other |
| PriorityList.FamilyAgainstOthers | device/src/Device.cpp:635-655 | a rate of the 44.1 kHz family always goes first, and a rate outside it goes before the family too exactly if it is higher and no multiple of 48 kHz |
| PriorityList.Device.InsertStreamDeviceAttr | device/src/Device.cpp:681-763 | the entry ends up exactly where the search stops, every hint being taken, and the list stays sorted |
| PriorityList.Device.RemoveStreamDeviceAttr | device/src/Device.cpp:802-832 | the stream's first entry goes and nothing else |
| PriorityList.Device.GetTopPriorityDeviceAttr | device/src/Device.cpp:858-880 | the head of the list, whose priority no entry beats, with the device's own rate and width in place of its own if set; an error exactly on the empty list |
| PriorityList.RemoveIsErase | device/src/Device.cpp:810-832 | removal cuts out the first entry of the stream, or changes nothing if there is none |
| PriorityList.InsertThenRemove | device/src/Device.cpp:731-832 | inserting an absent stream and removing it restores the list |
| PriorityList.InsertCounts | device/src/Device.cpp:731-763 | an insert adds one entry of its stream and none of others |
| PriorityList.RunSettled | device/src/Device.cpp:721-763 | over all inserts and removals the list is sorted by priority, and an entry behind an older one of its priority did not beat it |
| PriorityList.ForcedGoesFirst | device/src/Device.cpp:750-763 | an entry forced by a headset combination goes in front of all of its priority |
| PriorityList.UnforcedStops | device/src/Device.cpp:731-763 | any other goes in front of the first entry of a lower priority, or of its own that it beats |
| PriorityList.InsertDescendingIff | device/src/Device.cpp:731-763 | an insert keeps a class descending if and only if the new attributes are comparable with all of the class |
| PriorityList.TopCanBeWorse | device/src/Device.cpp:721-763 | three inserts after which attributes below others in every respect are on top |
| PriorityList.ChainDescending | device/src/Device.cpp:721-763 | if the attributes of each priority form a chain, classes stay descending with ties first in first, over all inserts and removals |
| PriorityList.BestAttributesOnTop | device/src/Device.cpp:858-870 | then the head has the best priority and the greatest attributes within it |
| PriorityList.Device.SetSampleRate | device/inc/Device.h:171 | the device's own rate, which the runs include |
| PriorityList.Device.SetBitWidth | device/inc/Device.h:172 | the device's own width, which the runs include |
| PriorityList.ReadCoversIff | device/src/Device.cpp:868-880 | over all inserts, removals and settings, what is read then covers every entry of its priority if and only if the rate and width set last do not fall below those of the head |
| PalDevices.Stream.AddPalDevice | stream/src/Stream.cpp:504-515 | the device is listed and holds the entry, or neither if there is no instance |
| PalDevices.Stream.RemovePalDevice | stream/src/Stream.cpp:472-486 | every occurrence of the device goes, with one entry for each |
| PalDevices.Stream.ClearOutPalDevices | stream/src/Stream.cpp:488-502 | every device that is no input goes, with one entry for each |
| PalDevices.Stream.SwitchDevice | stream/src/Stream.cpp:1290-1395 | devices of the directions being replaced go and the new ones come, up to the device at which the switch ends early |
| PalDevices.Stream.EnterOne | stream/src/Stream.cpp:1311-1395 | which device takes the place of a requested one, and when the switch stops or passes it over |
| PalDevices.EraseAgrees | stream/src/Stream.cpp:1297-1309 | erasing any devices keeps the two lists in agreement and leaves other streams' entries alone |
| PalDevices.EnterAgrees | stream/src/Stream.cpp:1311-1395 | entering devices does so too, wherever it stops |
| PalDevices.EraseKeepsExactly | stream/src/Stream.cpp:1297-1309 | erasing takes the picked devices away altogether and no other occurrence |
| PalDevices.EnterCounts | stream/src/Stream.cpp:1311-1395 | each device is listed once more for every new device that resolves to it before the one that ends the switch, and the switch runs through exactly if none does |
| PalDevices.SwitchReplaces | stream/src/Stream.cpp:1290-1395 | after a switch the stream lists what was not replaced and what the request enters |
| PalDevices.SwitchByDirection | stream/src/Stream.cpp:1290-1309 | told by id ranges: outputs give way exactly if the request names an output, and inputs exactly if it names an input |
| PalDevices.OtherDirectionStays | stream/src/Stream.cpp:1290-1309 | a request for outputs only leaves every input where it was, and the other way around |
| PalDevices.SwitchInOrder | stream/src/Stream.cpp:1290-1395 | the whole list after a switch: what is kept in its order, then what is entered in the order of the request |
| PalDevices.ResolvesTo | stream/src/Stream.cpp:1335-1361 | which requests end up on the dummy, on the speaker, and on the device asked for |
| PalDevices.StopsExactly | stream/src/Stream.cpp:1335-1392 | which requests end the switch and which are passed over |
| PalDevices.ClearOutKeepsInputs | stream/src/Stream.cpp:488-502 | clearing the outputs leaves exactly the inputs |
| PalDevices.RemoveTakesOne | stream/src/Stream.cpp:472-486 | removing a device takes away that one alone |
| PalDevices.EveryRunInStep | stream/src/Stream.cpp:472-515 | over every run of the four operations by any number of streams, each device holds as many entries for a stream as the stream lists the device |
| ContextRegistry.Streams.Open | context_manager/src/ContextManager.cpp:1006-1020 | a successful open yields an address that no open stream has; a failed one opens nothing |
| ContextRegistry.SeeClient.UsecaseAdd | context_manager/src/ContextManager.cpp:886-897 | adds an entry unless the use case is there already |
| ContextRegistry.SeeClient.UsecaseRemove | context_manager/src/ContextManager.cpp:856-884 | removes the entry, and fails exactly if there is none |
| ContextRegistry.SeeClient.CloseAllUsecases | context_manager/src/ContextManager.cpp:899-919 | in any order, every use case is closed once and forgotten |
| ContextRegistry.ContextManager.CreateIfAndGet | context_manager/src/ContextManager.cpp:794-812 | one object per client, created on first use with no use cases, and the others untouched |
| ContextRegistry.ContextManager.ProcessRegisterRequest | context_manager/src/ContextManager.cpp:48-138 | registry, open streams and status after a registration, through every exit |
| ContextRegistry.ContextManager.ProcessDeregisterRequest | context_manager/src/ContextManager.cpp:213-255 | registry, open streams and status after a deregistration |
| ContextRegistry.ContextManager.CloseAll | context_manager/src/ContextManager.cpp:422-437 | in any order, the registry is emptied and exactly the handles it held are closed |
| ContextRegistry.NeverOrphans | context_manager/src/ContextManager.cpp:48-255 | after any commands with any failures and any addresses, every open stream is owned by a registered use case |
| ContextRegistry.CloseAllLeavesNothing | context_manager/src/ContextManager.cpp:422-437 | whenever everything is closed, no client and no open stream is left |
| ContextRegistry.NextSoundIff | context_manager/src/ContextManager.cpp:48-255 | a command keeps one owner for each open stream, and an entry's stream open exactly unless its reconfiguration failed, if and only if it does not register a stream at an address that an entry still names |
| ContextRegistry.EveryRunSound | context_manager/src/ContextManager.cpp:48-255 | over every run without such a reuse no open stream is shared, and an entry's stream is open if and only if no reconfiguration of it has failed |
| ContextRegistry.ExactlyOneOwner | context_manager/src/ContextManager.cpp:48-138 | every open stream then belongs to exactly one use case of exactly one client |
| ContextRegistry.ReuseNeedsBroken | context_manager/src/ContextManager.cpp:106-119 | only an entry whose reconfiguration has failed leaves an address to be reused this way |
| ContextRegistry.StaleCloseIffBroken | context_manager/src/ContextManager.cpp:1048-1068 | a stream that is not open is closed again if and only if it belongs to an entry whose reconfiguration failed before |
| ContextRegistry.ClosedTwice | context_manager/src/ContextManager.cpp:106-119 | a run from the start that closes a stream twice |
| ContextRegistry.ReusedAddressIsClosed | context_manager/src/ContextManager.cpp:213-255 | a run in which deregistering one use case closes another one's stream |
| ContextRegistry.RegisteredIff | context_manager/src/ContextManager.cpp:66-104 | a new use case is registered and running exactly when all calls up to the start succeed, whatever the acknowledgement does; success is reported exactly when that succeeds too |
| ContextRegistry.ReconfiguredIff | context_manager/src/ContextManager.cpp:104-121 | a request for a registered use case never changes the entries, closes the stream exactly if the reconfiguration fails, and succeeds exactly if everything does |
| ContextRegistry.DeregisteredIff | context_manager/src/ContextManager.cpp:213-255 | a deregistration succeeds exactly if there is such a use case |
| ContextRegistry.RequestNamesClient | context_manager/src/ContextManager.cpp:794-812 | every request creates its client if need be, whatever becomes of it, and leaves the others alone |
| ContextRegistry.RegisterThenDeregister | context_manager/src/ContextManager.cpp:48-255 | registering a new use case and deregistering it restores the registry and the open streams |
| ModuleRecords.StrideExactIff | context_manager/src/ContextManager.cpp:1111-1115 | the pointer moves over exactly one record if and only if its size in bytes fits in 32 bits |
| ModuleRecords.LandsOnEveryRecordIff | context_manager/src/ContextManager.cpp:1111-1115 | the walk comes to every record if and only if all but the last are short enough for that |
| ModuleRecords.EntryAt | inc/PalARDefs.h:66-89 | the words at the start of each record are that record |
| ModuleRecords.RoundTrip | inc/PalARDefs.h:66-89 | walking over a layout of records reads back the records |
| ModuleRecords.CollectRecord | context_manager/src/ContextManager.cpp:1117-1124 | the instance ids of a matching record are appended to those of its tag, in order |
| ModuleRecords.GetModuleIids | context_manager/src/ContextManager.cpp:1111-1136 | each tag is mapped to the instance ids of all its records in payload order, and it is an error exactly when there are none at all |
| ModuleRecords.GetAckData | context_manager/src/ContextManager.cpp:1147-1175 | the acknowledgement is, tag after tag, the ids of all matching records, with four times their number as size |
| ModuleRecords.AcknowledgementAt | context_manager/src/ContextManager.cpp:1161-1169 | where each id stands: behind those for all earlier tags, behind those of earlier records with its tag, and in its place in the record |
| ModuleRecords.IidsOfAt | context_manager/src/ContextManager.cpp:1111-1124 | the same under one tag |
| ModuleRecords.AcknowledgementCount | context_manager/src/ContextManager.cpp:1162-1169 | it has one word per module of every matching record |
| ModuleRecords.AcknowledgementFitsIff | context_manager/src/ContextManager.cpp:140-152 | every word of it lies within the buffer of 1024 bytes if and only if the matching records have at most 256 modules in all |
| ModuleRecords.IidsOfIs | context_manager/src/ContextManager.cpp:1117-1124 | an id is collected under a tag if and only if some record with that tag holds it |
| Metadata.Align4 | utils/inc/MetadataParser.h:22 | the smallest multiple of four that is not below the size |
| Metadata.LastWriterWins | utils/src/MetadataParser.cpp:39-135 | the frame index is that of the last start or end item, and the format that of the last media item |
| Metadata.NoWriterNoChange | utils/src/MetadataParser.cpp:39-135 | what no item writes stays as it was |
| Metadata.Unambiguous | utils/src/MetadataParser.cpp:28-141 | a buffer can be read as items in one way only |
| MetadataEncoding.EveryListIsSerialised | utils/src/MetadataParser.cpp:28-141 | every list of items whose values fit their fields is what some bytes say, and those bytes say nothing else |
| Metadata.ScanAccepts | utils/src/MetadataParser.cpp:39-135 | a well-formed item is passed over exactly and has exactly its effect |
| Metadata.ScanRejectsIff | utils/src/MetadataParser.cpp:41-118 | a round fails exactly for a payload that does not fit or a format other than PCM, and then writes nothing |
| Metadata.ScanReadsIndex | utils/src/MetadataParser.cpp:39-89 | what a round reads of a start or end item, word by word |
| Metadata.ScanReadsMedia | utils/src/MetadataParser.cpp:90-127 | what it reads of a media item, and where it goes on |
| Metadata.ScanSkipsUnknown | utils/src/MetadataParser.cpp:129-135 | that it reads nothing of an unknown item and goes on behind its payload |
| Metadata.ParseItem | utils/src/MetadataParser.cpp:28-136 | one round of the scanning loop on the bytes |
| Metadata.ParseMetadata | utils/src/MetadataParser.cpp:17-142 | for every list of well-formed items the scan ends, consumes the buffer exactly and yields their last-writer-wins result; behind them a rejected item is an error that keeps what the items before it said; too short a buffer is an error that changes nothing |
| Metadata.IndexWords | utils/inc/MetadataParser.h:25-26 | the upper word is always zero, and the two words give the index back if and only if it is below 2^32 |
| Metadata.FillMetadata | utils/src/MetadataParser.cpp:144-192 | the bytes written are a start and an end item with the same index, their flags and offsets, and nothing behind them is touched |
| Metadata.EndsWhereFilled | utils/src/MetadataParser.cpp:157-163 | the end item says how many whole samples the filled bytes hold for PCM, and else how many bytes |
| Metadata.WrittenWords | utils/src/MetadataParser.cpp:164-191 | word by word, what the written items say |
| Metadata.WrittenIndex | utils/src/MetadataParser.cpp:164-191 | the written items mean the frame index modulo 2^32, which is the index if and only if it is below 2^32 |
| Metadata.FillThenParse | utils/src/MetadataParser.cpp:17-192 | writing into a buffer and parsing it succeeds and yields the index modulo 2^32 and nothing else |
| UserCounters.UserCounters.InitStreamUserCounter | resource_manager/src/ResourceManager.cpp:2769-2776 | a new stream has count zero and a free semaphore |
| UserCounters.UserCounters.IncreaseStreamUserCounter | resource_manager/src/ResourceManager.cpp:2816-2835 | the first user takes the semaphore; a stream that is unknown or closing refuses |
| UserCounters.UserCounters.DecreaseStreamUserCounter | resource_manager/src/ResourceManager.cpp:2837-2860 | the last user gives the semaphore back; an unused stream refuses |
| UserCounters.UserCounters.DeactivateStreamUserCounter | resource_manager/src/ResourceManager.cpp:2778-2797 | lets exactly an active stream through and marks it |
| UserCounters.UserCounters.EraseStreamUserCounter | resource_manager/src/ResourceManager.cpp:2799-2814 | removes the counter, and fails exactly if there is none |
| UserCounters.UserCounters.SwitchDevice | stream/src/Stream.cpp:1463-1672 | whichever way a switch leaves, each stream is muted as often as is due and unmuted as often, all mutes coming first, and counters and semaphores are what they were |
| UserCounters.SwitchBalances | stream/src/Stream.cpp:1463-1672 | the number of mutes and of unmutes that are due: the entries that play, are switched along, are not the stream itself and are usable |
| UserCounters.RefusedExactly | resource_manager/src/ResourceManager.cpp:2778-2860 | which of the counter operations are refused, and that a refusal changes nothing |
| UserCounters.CountersConserved | Pal.cpp:441-465 | in every interleaving each counter is the calls in progress plus the entries in lists of muted streams, the semaphore is free exactly when that is zero, and mutes are undone exactly once |
| UserCounters.NeverStuck | resource_manager/src/ResourceManager.cpp:2816-2860 | no thread waits for a semaphore while holding the lock on the streams, none touches a semaphore that is gone, and a call is refused exactly if its stream is not there or closing |
| UserCounters.ClosesOnlyUnheld | Pal.cpp:373-397 | a closing stream gets past its semaphore exactly when nobody holds it, and from then on nobody does |
| UserCounters.NoNewHolders | stream/src/Stream.cpp:1856-1879 | once a stream is closing no step adds a holder |
| UserCounters.OneCloser | Pal.cpp:377-383 | of all attempts to close a stream exactly one is let through |
| PerfLock.PerfLocks.AcquireLocked | utils/src/PerfLock.cpp:33-44 | counts, and asks the library for a lock exactly if none is held and it can |
| PerfLock.PerfLocks.ReleaseLocked | utils/src/PerfLock.cpp:46-55 | counts, and gives the handle back only with the last object |
| PerfLock.OneLockAtATime | utils/src/PerfLock.cpp:33-55 | in every interleaving handles are obtained and given back strictly in pairs of the same handle, at most one being out |
| PerfLock.CallsExactly | utils/src/PerfLock.cpp:33-55 | the library is asked by every new object while no lock is held, and gets the handle back from the last object while one is |
| PerfLock.HeldAtRestIff | utils/src/PerfLock.cpp:46-55 | with no object left a lock is held if and only if one was obtained from a library that cannot release |
| PerfLock.AlwaysGivenBackIff | utils/src/PerfLock.cpp:66-84 | every run gives everything back if and only if the library does not offer acquiring without releasing |
| SoundModelUuid.LessThan | utils/src/SoundTriggerPlatformInfo.cpp:49-85 | the field by field comparison with its byte loop computes the order |
| SoundModelUuid.CompareUuid | utils/src/SoundTriggerPlatformInfo.cpp:97-111 | true exactly for equal identifiers |
| SoundModelUuid.UnorderedIffEqual | utils/src/SoundTriggerPlatformInfo.cpp:49-111 | the order is strict, and leaves two identifiers unordered exactly if they are equal |
| SoundModelUuid.LexicographicIff | utils/src/SoundTriggerPlatformInfo.cpp:49-85 | the first field that differs decides, in the order low, mid, high, clock, node |
| SoundModelUuid.Transitive | utils/src/SoundTriggerPlatformInfo.cpp:49-85 | the order is transitive |

## Left out

- CaptureProfiles.CacheCoversEveryRun: asks for comparable profiles on each backend; without that even a single activation need not leave a bound, as ActivatedBoundsBothIff shows.
- ModuleRecords.GetModuleIids: assumes records all but the last of which are short enough for the 32-bit stride, and a payload that holds as many records as it says; malformed payloads are outside the model.
- ModuleRecords.GetAckData: its data is not bounded by the buffer of 1024 bytes; AcknowledgementFitsIff says when it fits.
- Metadata.ParseMetadata: assumes well-formed items in front of the end or of a rejected item; truncated headers and other malformed buffers are outside the model.
- Metadata.FillMetadata: assumes a sample size other than zero for PCM, because the program divides by it.
- Metadata structures: their headers are not part of this repository, so sizes, offsets and identifiers are a parameter of the model; fields are taken as little-endian words.
- PerfLock.AlwaysGivenBackIff: takes the acquire function as usable in a library without a release function, although that library has been closed.
- DeviceCounts.StartsConservedOverRuns: the starts and stops that a stream makes when it changes its state are in its plugin; a change of state that makes them due counts as losing them.
- Resource manager, sessions, stream and session plugins, and the plugin manager: their answers are parameters of the operations.
- Subclasses of Device that override start, stop or close.
- GetConcurrencyInfo: its decision for a stream is an input of the concurrency event.
- The window between a VoiceUI stream's appearance in the list of active streams and the call of its handler; the model takes both as one step.
- The shared-backend, SCO, haptics and group-device decisions of switchDevice: only the upkeep of its lists and its temporary mutes are modelled.
- Temporary users of streams inside the resource manager and the Bluetooth utilities, which bracket the same counters.
- Two closes of the same stream at once, apart from the counters: the second one may still be inside the stream's own close.
- Stream attributes are always available; their lookup does not fail.
- Allocation failure, and the pointer that dangles after the buffer of the module query is resized.
- The request queue of the context manager and a sound card reset arriving in the middle of a command.
- Real mutexes, condition variables and sleeping: a locked stretch is one atomic step.
- Bluetooth codec packers, configuration parsing, sysfs, sockets, signals and logging: field copying and input or output.
